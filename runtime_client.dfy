/**
 * The client side of the runtime protocol: the table from coordinator
 * events to client responses, and the lock-step loop that submits a
 * manifest and then answers events until the flow ends.
 *
 * The transport is a `Connection` whose `pending` field holds the results
 * its receives will give, in order, and whose `transcript` records every
 * send attempted and every receive in the order they happen.  A send that
 * fails is recorded all the same: its failure shows only as the error
 * `client_send` returns.  The file system that
 * `Write` events touch is a map from file name to contents.
 *
 * `Session` is the specification of one run on values; `Start` is proved
 * against it, and the lemmas below state what a session does.
 */
module RuntimeClient {
  import opened Wrappers
  import opened Widgets
  import opened UiContext

  type Byte = b: int | 0 <= b < 256

  /** The counters the coordinator reports when a flow ends; this client ignores them. */
  datatype Metrics = Metrics(counters: seq<nat>)

  /** A request for a run: where the manifest is and how many jobs may run at once. */
  datatype Submission = Submission(manifestUrl: string, maxParallelJobs: nat)

  /** What the coordinator sends. */
  datatype Event =
    | FlowStart
    | FlowEnd(metrics: Metrics)
    | StdoutEOF
    | Stdout(text: string)
    | Stderr(text: string)
    | GetStdin
    | GetLine
    | GetArgs
    | Write(filename: string, bytes: seq<Byte>)
    | PixelWrite(point: (nat, nat), color: (Byte, Byte, Byte), size: (nat, nat), name: string)
    | StderrEOF
    | Invalid

  /** What the client sends. */
  datatype Response =
    | Ack
    | Error(message: string)
    | Stdin(text: string)
    | Args(args: seq<string>)
    | ClientExiting
    | ClientSubmission(submission: Submission)

  /** One result of `client_recv`: an event, or the text of the receive error. */
  type Received = Result<Event>

  /**
   * An `IDERuntimeClient`.  Its field `image_buffers` is left out: the code
   * that fills it is commented out, so it stays empty.
   */
  datatype Client = Client(args: seq<string>, displayMetrics: bool)

  /** The side effect that handling an event has outside the client. */
  datatype Effect =
    | NoEffect
    | AppendStdout(text: string)
    | AppendStderr(text: string)
    | WriteFile(name: string, bytes: seq<Byte>)

  datatype Handled = Handled(response: Response, effect: Effect)

  /** A flow-ending event. */
  predicate EndsFlow(r: Received)
  {
    r.Ok? && r.value.FlowEnd?
  }

  /** `process_event`: the response to an event and the effect of handling it. */
  function ProcessEvent(c: Client, e: Event): (h: Handled)
    // only the end of the flow makes the client exit
    ensures h.response == ClientExiting <==> e.FlowEnd?
    // every event that asks for nothing is acknowledged
    ensures h.response == Ack <==>
      (e.FlowStart? || e.StdoutEOF? || e.StderrEOF? || e.Stdout? || e.Stderr? ||
       e.Write? || e.PixelWrite? || e.Invalid?)
    ensures e.GetStdin? ==> h.response == Error("Could not read Stdin")
    ensures e.GetLine? ==> h.response == Stdin("bla bla")
    // the arguments given to the client, and only those, are handed out
    ensures e.GetArgs? <==> h.response.Args?
    ensures h.response.Args? ==> h.response.args == c.args
    // only output and file writes have an effect, and the effect carries the event's data
    ensures e.Stdout? <==> h.effect.AppendStdout?
    ensures e.Stderr? <==> h.effect.AppendStderr?
    ensures e.Write? <==> h.effect.WriteFile?
    ensures e.Stdout? ==> h.effect.text == e.text + "\n"
    ensures e.Stderr? ==> h.effect.text == e.text + "\n"
    ensures e.Write? ==> h.effect.name == e.filename && h.effect.bytes == e.bytes
  {
    match e
    case FlowStart => Handled(Ack, NoEffect)
    case FlowEnd(_) => Handled(ClientExiting, NoEffect)
    case StdoutEOF => Handled(Ack, NoEffect)
    case Stdout(contents) => Handled(Ack, AppendStdout(contents + "\n"))
    case Stderr(contents) => Handled(Ack, AppendStderr(contents + "\n"))
    case GetStdin => Handled(Error("Could not read Stdin"), NoEffect)
    case GetLine => Handled(Stdin("bla bla"), NoEffect)
    case GetArgs => Handled(Args(c.args), NoEffect)
    case Write(filename, bytes) => Handled(Ack, WriteFile(filename, bytes))
    case PixelWrite(_, _, _, _) => Handled(Ack, NoEffect)
    case StderrEOF => Handled(Ack, NoEffect)
    case Invalid => Handled(Ack, NoEffect)
  }

  // ---- Messages posted by the loop ---------------------------------------

  function StartFailedMessage(e: string): string
  {
    "Error while starting IDE Runtime client, creating connection: " + e
  }

  function SubmitFailedMessage(e: string): string
  {
    "Error while starting IDE Runtime client, client_send: " + e
  }

  function ReceiveFailedMessage(e: string): string
  {
    "Error receiving Event in runtime client: " + e
  }

  const FLOW_ENDED: string := "Flow execution ended"

  // ---- One run, on values -------------------------------------------------

  /** One entry of a connection's transcript: a send attempted, or a receive and its result. */
  datatype Wire = Sent(response: Response) | Recv(received: Received)

  /** Everything the run can change: the widgets, the files and the transcript. */
  datatype Host = Host(screen: Screen, files: map<string, seq<Byte>>, wire: seq<Wire>)

  /** Carry out the effect of handling an event. */
  function ApplyEffect(h: Host, effect: Effect): (r: Host)
    ensures r.wire == h.wire
    ensures effect.AppendStdout? ==>
      r.screen == h.screen.(stdout := h.screen.stdout + effect.text) && r.files == h.files
    ensures effect.AppendStderr? ==>
      r.screen == h.screen.(stderr := h.screen.stderr + effect.text) && r.files == h.files
    // a write leaves the named file holding exactly the bytes; no other file changes
    ensures effect.WriteFile? ==>
      r.screen == h.screen && r.files.Keys == h.files.Keys + {effect.name} &&
      r.files[effect.name] == effect.bytes &&
      forall f :: f in h.files && f != effect.name ==> r.files[f] == h.files[f]
    ensures effect.NoEffect? ==> r == h
  {
    match effect
    case NoEffect => h
    case AppendStdout(text) => h.(screen := h.screen.(stdout := h.screen.stdout + text))
    case AppendStderr(text) => h.(screen := h.screen.(stderr := h.screen.stderr + text))
    case WriteFile(name, bytes) => h.(files := h.files[name := bytes])
  }

  /** The transcript entries for one answered receive result. */
  function Entries(c: Client, r: Received): seq<Wire>
  {
    match r
    case Ok(e) => [Recv(r), Sent(ProcessEvent(c, e).response)]
    case Err(_) => [Recv(r)]
  }

  /** One turn of the loop for a receive result that does not end the flow. */
  function Step(c: Client, h: Host, r: Received): (n: Host)
    requires !EndsFlow(r)
    ensures n.wire == h.wire + Entries(c, r)
  {
    match r
    case Ok(e) =>
      var handled := ProcessEvent(c, e);
      var done := ApplyEffect(h.(wire := h.wire + [Recv(r)]), handled.effect);
      done.(wire := done.wire + [Sent(handled.response)])
    case Err(e) =>
      h.(screen := h.screen.WithError(ReceiveFailedMessage(e)), wire := h.wire + [Recv(r)])
  }

  /** What one turn of the loop does to the widgets and the files. */
  lemma StepEffects(c: Client, h: Host, r: Received)
    requires !EndsFlow(r)
    ensures var n := Step(c, h, r);
      // a receive error raises one error dialog and changes nothing else
      (r.Err? ==> n == h.(screen := h.screen.WithError(ReceiveFailedMessage(r.error)), wire := n.wire)) &&
      // output goes to its own buffer, with a line break, and to no other
      (r.Ok? && r.value.Stdout? ==>
        n.screen == h.screen.(stdout := h.screen.stdout + r.value.text + "\n") && n.files == h.files) &&
      (r.Ok? && r.value.Stderr? ==>
        n.screen == h.screen.(stderr := h.screen.stderr + r.value.text + "\n") && n.files == h.files) &&
      (r.Ok? && r.value.Write? ==>
        n.screen == h.screen && n.files == h.files[r.value.filename := r.value.bytes]) &&
      // every other event leaves the widgets and the files as they were
      (r.Ok? && !(r.value.Stdout? || r.value.Stderr? || r.value.Write?) ==>
        n.screen == h.screen && n.files == h.files)
  {
  }

  /** The index of the first flow-ending event, or the length when there is none. */
  function ExitAt(inbox: seq<Received>): (k: nat)
    ensures k <= |inbox|
    ensures k < |inbox| ==> EndsFlow(inbox[k])
    ensures forall j :: 0 <= j < k ==> !EndsFlow(inbox[j])
  {
    if inbox == [] then 0
    else if EndsFlow(inbox[0]) then 0
    else 1 + ExitAt(inbox[1..])
  }

  /** No flow-ending event among the results. */
  predicate NoEnd(rs: seq<Received>)
  {
    forall j :: 0 <= j < |rs| ==> !EndsFlow(rs[j])
  }

  /** The turns of the loop for a run of answered receive results. */
  function Replay(c: Client, rs: seq<Received>, h: Host): Host
    requires NoEnd(rs)
    decreases |rs|
  {
    if rs == [] then h
    else Replay(c, rs[1..], Step(c, h, rs[0]))
  }

  /** The screen after `start` has opened the connection and sent the submission. */
  function Opened(s: Screen, startError: Option<string>, sendError: Option<string>): Screen
  {
    var afterStart := if startError.Some? then s.WithError(StartFailedMessage(startError.value)) else s;
    if sendError.Some? then afterStart.WithError(SubmitFailedMessage(sendError.value)) else afterStart
  }

  /** The outcome of a run: whether the loop returned, what it left, and the unread results. */
  datatype Run = Run(ended: bool, host: Host, rest: seq<Received>)

  /**
   * `IDERuntimeClient::start`, on values.  `startError` and `sendError` are
   * what `connection.start()` and `client_send` report; `inbox` the results
   * the receives give.  When they run out before the flow ends, the program
   * would go on waiting in `client_recv`: the run has not ended.
   */
  function Session(submission: Submission, args: seq<string>,
                   startError: Option<string>, sendError: Option<string>,
                   h: Host, inbox: seq<Received>): (r: Run)
    // the loop returns exactly when some received event ends the flow
    ensures r.ended <==> exists i :: 0 <= i < |inbox| && EndsFlow(inbox[i])
    // it reads up to and including that event and nothing after it
    ensures r.ended ==> r.rest == inbox[ExitAt(inbox) + 1..]
    ensures !r.ended ==> r.rest == []
    // the submission is the first send attempted, before anything is received
    ensures |r.host.wire| > |h.wire| && r.host.wire[..|h.wire| + 1] == h.wire + [Sent(ClientSubmission(submission))]
  {
    var h0 := Host(Opened(h.screen, startError, sendError), h.files, h.wire + [Sent(ClientSubmission(submission))]);
    var k := ExitAt(inbox);
    var h1 := Replay(Client(args, true), inbox[..k], h0);
    ReplayWire(Client(args, true), inbox[..k], h0);
    if k < |inbox| then
      Run(true, h1.(screen := h1.screen.WithStatus(FLOW_ENDED), wire := h1.wire + [Recv(inbox[k])]), inbox[k + 1..])
    else
      Run(false, h1, [])
  }

  // ---- What a run sends and shows --------------------------------------------

  /** The transcript of answered receive results. */
  function Exchange(c: Client, rs: seq<Received>): seq<Wire>
  {
    if rs == [] then [] else Entries(c, rs[0]) + Exchange(c, rs[1..])
  }

  /** The responses in a transcript, in order. */
  function Sents(w: seq<Wire>): seq<Response>
  {
    if w == [] then [] else (if w[0].Sent? then [w[0].response] else []) + Sents(w[1..])
  }

  /** The events among receive results, in order. */
  function Events(rs: seq<Received>): seq<Event>
  {
    if rs == [] then [] else (if rs[0].Ok? then [rs[0].value] else []) + Events(rs[1..])
  }

  /** `process_event`'s response to each event, in order. */
  function Responses(c: Client, es: seq<Event>): (r: seq<Response>)
    ensures |r| == |es| && forall i :: 0 <= i < |es| ==> r[i] == ProcessEvent(c, es[i]).response
  {
    if es == [] then [] else [ProcessEvent(c, es[0]).response] + Responses(c, es[1..])
  }

  /** The error dialog raised for each receive error, in order. */
  function ReceiveErrors(rs: seq<Received>): seq<string>
  {
    if rs == [] then []
    else (if rs[0].Err? then [ReceiveFailedMessage(rs[0].error)] else []) + ReceiveErrors(rs[1..])
  }

  /** The errors of the failed receives, in order. */
  function Failures(rs: seq<Received>): seq<string>
  {
    if rs == [] then [] else (if rs[0].Err? then [rs[0].error] else []) + Failures(rs[1..])
  }

  /** The text the stdout events of a run add to the stdout buffer. */
  function StdoutText(es: seq<Event>): string
  {
    if es == [] then "" else (if es[0].Stdout? then es[0].text + "\n" else "") + StdoutText(es[1..])
  }

  /** The text the stderr events of a run add to the stderr buffer. */
  function StderrText(es: seq<Event>): string
  {
    if es == [] then "" else (if es[0].Stderr? then es[0].text + "\n" else "") + StderrText(es[1..])
  }

  lemma {:induction false} ReplayWire(c: Client, rs: seq<Received>, h: Host)
    requires NoEnd(rs)
    ensures Replay(c, rs, h).wire == h.wire + Exchange(c, rs)
    decreases |rs|
  {
    if rs != [] {
      ReplayWire(c, rs[1..], Step(c, h, rs[0]));
    }
  }

  lemma {:induction false} SentsAppend(a: seq<Wire>, b: seq<Wire>)
    ensures Sents(a + b) == Sents(a) + Sents(b)
    decreases |a|
  {
    if a != [] {
      assert (a + b)[0] == a[0] && (a + b)[1..] == a[1..] + b;
      SentsAppend(a[1..], b);
    } else {
      assert a + b == b;
    }
  }

  /** Exactly one send is attempted per received event, in the order received. */
  lemma {:induction false} SentsOfExchange(c: Client, rs: seq<Received>)
    ensures Sents(Exchange(c, rs)) == Responses(c, Events(rs))
    decreases |rs|
  {
    if rs != [] {
      SentsOfExchange(c, rs[1..]);
      SentsAppend(Entries(c, rs[0]), Exchange(c, rs[1..]));
      match rs[0] {
        case Ok(e) =>
          var es := Events(rs[1..]);
          assert Events(rs) == [e] + es;
          assert Responses(c, [e] + es) == [ProcessEvent(c, e).response] + Responses(c, es) by {
            assert ([e] + es)[1..] == es;
          }
          assert Sents(Entries(c, rs[0])) == [ProcessEvent(c, e).response] by {
            assert Entries(c, rs[0])[1..] == [Sent(ProcessEvent(c, e).response)];
          }
        case Err(_) =>
      }
    }
  }

  /** One turn leaves the status label alone and raises one dialog for a receive error. */
  lemma StepDialogs(c: Client, h: Host, r: Received)
    requires !EndsFlow(r)
    ensures Step(c, h, r).screen.status == h.screen.status
    ensures Step(c, h, r).screen.errors == h.screen.errors + (if r.Err? then [ReceiveFailedMessage(r.error)] else [])
  {
    StepEffects(c, h, r);
  }

  /** While the loop runs the status label is untouched and each receive error raises one dialog. */
  lemma {:induction false} ReplayDialogs(c: Client, rs: seq<Received>, h: Host)
    requires NoEnd(rs)
    ensures Replay(c, rs, h).screen.status == h.screen.status
    ensures Replay(c, rs, h).screen.errors == h.screen.errors + ReceiveErrors(rs)
    decreases |rs|
  {
    if rs != [] {
      var next := Step(c, h, rs[0]);
      assert Replay(c, rs, h) == Replay(c, rs[1..], next);
      ReplayDialogs(c, rs[1..], next);
      var raised := if rs[0].Err? then [ReceiveFailedMessage(rs[0].error)] else [];
      StepDialogs(c, h, rs[0]);
      assert ReceiveErrors(rs) == raised + ReceiveErrors(rs[1..]);
      assert h.screen.errors + (raised + ReceiveErrors(rs[1..])) == (h.screen.errors + raised) + ReceiveErrors(rs[1..]);
    }
  }

  /** The line one receive result adds to the stdout buffer. */
  function StdoutLine(r: Received): string
  {
    if r.Ok? && r.value.Stdout? then r.value.text + "\n" else ""
  }

  lemma StepStdout(c: Client, h: Host, r: Received)
    requires !EndsFlow(r)
    ensures Step(c, h, r).screen.stdout == h.screen.stdout + StdoutLine(r)
  {
    StepEffects(c, h, r);
  }

  lemma StdoutTextCons(rs: seq<Received>)
    requires rs != []
    ensures StdoutText(Events(rs)) == StdoutLine(rs[0]) + StdoutText(Events(rs[1..]))
  {
    var es := Events(rs[1..]);
    if rs[0].Ok? {
      var e := rs[0].value;
      assert Events(rs) == [e] + es;
      assert ([e] + es)[0] == e && ([e] + es)[1..] == es;
    } else {
      assert Events(rs) == es;
    }
  }

  /** While the loop runs the stdout buffer grows by exactly the lines of the stdout events. */
  lemma {:induction false} ReplayStdout(c: Client, rs: seq<Received>, h: Host)
    requires NoEnd(rs)
    ensures Replay(c, rs, h).screen.stdout == h.screen.stdout + StdoutText(Events(rs))
    decreases |rs|
  {
    if rs != [] {
      var next := Step(c, h, rs[0]);
      assert Replay(c, rs, h) == Replay(c, rs[1..], next);
      ReplayStdout(c, rs[1..], next);
      StepStdout(c, h, rs[0]);
      StdoutTextCons(rs);
      var line, later := StdoutLine(rs[0]), StdoutText(Events(rs[1..]));
      assert h.screen.stdout + (line + later) == (h.screen.stdout + line) + later;
    }
  }

  /** The line one receive result adds to the stderr buffer. */
  function StderrLine(r: Received): string
  {
    if r.Ok? && r.value.Stderr? then r.value.text + "\n" else ""
  }

  lemma StepStderr(c: Client, h: Host, r: Received)
    requires !EndsFlow(r)
    ensures Step(c, h, r).screen.stderr == h.screen.stderr + StderrLine(r)
  {
    StepEffects(c, h, r);
  }

  lemma StderrTextCons(rs: seq<Received>)
    requires rs != []
    ensures StderrText(Events(rs)) == StderrLine(rs[0]) + StderrText(Events(rs[1..]))
  {
    var es := Events(rs[1..]);
    if rs[0].Ok? {
      var e := rs[0].value;
      assert Events(rs) == [e] + es;
      assert ([e] + es)[0] == e && ([e] + es)[1..] == es;
    } else {
      assert Events(rs) == es;
    }
  }

  /** While the loop runs the stderr buffer grows by exactly the lines of the stderr events. */
  lemma {:induction false} ReplayStderr(c: Client, rs: seq<Received>, h: Host)
    requires NoEnd(rs)
    ensures Replay(c, rs, h).screen.stderr == h.screen.stderr + StderrText(Events(rs))
    decreases |rs|
  {
    if rs != [] {
      var next := Step(c, h, rs[0]);
      assert Replay(c, rs, h) == Replay(c, rs[1..], next);
      ReplayStderr(c, rs[1..], next);
      StepStderr(c, h, rs[0]);
      StderrTextCons(rs);
      var line, later := StderrLine(rs[0]), StderrText(Events(rs[1..]));
      assert h.screen.stderr + (line + later) == (h.screen.stderr + line) + later;
    }
  }

  /**
   * Every receive either delivers an event or raises a dialog, and the
   * dialogs name the receive errors one by one, in the order they came.
   */
  lemma {:induction false} ReceiveErrorDialogs(rs: seq<Received>)
    ensures |Events(rs)| + |Failures(rs)| == |rs|
    ensures |ReceiveErrors(rs)| == |Failures(rs)|
    ensures forall i :: 0 <= i < |Failures(rs)| ==> ReceiveErrors(rs)[i] == ReceiveFailedMessage(Failures(rs)[i])
    decreases |rs|
  {
    if rs != [] {
      ReceiveErrorDialogs(rs[1..]);
      var later, fails := ReceiveErrors(rs[1..]), Failures(rs[1..]);
      if rs[0].Err? {
        assert ReceiveErrors(rs) == [ReceiveFailedMessage(rs[0].error)] + later;
        assert Failures(rs) == [rs[0].error] + fails;
      } else {
        assert ReceiveErrors(rs) == later && Failures(rs) == fails;
      }
    }
  }

  /**
   * The whole of a run.  After the submission the transcript holds each
   * receive in order, each event but the last followed at once by its
   * response; the dialogs are the start-up failures and one per receive
   * error; the status label gets "Flow execution ended" exactly when the
   * run ended; the buffers grow by the output lines.
   */
  lemma SessionEffects(submission: Submission, args: seq<string>,
                       startError: Option<string>, sendError: Option<string>,
                       h: Host, inbox: seq<Received>)
    ensures var r := Session(submission, args, startError, sendError, h, inbox);
      var k := ExitAt(inbox);
      var answered := inbox[..k];
      r.host.wire[..|h.wire|] == h.wire &&
      r.host.wire[|h.wire|..] == [Sent(ClientSubmission(submission))] + Exchange(Client(args, true), answered) +
                                 (if r.ended then [Recv(inbox[k])] else []) &&
      r.host.screen.errors == Opened(h.screen, startError, sendError).errors + ReceiveErrors(answered) &&
      r.host.screen.status == h.screen.status + (if r.ended then [FLOW_ENDED] else []) &&
      r.host.screen.stdout == h.screen.stdout + StdoutText(Events(answered)) &&
      r.host.screen.stderr == h.screen.stderr + StderrText(Events(answered))
  {
    SessionWire(submission, args, startError, sendError, h, inbox);
    SessionDialogs(submission, args, startError, sendError, h, inbox);
    SessionStdout(submission, args, startError, sendError, h, inbox);
    SessionStderr(submission, args, startError, sendError, h, inbox);
  }

  lemma SessionDialogs(submission: Submission, args: seq<string>,
                       startError: Option<string>, sendError: Option<string>,
                       h: Host, inbox: seq<Received>)
    ensures var r := Session(submission, args, startError, sendError, h, inbox);
      r.host.screen.errors == Opened(h.screen, startError, sendError).errors + ReceiveErrors(inbox[..ExitAt(inbox)]) &&
      r.host.screen.status == h.screen.status + (if r.ended then [FLOW_ENDED] else [])
  {
    var h0 := Host(Opened(h.screen, startError, sendError), h.files, h.wire + [Sent(ClientSubmission(submission))]);
    ReplayDialogs(Client(args, true), inbox[..ExitAt(inbox)], h0);
  }

  lemma SessionStdout(submission: Submission, args: seq<string>,
                      startError: Option<string>, sendError: Option<string>,
                      h: Host, inbox: seq<Received>)
    ensures var r := Session(submission, args, startError, sendError, h, inbox);
      r.host.screen.stdout == h.screen.stdout + StdoutText(Events(inbox[..ExitAt(inbox)]))
  {
    var h0 := Host(Opened(h.screen, startError, sendError), h.files, h.wire + [Sent(ClientSubmission(submission))]);
    ReplayStdout(Client(args, true), inbox[..ExitAt(inbox)], h0);
  }

  lemma SessionStderr(submission: Submission, args: seq<string>,
                      startError: Option<string>, sendError: Option<string>,
                      h: Host, inbox: seq<Received>)
    ensures var r := Session(submission, args, startError, sendError, h, inbox);
      r.host.screen.stderr == h.screen.stderr + StderrText(Events(inbox[..ExitAt(inbox)]))
  {
    var h0 := Host(Opened(h.screen, startError, sendError), h.files, h.wire + [Sent(ClientSubmission(submission))]);
    ReplayStderr(Client(args, true), inbox[..ExitAt(inbox)], h0);
  }

  /** What a run adds to the transcript. */
  lemma SessionWire(submission: Submission, args: seq<string>,
                    startError: Option<string>, sendError: Option<string>,
                    h: Host, inbox: seq<Received>)
    ensures var r := Session(submission, args, startError, sendError, h, inbox);
      var k := ExitAt(inbox);
      r.host.wire[..|h.wire|] == h.wire &&
      r.host.wire[|h.wire|..] == [Sent(ClientSubmission(submission))] + Exchange(Client(args, true), inbox[..k]) +
                                 (if r.ended then [Recv(inbox[k])] else [])
  {
    var first := [Sent(ClientSubmission(submission))];
    var h0 := Host(Opened(h.screen, startError, sendError), h.files, h.wire + first);
    var k := ExitAt(inbox);
    var middle := Exchange(Client(args, true), inbox[..k]);
    ReplayWire(Client(args, true), inbox[..k], h0);
    var last := if k < |inbox| then [Recv(inbox[k])] else [];
    assert Session(submission, args, startError, sendError, h, inbox).host.wire == h.wire + first + middle + last;
    Regroup(h.wire, first, middle, last);
  }

  /** `a + b + c + d` starts with `a`, followed by `b + c + d`. */
  lemma Regroup(a: seq<Wire>, b: seq<Wire>, c: seq<Wire>, d: seq<Wire>)
    ensures (a + b + c + d)[..|a|] == a && (a + b + c + d)[|a|..] == b + c + d
  {
    assert a + b + c + d == a + (b + c + d);
  }

  /**
   * When the received events are e1..en and only en ends the flow, the
   * results before the first flow end carry exactly the events e1..e(n-1).
   */
  lemma {:induction false} EventsBeforeExit(inbox: seq<Received>, es: seq<Event>, m: Metrics)
    requires Events(inbox) == es + [FlowEnd(m)]
    requires forall i :: 0 <= i < |es| ==> !es[i].FlowEnd?
    ensures ExitAt(inbox) < |inbox| && Events(inbox[..ExitAt(inbox)]) == es
    decreases |inbox|
  {
    var rest := inbox[1..];
    assert inbox != [];
    assert Events(inbox) == (if inbox[0].Ok? then [inbox[0].value] else []) + Events(rest);
    match inbox[0] {
      case Err(_) =>
        EventsBeforeExit(rest, es, m);
        assert inbox[..ExitAt(inbox)] == [inbox[0]] + rest[..ExitAt(rest)];
      case Ok(e) =>
        assert [e] + Events(rest) == es + [FlowEnd(m)];
        assert (es + [FlowEnd(m)])[0] == ([e] + Events(rest))[0] == e;
        assert es != [] ==> (es + [FlowEnd(m)])[0] == es[0];
        if !e.FlowEnd? {
          assert es != [] && es[0] == e;
          assert Events(rest) == es[1..] + [FlowEnd(m)] by {
            assert ([e] + Events(rest))[1..] == (es + [FlowEnd(m)])[1..];
          }
          EventsBeforeExit(rest, es[1..], m);
          assert inbox[..ExitAt(inbox)] == [inbox[0]] + rest[..ExitAt(rest)];
          assert Events([inbox[0]] + rest[..ExitAt(rest)]) == [e] + Events(rest[..ExitAt(rest)]) by {
            assert ([inbox[0]] + rest[..ExitAt(rest)])[1..] == rest[..ExitAt(rest)];
          }
        }
    }
  }

  /**
   * The sends attempted: for received events e1..en where only en ends the
   * flow, the submission and then the responses to e1..e(n-1), in order;
   * none for en.
   */
  lemma SessionResponses(submission: Submission, args: seq<string>,
                         startError: Option<string>, sendError: Option<string>,
                         h: Host, inbox: seq<Received>, es: seq<Event>, m: Metrics)
    requires Events(inbox) == es + [FlowEnd(m)]
    requires forall i :: 0 <= i < |es| ==> !es[i].FlowEnd?
    ensures var r := Session(submission, args, startError, sendError, h, inbox);
      r.ended &&
      Sents(r.host.wire[|h.wire|..]) == [ClientSubmission(submission)] + Responses(Client(args, true), es)
  {
    var c := Client(args, true);
    var r := Session(submission, args, startError, sendError, h, inbox);
    var k := ExitAt(inbox);
    EventsBeforeExit(inbox, es, m);
    SessionWire(submission, args, startError, sendError, h, inbox);
    var first, middle, last := [Sent(ClientSubmission(submission))], Exchange(c, inbox[..k]), [Recv(inbox[k])];
    SentsAppend(first + middle, last);
    SentsAppend(first, middle);
    SentsOfExchange(c, inbox[..k]);
  }

  /** Every `Args` response of a run hands out the run's own arguments. */
  lemma {:induction false} ArgsAreFixed(c: Client, rs: seq<Received>)
    ensures forall i :: 0 <= i < |Sents(Exchange(c, rs))| && Sents(Exchange(c, rs))[i].Args? ==>
      Sents(Exchange(c, rs))[i].args == c.args
  {
    SentsOfExchange(c, rs);
  }

  /** Every `Args` response a session attempts to send hands out the arguments it was started with. */
  lemma SessionHandsOutArgs(submission: Submission, args: seq<string>,
                            startError: Option<string>, sendError: Option<string>,
                            h: Host, inbox: seq<Received>)
    ensures var r := Session(submission, args, startError, sendError, h, inbox);
      var sent := Sents(r.host.wire[|h.wire|..]);
      forall i :: 0 <= i < |sent| && sent[i].Args? ==> sent[i].args == args
  {
    var r := Session(submission, args, startError, sendError, h, inbox);
    var c := Client(args, true);
    var k := ExitAt(inbox);
    SessionWire(submission, args, startError, sendError, h, inbox);
    var first, middle, last := [Sent(ClientSubmission(submission))], Exchange(c, inbox[..k]),
                               if r.ended then [Recv(inbox[k])] else [];
    SentsAppend(first + middle, last);
    SentsAppend(first, middle);
    ArgsAreFixed(c, inbox[..k]);
  }

  /**
   * A run that receives `FlowStart`, `Stdout("hello")` and `FlowEnd`: the
   * client attempts to send the submission and two `Ack`s, none for the flow end,
   * shows one line of output and reports that the flow ended.
   */
  lemma HelloRun(h: Host, m: Metrics)
    ensures var submission := Submission("file:///tmp/flow/manifest.json", 1);
      var inbox := [Ok(FlowStart), Ok(Stdout("hello")), Ok(FlowEnd(m))];
      var r := Session(submission, ["--x"], None, None, h, inbox);
      r.ended && r.rest == [] &&
      Sents(r.host.wire[|h.wire|..]) == [ClientSubmission(submission), Ack, Ack] &&
      r.host.screen.stdout == h.screen.stdout + "hello\n" &&
      r.host.screen.status == h.screen.status + [FLOW_ENDED]
  {
    var submission := Submission("file:///tmp/flow/manifest.json", 1);
    var inbox: seq<Received> := [Ok(FlowStart), Ok(Stdout("hello")), Ok(FlowEnd(m))];
    var es := [FlowStart, Stdout("hello")];
    assert inbox[1..][1..][1..] == [];
    assert Events(inbox[1..][1..]) == [FlowEnd(m)];
    assert Events(inbox[1..]) == [Stdout("hello"), FlowEnd(m)];
    assert Events(inbox) == es + [FlowEnd(m)];
    SessionResponses(submission, ["--x"], None, None, h, inbox, es, m);
    assert ExitAt(inbox) == 2 by {
      assert ExitAt(inbox[1..][1..]) == 0;
    }
    assert inbox[..2] == [Ok(FlowStart), Ok(Stdout("hello"))];
    assert Events(inbox[..2]) == es by {
      var first := inbox[..2];
      assert first[1..][1..] == [];
      assert Events(first[1..]) == [Stdout("hello")];
    }
    assert StdoutText(es) == "hello\n" by {
      assert es[1..][1..] == [];
    }
    SessionDialogs(submission, ["--x"], None, None, h, inbox);
    SessionStdout(submission, ["--x"], None, None, h, inbox);
  }

  // ---- The transport, the file system and the loop ----------------------------

  /** A `RuntimeClientConnection`. */
  class Connection {
    /** The results the coming receives will give, in order. */
    var pending: seq<Received>
    /** Every send and receive so far, in order. */
    var transcript: seq<Wire>
    var started: bool
    /** What `start` reports, when it fails. */
    const startError: Option<string>
    /** What each `client_send` reports, when it fails. */
    const sendError: Option<string>

    constructor (pending: seq<Received>, startError: Option<string>, sendError: Option<string>)
      ensures this.pending == pending && transcript == [] && !started
      ensures this.startError == startError && this.sendError == sendError
    {
      this.pending := pending;
      transcript := [];
      started := false;
      this.startError := startError;
      this.sendError := sendError;
    }

    method Start() returns (err: Option<string>)
      modifies this`started
      ensures started && err == startError
    {
      started := true;
      err := startError;
    }

    /** `client_send`: the attempt is recorded, whether or not it fails. */
    method ClientSend(r: Response) returns (err: Option<string>)
      modifies this`transcript
      ensures transcript == old(transcript) + [Sent(r)] && err == sendError
    {
      transcript := transcript + [Sent(r)];
      err := sendError;
    }

    /** A receive; the model's transport only receives what it holds. */
    method ClientRecv() returns (r: Received)
      requires pending != []
      modifies this`pending, this`transcript
      ensures r == old(pending)[0] && pending == old(pending)[1..]
      ensures transcript == old(transcript) + [Recv(r)]
    {
      r := pending[0];
      pending := pending[1..];
      transcript := transcript + [Recv(r)];
    }
  }

  /** The files the client can write. */
  class FileSystem {
    var files: map<string, seq<Byte>>

    /** `File::create` then `write_all`: the file now holds exactly the bytes. */
    method CreateAndWrite(name: string, bytes: seq<Byte>)
      modifies this
      ensures files == old(files)[name := bytes]
    {
      files := files[name := bytes];
    }
  }

  /** Carry out an effect on the widgets and the files. */
  method Perform(effect: Effect, refs: WidgetRefs, fs: FileSystem, ghost wire: seq<Wire>)
    modifies refs, fs
    ensures Host(refs.View(), fs.files, wire) == ApplyEffect(Host(old(refs.View()), old(fs.files), wire), effect)
  {
    match effect {
      case NoEffect =>
      case AppendStdout(text) => refs.stdout := refs.stdout + text;
      case AppendStderr(text) => refs.stderr := refs.stderr + text;
      case WriteFile(name, bytes) => fs.CreateAndWrite(name, bytes);
    }
  }

  /** No result before the first flow end ends the flow. */
  lemma NoEndBeforeExit(inbox: seq<Received>, i: nat)
    requires i <= ExitAt(inbox)
    ensures NoEnd(inbox[i..ExitAt(inbox)])
  {
    var k := ExitAt(inbox);
    forall j | 0 <= j < k - i ensures !EndsFlow(inbox[i..k][j]) {
      assert inbox[i..k][j] == inbox[i + j];
    }
  }

  /** One turn of the loop takes the first of the results still to be answered. */
  lemma ReplayTurn(c: Client, inbox: seq<Received>, i: nat, h: Host)
    requires i < ExitAt(inbox)
    ensures NoEnd(inbox[i..ExitAt(inbox)]) && NoEnd(inbox[i + 1..ExitAt(inbox)]) && !EndsFlow(inbox[i])
    ensures Replay(c, inbox[i..ExitAt(inbox)], h) == Replay(c, inbox[i + 1..ExitAt(inbox)], Step(c, h, inbox[i]))
  {
    var k := ExitAt(inbox);
    NoEndBeforeExit(inbox, i);
    NoEndBeforeExit(inbox, i + 1);
    assert inbox[i..k][0] == inbox[i] && inbox[i..k][1..] == inbox[i + 1..k];
  }

  /** The first part of `start`: open the connection and send the submission. */
  method OpenAndSubmit(conn: Connection, submission: Submission, refs: WidgetRefs)
    modifies conn, refs
    ensures conn.started && conn.pending == old(conn.pending)
    ensures conn.transcript == old(conn.transcript) + [Sent(ClientSubmission(submission))]
    ensures refs.View() == Opened(old(refs.View()), conn.startError, conn.sendError)
  {
    var err := conn.Start();
    if err.Some? {
      UIContext.UiError(refs, StartFailedMessage(err.value));
    }
    err := conn.ClientSend(ClientSubmission(submission));
    if err.Some? {
      UIContext.UiError(refs, SubmitFailedMessage(err.value));
    }
  }

  /**
   * One turn of the loop in `start`: receive, handle, and either send the
   * response or, when it is `ClientExiting`, post the end of the flow.
   */
  method HandleNext(conn: Connection, client: Client, refs: WidgetRefs, fs: FileSystem) returns (exiting: bool)
    requires conn.pending != []
    modifies conn, refs, fs
    ensures conn.pending == old(conn.pending)[1..] && conn.started == old(conn.started)
    ensures exiting == EndsFlow(old(conn.pending)[0])
    ensures var before := Host(old(refs.View()), old(fs.files), old(conn.transcript));
      var r := old(conn.pending)[0];
      Host(refs.View(), fs.files, conn.transcript) ==
        if exiting then before.(screen := before.screen.WithStatus(FLOW_ENDED), wire := before.wire + [Recv(r)])
        else Step(client, before, r)
  {
    var received := conn.ClientRecv();
    match received {
      case Ok(event) =>
        var handled := ProcessEvent(client, event);
        Perform(handled.effect, refs, fs, conn.transcript);
        if handled.response == ClientExiting {
          UIContext.Message(refs, FLOW_ENDED);
          return true;
        }
        var _ := conn.ClientSend(handled.response);
      case Err(e) =>
        UIContext.UiError(refs, ReceiveFailedMessage(e));
    }
    return false;
  }

  /**
   * `IDERuntimeClient::start`: open the connection, send the submission and
   * answer events in lock step until one of them makes the client exit.
   * `ended` is false when the connection runs out of results first.
   */
  method Start(conn: Connection, submission: Submission, flowArgs: seq<string>,
               refs: WidgetRefs, fs: FileSystem) returns (ended: bool)
    modifies conn, refs, fs
    ensures conn.started
    ensures var r := Session(submission, flowArgs, conn.startError, conn.sendError,
                             Host(old(refs.View()), old(fs.files), old(conn.transcript)), old(conn.pending));
      ended == r.ended && refs.View() == r.host.screen && fs.files == r.host.files &&
      conn.transcript == r.host.wire && conn.pending == r.rest
  {
    ghost var inbox := conn.pending;
    OpenAndSubmit(conn, submission, refs);
    var client := Client(flowArgs, true);
    ghost var h0 := Host(refs.View(), fs.files, conn.transcript);
    ghost var k := ExitAt(inbox);
    ghost var i := 0;
    NoEndBeforeExit(inbox, 0);
    assert inbox[0..k] == inbox[..k];
    while conn.pending != []
      invariant i <= k && conn.pending == inbox[i..] && conn.started
      invariant NoEnd(inbox[i..k])
      invariant Replay(client, inbox[i..k], Host(refs.View(), fs.files, conn.transcript)) == Replay(client, inbox[..k], h0)
      decreases |conn.pending|
    {
      ghost var before := Host(refs.View(), fs.files, conn.transcript);
      assert inbox[i..][0] == inbox[i];
      var exiting := HandleNext(conn, client, refs, fs);
      if exiting {
        assert i == k;
        return true;
      }
      ReplayTurn(client, inbox, i, before);
      i := i + 1;
    }
    assert inbox[..k] == inbox;
    return false;
  }
}
