/**
 * What `build_ui.rs` does with flow arguments: `build_ui` writes the
 * command-line arguments into the args buffer, and the run menu item's
 * handler (`run_action`) reads that buffer back into an argument list,
 * puts the flow's name in front of it and hands it to `run_manifest`.
 */
module BuildUi {
  import opened Wrappers
  import opened Widgets
  import opened Text
  import opened UiContext
  import opened RuntimeClient
  import opened Actions

  const RUN_ACTION_NO_CONTEXT := "Could not get access to uicontext"

  /**
   * The argument list `run_action` reads from the args text: none when the
   * text is blank, otherwise the pieces between single spaces.
   */
  function ArgsFromText(text: string): (r: seq<string>)
    // there are no arguments exactly when the text is all white space
    ensures r == [] <==> IsBlank(text)
    // otherwise they are all of the text, cut at every space: two spaces in a row give an
    // empty argument, and none of them holds a space
    ensures r != [] ==> Join(r, " ") == text && |r| == Count(text, ' ') + 1
    ensures forall i :: 0 <= i < |r| ==> ' ' !in r[i]
  {
    if Trim(text) == "" then [] else Split(text, ' ')
  }

  /** Two spaces in a row give an empty argument between them. */
  lemma AdjacentSpacesGiveEmptyArgument()
    ensures ArgsFromText("a  b") == ["a", "", "b"]
  {
    var parts := ["a", "", "b"];
    assert parts[1..][1..] == ["b"];
    assert Join(parts[1..], " ") == "" + " " + "b";
    assert Join(parts, " ") == "a" + " " + Join(parts[1..], " ");
    assert Join(parts, " ") == "a  b";
    SplitJoin(parts, ' ');
    assert !IsWhitespace("a  b"[0]);
  }

  /** An argument that holds a space comes back as two. */
  lemma SpacedArgumentComesBackSplit()
    ensures ArgsFromText(Join(["a b"], " ")) == ["a", "b"]
  {
    var parts := ["a", "b"];
    assert Join(["a b"], " ") == "a b";
    assert parts[1..] == ["b"];
    assert Join(parts, " ") == "a" + " " + "b" == "a b";
    SplitJoin(parts, ' ');
    assert !IsWhitespace("a b"[0]);
  }

  /** `run_action`'s handler, on values: `h.screen.argsText` is the args buffer. */
  function AfterRunAction(manifestUrl: Option<string>, manifest: Option<Manifest>,
                          lockAcquired: bool, runLockAcquired: bool, connectError: Option<string>,
                          startError: Option<string>, sendError: Option<string>,
                          h: Host, inbox: seq<Received>): (r: Run)
    // the manifest is unwrapped whenever a location is stored
    requires lockAcquired && manifestUrl.Some? ==> manifest.Some?
    // without the lock it only logs
    ensures !lockAcquired ==> r == Run(false, h.(screen := h.screen.WithLog(RUN_ACTION_NO_CONTEXT)), inbox)
    // with no manifest location nothing runs and one error is raised
    ensures lockAcquired && manifestUrl.None? ==>
      r == Run(false, h.(screen := h.screen.WithError(NO_MANIFEST_TO_RUN)), inbox)
    // with one, `run_manifest` gets the flow's name followed by the arguments in the buffer
    ensures lockAcquired && manifestUrl.Some? ==>
      r == AfterRunManifest(manifestUrl, [manifest.value.name] + ArgsFromText(h.screen.argsText), runLockAcquired,
                            connectError, startError, sendError, h, inbox)
    // either way, something is sent only when a run was started
    ensures r.host.wire != h.wire ==> lockAcquired && manifestUrl.Some? && runLockAcquired && connectError.None?
  {
    var args := ArgsFromText(h.screen.argsText);
    if !lockAcquired then Run(false, h.(screen := h.screen.WithLog(RUN_ACTION_NO_CONTEXT)), inbox)
    else
      match manifestUrl
      case None => Run(false, h.(screen := h.screen.WithError(NO_MANIFEST_TO_RUN)), inbox)
      case Some(_) =>
        AfterRunManifest(manifestUrl, [manifest.value.name] + args, runLockAcquired,
                         connectError, startError, sendError, h, inbox)
  }

  /**
   * When the run connects, it is announced with the flow's name followed by
   * the arguments in the buffer, one more than those, before anything else
   * reaches the status label.
   */
  lemma RunAnnouncesBufferArgs(url: string, manifest: Manifest,
                               startError: Option<string>, sendError: Option<string>,
                               h: Host, inbox: seq<Received>)
    ensures var args := [manifest.name] + ArgsFromText(h.screen.argsText);
      var r := AfterRunAction(Some(url), Some(manifest), true, true, None, startError, sendError, h, inbox);
      |args| == |ArgsFromText(h.screen.argsText)| + 1 &&
      |r.host.screen.status| > |h.screen.status| && r.host.screen.status[|h.screen.status|] == SubmittingMessage(args)
  {
    var args := [manifest.name] + ArgsFromText(h.screen.argsText);
    ConnectedRunStarts(url, args, startError, sendError, h, inbox);
  }

  /**
   * Every `GetArgs` request of that run is answered with the same list:
   * the flow's name followed by the arguments in the buffer.
   */
  lemma FlowSeesBufferArgs(url: string, manifest: Manifest,
                           startError: Option<string>, sendError: Option<string>,
                           h: Host, inbox: seq<Received>)
    ensures var args := [manifest.name] + ArgsFromText(h.screen.argsText);
      var r := AfterRunAction(Some(url), Some(manifest), true, true, None, startError, sendError, h, inbox);
      var sent := Sents(r.host.wire[|h.wire|..]);
      forall i :: 0 <= i < |sent| && sent[i].Args? ==> sent[i].args == args
  {
    var args := [manifest.name] + ArgsFromText(h.screen.argsText);
    var prepared := Prepared(h, args);
    var r := AfterRunAction(Some(url), Some(manifest), true, true, None, startError, sendError, h, inbox);
    assert r == Session(Submission(url, 1), args, startError, sendError, prepared, inbox) by {
      assert Connects(Some(url), true, None);
    }
    assert prepared.wire == h.wire;
    SessionHandsOutArgs(Submission(url, 1), args, startError, sendError, prepared, inbox);
  }

  /** `run_action`'s handler. */
  method RunAction(ctx: UIContext, lockAcquired: bool, runLockAcquired: bool, connectError: Option<string>,
                   conn: Connection, fs: FileSystem)
    requires lockAcquired && ctx.manifestUrl.Some? ==> ctx.manifest.Some?
    modifies ctx.refs, conn, fs
    ensures var r := AfterRunAction(ctx.manifestUrl, ctx.manifest, lockAcquired, runLockAcquired, connectError,
                                    conn.startError, conn.sendError,
                                    Host(old(ctx.refs.View()), old(fs.files), old(conn.transcript)), old(conn.pending));
      ctx.refs.View() == r.host.screen && fs.files == r.host.files &&
      conn.transcript == r.host.wire && conn.pending == r.rest
  {
    if !lockAcquired {
      UIContext.LogError(ctx.refs, RUN_ACTION_NO_CONTEXT);
    } else {
      RunLocked(ctx, runLockAcquired, connectError, conn, fs);
    }
  }

  /** `run_action`'s handler once the context is locked: the `match` on the manifest location. */
  method RunLocked(ctx: UIContext, runLockAcquired: bool, connectError: Option<string>,
                   conn: Connection, fs: FileSystem)
    requires ctx.manifestUrl.Some? ==> ctx.manifest.Some?
    modifies ctx.refs, conn, fs
    ensures var r := AfterRunAction(ctx.manifestUrl, ctx.manifest, true, runLockAcquired, connectError,
                                    conn.startError, conn.sendError,
                                    Host(old(ctx.refs.View()), old(fs.files), old(conn.transcript)), old(conn.pending));
      ctx.refs.View() == r.host.screen && fs.files == r.host.files &&
      conn.transcript == r.host.wire && conn.pending == r.rest
  {
    var args := ArgsFromText(ctx.refs.argsText);
    if ctx.manifestUrl.None? {
      UIContext.UiError(ctx.refs, NO_MANIFEST_TO_RUN);
    } else {
      RunWithName(ctx, args, runLockAcquired, connectError, conn, fs);
    }
  }

  /** The last lines of `run_action`'s handler, once a manifest is stored: the flow's name goes at index zero. */
  method RunWithName(ctx: UIContext, args: seq<string>, runLockAcquired: bool, connectError: Option<string>,
                     conn: Connection, fs: FileSystem)
    requires ctx.manifestUrl.Some? && ctx.manifest.Some?
    requires args == ArgsFromText(ctx.refs.argsText)
    modifies ctx.refs, conn, fs
    ensures var r := AfterRunAction(ctx.manifestUrl, ctx.manifest, true, runLockAcquired, connectError,
                                    conn.startError, conn.sendError,
                                    Host(old(ctx.refs.View()), old(fs.files), old(conn.transcript)), old(conn.pending));
      ctx.refs.View() == r.host.screen && fs.files == r.host.files &&
      conn.transcript == r.host.wire && conn.pending == r.rest
  {
    RunManifest(ctx, [ctx.manifest.value.name] + args, runLockAcquired, connectError, conn, fs);
  }

  /** The args buffer after `build_ui`: the arguments joined by spaces, if there are any. */
  function WithFlowArgs(s: Screen, flowArgs: seq<string>): (r: Screen)
    // nothing but the args text changes, and that only when there are arguments
    ensures r == s.(argsText := r.argsText)
    ensures flowArgs == [] ==> r.argsText == s.argsText
    ensures flowArgs != [] ==> r.argsText == Join(flowArgs, " ")
  {
    if flowArgs != [] then s.(argsText := Join(flowArgs, " ")) else s
  }

  /** The args-buffer lines of `build_ui`. */
  method InitArgsBuffer(refs: WidgetRefs, flowArgs: seq<string>)
    modifies refs
    ensures refs.View() == WithFlowArgs(old(refs.View()), flowArgs)
  {
    if flowArgs != [] {
      refs.argsText := Join(flowArgs, " ");
    }
  }

  /**
   * Starting from an empty buffer, the arguments `build_ui` writes are read
   * back by `run_action` unchanged, as long as none of them holds a space
   * and together they are not all white space.
   */
  lemma {:induction false} FlowArgsRoundTrip(s: Screen, flowArgs: seq<string>)
    requires s.argsText == ""
    requires forall i :: 0 <= i < |flowArgs| ==> ' ' !in flowArgs[i]
    requires flowArgs != [] ==> !IsBlank(Join(flowArgs, " "))
    ensures ArgsFromText(WithFlowArgs(s, flowArgs).argsText) == flowArgs
  {
    if flowArgs != [] {
      SplitJoin(flowArgs, ' ');
    }
  }
}
