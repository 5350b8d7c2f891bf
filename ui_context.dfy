/**
 * The shared UI state: the loaded flow, the compiled manifest and where it
 * lives, and the derived state of the widgets (which menu items are
 * sensitive, which text buffers are cleared, which messages are posted).
 *
 * `State` is the abstract value of a `UIContext` together with its widgets;
 * the functions `AfterSetFlow` and `AfterSetManifest` say what the two
 * setters do to it, and the class methods are proved against them.
 */
module UiContext {
  import opened Wrappers
  import opened Widgets
  import opened Text

  /** The flow loader of the runtime; the context only stores it. */
  datatype Loader = Loader(libraries: seq<string>)

  /**
   * A loaded flow definition.  `pretty` is what `serde_json::to_string_pretty`
   * gives for it: the JSON text, or the serialisation error.
   */
  datatype Flow = Flow(name: string, sourceUrl: string, pretty: Result<string>)

  /**
   * A compiled manifest.  `name` is the flow name in its metadata; `pretty`
   * is what `serde_json::to_string_pretty` gives for it.
   */
  datatype Manifest = Manifest(name: string, pretty: Result<string>)

  /** A `UIContext` together with the widgets it drives. */
  datatype State = State(
    loader: Option<Loader>,
    flow: Option<Flow>,
    manifest: Option<Manifest>,
    manifestUrl: Option<string>,
    screen: Screen)

  /** The status text posted when a flow is stored. */
  function FlowLoadedMessage(f: Flow): string
  {
    "Flow loaded from '" + DebugStr(f.sourceUrl) + "'"
  }

  /** The status text posted when a manifest location is stored. */
  function ManifestAtMessage(url: string): string
  {
    "Compiled flow Manifest at '" + DebugStr(url) + "'"
  }

  function FlowSerialiseError(e: string): string
  {
    "Error serializing flow to toml: `" + e + "`"
  }

  function ManifestSerialiseError(e: string): string
  {
    "Could not convert manifest to Json for display: " + e
  }

  // ---- The widget helpers, on values -------------------------------------

  /** `clear_stdout`. */
  function ClearedStdout(s: Screen): Screen
  {
    s.(stdout := "")
  }

  /**
   * `clear_stderr`.  As written in the program it deletes the contents of
   * the stdout buffer, not of the stderr buffer.
   */
  function ClearedStderr(s: Screen): (r: Screen)
    ensures r.stdout == "" && r.stderr == s.stderr
    ensures r == ClearedStdout(s)
  {
    s.(stdout := "")
  }

  function ClearedManifestText(s: Screen): Screen
  {
    s.(manifestText := "")
  }

  function ClearedFlowText(s: Screen): Screen
  {
    s.(flowText := "")
  }

  /** `set_flow_json_contents`: show the text and select the graph page, or clear. */
  function FlowJsonShown(s: Screen, content: Option<string>): Screen
  {
    match content
    case Some(text) => s.(flowText := text, page := FLOW_GRAPH_PAGE)
    case None => ClearedFlowText(s)
  }

  /** `set_manifest_contents`: show the text and select the manifest page, or clear. */
  function ManifestShown(s: Screen, content: Option<string>): Screen
  {
    match content
    case Some(text) => s.(manifestText := text, page := MANIFEST_PAGE)
    case None => ClearedManifestText(s)
  }

  /** `enable_manifest_run`. */
  function RunEnabled(s: Screen, enable: bool): Screen
  {
    s.(runEnabled := enable)
  }

  /** `clear_pre_run`: `clear_stdout` then `clear_stderr`. */
  function ClearedPreRun(s: Screen): (r: Screen)
    ensures r == s.(stdout := "")
  {
    ClearedStderr(ClearedStdout(s))
  }

  // ---- The two setters, on values ---------------------------------------

  /** What `set_flow(flow)` does to the context and its widgets. */
  function AfterSetFlow(st: State, flow: Option<Flow>): (r: State)
    // the flow is stored as given; nothing else in the context changes
    ensures r.flow == flow
    ensures r.loader == st.loader && r.manifest == st.manifest && r.manifestUrl == st.manifestUrl
    // compiling is possible exactly when a flow is loaded
    ensures r.screen.compileEnabled <==> flow.Some?
    ensures r.screen.runEnabled == st.screen.runEnabled
    ensures r.screen.stderr == st.screen.stderr
    ensures r.screen.argsText == st.screen.argsText && r.screen.log == st.screen.log
    // a status message is posted exactly when a flow is stored
    ensures flow.Some? ==> r.screen.status == st.screen.status + [FlowLoadedMessage(flow.value)]
    ensures flow.None? ==> r.screen.status == st.screen.status
    // storing a flow clears the manifest text and the stdout buffer
    ensures flow.Some? ==> r.screen.manifestText == "" && r.screen.stdout == ""
    // its JSON text is shown, or, when serialisation fails, one error is raised and the text is cleared
    ensures flow.Some? && flow.value.pretty.Ok? ==>
      r.screen.flowText == flow.value.pretty.value && r.screen.page == FLOW_GRAPH_PAGE &&
      r.screen.errors == st.screen.errors
    ensures flow.Some? && flow.value.pretty.Err? ==>
      r.screen.flowText == "" && r.screen.page == st.screen.page &&
      r.screen.errors == st.screen.errors + [FlowSerialiseError(flow.value.pretty.error)]
    // clearing the flow disables compiling and clears the flow text, and nothing else
    ensures flow.None? ==> r.screen == st.screen.(compileEnabled := false, flowText := "")
  {
    match flow
    case Some(f) =>
      var posted := st.screen.WithStatus(FlowLoadedMessage(f));
      var cleared := ClearedStderr(ClearedStdout(ClearedManifestText(posted.(compileEnabled := true))));
      var shown :=
        match f.pretty
        case Ok(text) => FlowJsonShown(cleared, Some(text))
        case Err(e) => FlowJsonShown(cleared.WithError(FlowSerialiseError(e)), None);
      st.(flow := flow, screen := shown)
    case None =>
      st.(flow := None, screen := FlowJsonShown(st.screen.(compileEnabled := false), None))
  }

  /** What `set_manifest(url, manifest)` does to the context and its widgets. */
  function AfterSetManifest(st: State, url: Option<string>, manifest: Option<Manifest>): (r: State)
    // both values are stored exactly as given; the flow and loader are untouched
    ensures r.manifestUrl == url && r.manifest == manifest
    ensures r.flow == st.flow && r.loader == st.loader
    // a status message is posted exactly when a location is given
    ensures url.Some? ==> r.screen.status == st.screen.status + [ManifestAtMessage(url.value)]
    ensures url.None? ==> r.screen.status == st.screen.status
    // running is possible exactly when a manifest is stored
    ensures r.screen.runEnabled <==> manifest.Some?
    ensures r.screen.compileEnabled == st.screen.compileEnabled
    ensures r.screen.flowText == st.screen.flowText && r.screen.stderr == st.screen.stderr
    ensures r.screen.argsText == st.screen.argsText && r.screen.log == st.screen.log
    ensures manifest.Some? ==> r.screen.stdout == ""
    ensures manifest.Some? && manifest.value.pretty.Ok? ==>
      r.screen.manifestText == manifest.value.pretty.value && r.screen.page == MANIFEST_PAGE &&
      r.screen.errors == st.screen.errors
    ensures manifest.Some? && manifest.value.pretty.Err? ==>
      r.screen.manifestText == "" && r.screen.page == st.screen.page &&
      r.screen.errors == st.screen.errors + [ManifestSerialiseError(manifest.value.pretty.error)]
    // storing no manifest clears its text and leaves the console buffers alone
    ensures manifest.None? ==>
      r.screen.manifestText == "" && r.screen.stdout == st.screen.stdout &&
      r.screen.page == st.screen.page && r.screen.errors == st.screen.errors
  {
    var posted := if url.Some? then st.screen.WithStatus(ManifestAtMessage(url.value)) else st.screen;
    var shown :=
      match manifest
      case Some(m) =>
        var cleared := ClearedStderr(ClearedStdout(RunEnabled(posted, true)));
        (match m.pretty
         case Ok(text) => ManifestShown(cleared, Some(text))
         case Err(e) => ManifestShown(cleared, None).WithError(ManifestSerialiseError(e)))
      case None => ManifestShown(RunEnabled(posted, false), None);
    st.(manifestUrl := url, manifest := manifest, screen := shown)
  }

  /** A manifest location and a manifest are stored together or not at all. */
  predicate Paired(st: State)
  {
    st.manifestUrl.Some? <==> st.manifest.Some?
  }

  // ---- Properties of the setters ----------------------------------------

  /** Clearing the flow twice leaves the same state as clearing it once. */
  lemma SetFlowNoneIdempotent(st: State)
    ensures AfterSetFlow(AfterSetFlow(st, None), None) == AfterSetFlow(st, None)
  {
  }

  /** Clearing the manifest twice leaves the same state as clearing it once. */
  lemma SetManifestNoneIdempotent(st: State)
    ensures AfterSetManifest(AfterSetManifest(st, None, None), None, None) == AfterSetManifest(st, None, None)
  {
  }

  /**
   * Storing the same location and manifest again, after more status
   * messages, leaves every widget as the first time and only posts the
   * announcement and any serialisation dialog once more.
   */
  lemma SetManifestAgain(p: State, url: string, m: Manifest, msgs: seq<string>)
    ensures var r1 := AfterSetManifest(p, Some(url), Some(m));
      var r2 := AfterSetManifest(r1.(screen := r1.screen.(status := r1.screen.status + msgs)), Some(url), Some(m));
      |r1.screen.errors| >= |p.screen.errors| &&
      r2 == r1.(screen := r1.screen.(status := r1.screen.status + msgs + [ManifestAtMessage(url)],
                                     errors := r1.screen.errors + r1.screen.errors[|p.screen.errors|..]))
  {
    var r1 := AfterSetManifest(p, Some(url), Some(m));
    var q := r1.(screen := r1.screen.(status := r1.screen.status + msgs));
    var r2 := AfterSetManifest(q, Some(url), Some(m));
    var want := r1.(screen := r1.screen.(status := r1.screen.status + msgs + [ManifestAtMessage(url)],
                                         errors := r1.screen.errors + r1.screen.errors[|p.screen.errors|..]));
    assert r2.screen.status == want.screen.status;
    if m.pretty.Err? {
      assert r1.screen.errors[|p.screen.errors|..] == [ManifestSerialiseError(m.pretty.error)];
    } else {
      assert r1.screen.errors[|p.screen.errors|..] == [];
    }
    assert r2.screen == want.screen;
  }

  /** Storing a flow, storing both a location and a manifest, or clearing both keeps the context paired. */
  lemma SettersKeepPaired(st: State, flow: Option<Flow>, url: string, m: Manifest)
    requires Paired(st)
    ensures Paired(AfterSetFlow(st, flow))
    ensures Paired(AfterSetManifest(st, Some(url), Some(m)))
    ensures Paired(AfterSetManifest(st, None, None))
  {
  }

  /** The one-step change a setter makes to the manifest fields of a context. */
  datatype Setter = SetFlow(flow: Option<Flow>) | SetManifest(url: Option<string>, manifest: Option<Manifest>) | ClearPreRun

  function Apply(st: State, ops: seq<Setter>): State
    decreases |ops|
  {
    if ops == [] then st
    else
      var next :=
        match ops[0]
        case SetFlow(f) => AfterSetFlow(st, f)
        case SetManifest(u, m) => AfterSetManifest(st, u, m)
        case ClearPreRun => st.(screen := ClearedPreRun(st.screen));
      Apply(next, ops[1..])
  }

  /**
   * Because `clear_stderr` clears the stdout buffer, no sequence of
   * `set_flow`, `set_manifest` and `clear_pre_run` calls ever changes the
   * stderr buffer.
   */
  lemma {:induction false} StderrNeverCleared(st: State, ops: seq<Setter>)
    ensures Apply(st, ops).screen.stderr == st.screen.stderr
    decreases |ops|
  {
    if ops != [] {
      var next :=
        match ops[0]
        case SetFlow(f) => AfterSetFlow(st, f)
        case SetManifest(u, m) => AfterSetManifest(st, u, m)
        case ClearPreRun => st.(screen := ClearedPreRun(st.screen));
      StderrNeverCleared(next, ops[1..]);
    }
  }

  // ---- The context object -------------------------------------------------

  class UIContext {
    var loader: Option<Loader>
    var flow: Option<Flow>
    var manifest: Option<Manifest>
    var manifestUrl: Option<string>
    /** The widget storage that `do_in_gtk_eventloop` hands to its closures. */
    const refs: WidgetRefs

    function View(): State
      reads this, refs
    {
      State(loader, flow, manifest, manifestUrl, refs.View())
    }

    /** `UIContext::new`: nothing loaded. */
    constructor (refs: WidgetRefs)
      ensures this.refs == refs
      ensures loader == None && flow == None && manifest == None && manifestUrl == None
    {
      this.refs := refs;
      loader, flow, manifest, manifestUrl := None, None, None, None;
    }

    /** `set_flow`. */
    method SetFlow(flow: Option<Flow>)
      modifies this, refs
      ensures View() == AfterSetFlow(old(View()), flow)
    {
      this.flow := flow;
      if flow.Some? {
        Message(refs, FlowLoadedMessage(flow.value));
      }
      match flow {
        case Some(f) =>
          refs.compileEnabled := true;
          ClearManifestContents(refs);
          ClearStdout(refs);
          ClearStderr(refs);
          match f.pretty {
            case Ok(text) =>
              SetFlowJsonContents(refs, Some(text));
            case Err(e) =>
              UiError(refs, FlowSerialiseError(e));
              SetFlowJsonContents(refs, None);
          }
        case None =>
          refs.compileEnabled := false;
          SetFlowJsonContents(refs, None);
      }
    }

    /** `set_manifest`. */
    method SetManifest(url: Option<string>, manifest: Option<Manifest>)
      modifies this, refs
      ensures View() == AfterSetManifest(old(View()), url, manifest)
    {
      manifestUrl := url;
      this.manifest := manifest;
      if url.Some? {
        Message(refs, ManifestAtMessage(url.value));
      }
      match manifest {
        case Some(m) =>
          EnableManifestRun(refs, true);
          ClearStdout(refs);
          ClearStderr(refs);
          match m.pretty {
            case Ok(text) =>
              SetManifestContents(refs, Some(text));
            case Err(e) =>
              SetManifestContents(refs, None);
              UiError(refs, ManifestSerialiseError(e));
          }
        case None =>
          EnableManifestRun(refs, false);
          SetManifestContents(refs, None);
      }
    }

    static method SetFlowJsonContents(refs: WidgetRefs, content: Option<string>)
      modifies refs
      ensures refs.View() == FlowJsonShown(old(refs.View()), content)
    {
      match content {
        case Some(text) =>
          refs.flowText := text;
          refs.page := FLOW_GRAPH_PAGE;
        case None =>
          ClearFlowJsonContents(refs);
      }
    }

    static method EnableManifestRun(refs: WidgetRefs, enable: bool)
      modifies refs
      ensures refs.View() == RunEnabled(old(refs.View()), enable)
    {
      refs.runEnabled := enable;
    }

    static method SetManifestContents(refs: WidgetRefs, content: Option<string>)
      modifies refs
      ensures refs.View() == ManifestShown(old(refs.View()), content)
    {
      match content {
        case Some(text) =>
          refs.manifestText := text;
          refs.page := MANIFEST_PAGE;
        case None =>
          ClearManifestContents(refs);
      }
    }

    static method ClearFlowJsonContents(refs: WidgetRefs)
      modifies refs
      ensures refs.View() == ClearedFlowText(old(refs.View()))
    {
      refs.flowText := "";
    }

    static method ClearManifestContents(refs: WidgetRefs)
      modifies refs
      ensures refs.View() == ClearedManifestText(old(refs.View()))
    {
      refs.manifestText := "";
    }

    static method ClearStdout(refs: WidgetRefs)
      modifies refs
      ensures refs.View() == ClearedStdout(old(refs.View()))
    {
      refs.stdout := "";
    }

    /** Deletes the contents of the stdout buffer, as the program does. */
    static method ClearStderr(refs: WidgetRefs)
      modifies refs
      ensures refs.View() == ClearedStderr(old(refs.View()))
    {
      refs.stdout := "";
    }

    static method ClearPreRun(refs: WidgetRefs)
      modifies refs
      ensures refs.View() == ClearedPreRun(old(refs.View()))
    {
      ClearStdout(refs);
      ClearStderr(refs);
    }

    /** `ui_error`: raise a modal error dialog. */
    static method UiError(refs: WidgetRefs, message: string)
      modifies refs
      ensures refs.View() == old(refs.View()).WithError(message)
    {
      refs.errors := refs.errors + [message];
    }

    /** `message`: put a text on the status label. */
    static method Message(refs: WidgetRefs, message: string)
      modifies refs
      ensures refs.View() == old(refs.View()).WithStatus(message)
    {
      refs.status := refs.status + [message];
    }

    /** `log_error`: write a line on the console. */
    static method LogError(refs: WidgetRefs, message: string)
      modifies refs
      ensures refs.View() == old(refs.View()).WithLog(message)
    {
      refs.log := refs.log + [message];
    }
  }
}
