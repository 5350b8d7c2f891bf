/**
 * The background actions of `actions.rs`.  Each one runs on its own thread
 * in the program; here it runs to completion when called.  What the
 * compiler, the loader and the coordinator report are inputs, and so is
 * whether the shared context could be locked.  Each action is a function
 * on values (`AfterCompileFlow`, `AfterOpenFlow`, `AfterOpenManifest`,
 * `AfterRunManifest`) and a method on the context object proved to follow it.
 */
module Actions {
  import opened Wrappers
  import opened Widgets
  import opened Text
  import opened UiContext
  import opened RuntimeClient
  import Urls

  /** `flowrstructs::manifest::DEFAULT_MANIFEST_FILENAME`. */
  const DEFAULT_MANIFEST_FILENAME := "manifest"

  /** The relative reference resolved against the flow's location. */
  const MANIFEST_FILE := DEFAULT_MANIFEST_FILENAME + ".json"

  lemma ManifestFileIsSegment()
    ensures Urls.IsSegment(MANIFEST_FILE)
  {
    assert MANIFEST_FILE == "manifest.json";
  }

  /**
   * `Url::parse(flow_url)` then `.join("manifest.json")`, for the URL forms
   * `Urls.Parse` reads; `None` stands for a panic of either `unwrap`.
   */
  function ManifestUrlFor(flowUrl: string): (r: Option<string>)
    // no URL when the flow's location does not parse or has no directory to resolve in
    ensures r.Some? <==> Urls.Parse(flowUrl).Some? && Urls.CanBeBase(Urls.Parse(flowUrl).value)
    // the manifest sits in the flow's directory, under the same scheme and authority
    ensures r.Some? ==>
      var b := Urls.Parse(flowUrl).value;
      Urls.Parse(r.value) == Some(Urls.Url(b.scheme, b.authority, Urls.Merge(b, MANIFEST_FILE), None, None))
  {
    ManifestFileIsSegment();
    Urls.JoinSegment(flowUrl, MANIFEST_FILE)
  }

  lemma FileIsScheme()
    ensures Urls.IsScheme("file")
  {
    assert Urls.IsAlpha('f') && Urls.IsSchemeChar('i') && Urls.IsSchemeChar('l') && Urls.IsSchemeChar('e');
  }

  /**
   * The manifest of a flow read from a file is written beside that file:
   * joining "manifest.json" against the URL of "<dir><name>" replaces the
   * file name (and each URL writes out as "file://" and its path).
   */
  lemma FileManifestBesideFlow(dir: string, name: string)
    requires |dir| > 0 && dir[0] == '/' && dir[|dir| - 1] == '/' && '?' !in dir && '#' !in dir
    requires Urls.IsSegment(name)
    ensures ManifestUrlFor(Urls.Serialize(Urls.Url("file", Some(""), dir + name, None, None))) ==
            Some(Urls.Serialize(Urls.Url("file", Some(""), dir + MANIFEST_FILE, None, None)))
  {
    var flow := Urls.Url("file", Some(""), dir + name, None, None);
    FileFlowUrl(dir, name);
    ManifestFileIsSegment();
    Urls.JoinSerialized(flow, MANIFEST_FILE);
  }

  /** A flow file's URL can be a base, and "manifest.json" resolves in the same directory. */
  lemma FileFlowUrl(dir: string, name: string)
    requires |dir| > 0 && dir[0] == '/' && dir[|dir| - 1] == '/' && '?' !in dir && '#' !in dir
    requires Urls.IsSegment(name)
    ensures var flow := Urls.Url("file", Some(""), dir + name, None, None);
      Urls.WellFormed(flow) && Urls.CanBeBase(flow) &&
      Urls.Resolved(flow, MANIFEST_FILE) == Urls.Url("file", Some(""), dir + MANIFEST_FILE, None, None)
  {
    FileIsScheme();
    assert (dir + name)[0] == '/';
    Urls.DirectoryOfAppend(dir, name);
  }

  /** A manifest written once is found again by resolving from its own location. */
  lemma ManifestUrlStable(flowUrl: string)
    requires ManifestUrlFor(flowUrl).Some?
    ensures ManifestUrlFor(ManifestUrlFor(flowUrl).value) == ManifestUrlFor(flowUrl)
  {
    ManifestFileIsSegment();
    Urls.JoinSegmentIdempotent(flowUrl, MANIFEST_FILE);
  }

  // ---- compile_flow -----------------------------------------------------------

  const COMPILING_FLOW := "Compiling flow"
  const COMPILING_IMPLEMENTATIONS := "Compiling provided implementations"
  const MANIFEST_CREATION_FAILED := "Creation of flow manifest failed"
  const NO_FLOW_TO_COMPILE := "No flow loaded to compile"
  const COMPILATION_FAILED := "Flow compilation failed"
  const COMPILE_NO_CONTEXT := "Could not access ui context"

  function CreatingManifestMessage(url: string): string
  {
    "Creating flow manifest at: " + url
  }

  /**
   * What the foreign steps of `compile_flow` report: `compile::compile`,
   * `compile_supplied_implementations` (its message on success) and
   * `generate::create_manifest`.
   */
  datatype CompileReport = CompileReport(compiled: Result<()>, implemented: Result<string>, created: Result<Manifest>)

  /** Every step of `compile_flow` succeeds, so it stores a manifest. */
  predicate CompileSucceeds(st: State, lockAcquired: bool, rep: CompileReport)
  {
    lockAcquired && st.flow.Some? && rep.compiled.Ok? && rep.implemented.Ok? &&
    ManifestUrlFor(st.flow.value.sourceUrl).Some? && rep.created.Ok?
  }

  /** `compile_flow`, on values. */
  function AfterCompileFlow(st: State, lockAcquired: bool, rep: CompileReport): (r: State)
    // it never changes the flow or the loader
    ensures r.flow == st.flow && r.loader == st.loader
    // without the lock it only logs
    ensures !lockAcquired ==> r == st.(screen := st.screen.WithLog(COMPILE_NO_CONTEXT))
    // with nothing to compile it raises an error and says so on the status label
    ensures lockAcquired && st.flow.None? ==>
      r == st.(screen := st.screen.WithError(NO_FLOW_TO_COMPILE).WithStatus(COMPILATION_FAILED))
  {
    if !lockAcquired then st.(screen := st.screen.WithLog(COMPILE_NO_CONTEXT))
    else
      match st.flow
      case None => st.(screen := st.screen.WithError(NO_FLOW_TO_COMPILE).WithStatus(COMPILATION_FAILED))
      case Some(flow) =>
        var compiling := st.screen.WithStatus(COMPILING_FLOW);
        match rep.compiled
        case Err(e) => st.(screen := compiling.WithError(e))
        case Ok(_) =>
          var implementing := compiling.WithStatus(COMPILING_IMPLEMENTATIONS);
          match rep.implemented
          case Err(e) => st.(screen := implementing.WithError(e))
          case Ok(result) =>
            var implemented := implementing.WithStatus(result);
            match ManifestUrlFor(flow.sourceUrl)
            case None => st.(screen := implemented)
            case Some(url) =>
              var creating := implemented.WithStatus(CreatingManifestMessage(url));
              match rep.created
              case Ok(manifest) => AfterSetManifest(st.(screen := creating), Some(url), Some(manifest))
              case Err(e) => st.(screen := creating.WithError(e).WithStatus(MANIFEST_CREATION_FAILED))
  }

  /**
   * All or nothing, first half: when every step succeeds the manifest is
   * stored, and its location is the flow's own, resolved against
   * "manifest.json".  The result is `set_manifest` of both after the four
   * progress messages: Run is enabled, stdout is cleared, and the manifest's
   * text is shown on its page (or, when it cannot be serialised, its text is
   * cleared and the error raised).
   */
  lemma CompileStores(st: State, lockAcquired: bool, rep: CompileReport)
    requires CompileSucceeds(st, lockAcquired, rep)
    ensures var r := AfterCompileFlow(st, lockAcquired, rep);
      r.manifestUrl == ManifestUrlFor(st.flow.value.sourceUrl) && r.manifest == Some(rep.created.value)
    ensures var url := ManifestUrlFor(st.flow.value.sourceUrl).value;
      AfterCompileFlow(st, lockAcquired, rep) ==
      AfterSetManifest(st.(screen := CompileProgress(st, rep, url)), Some(url), Some(rep.created.value))
    ensures var r := AfterCompileFlow(st, lockAcquired, rep);
      r.screen.runEnabled && r.screen.stdout == "" && r.screen.stderr == st.screen.stderr &&
      r.screen.flowText == st.screen.flowText && r.screen.argsText == st.screen.argsText &&
      r.screen.compileEnabled == st.screen.compileEnabled && r.screen.log == st.screen.log
    ensures var r := AfterCompileFlow(st, lockAcquired, rep);
      rep.created.value.pretty.Ok? ==>
        r.screen.manifestText == rep.created.value.pretty.value && r.screen.page == MANIFEST_PAGE &&
        r.screen.errors == st.screen.errors
    ensures var r := AfterCompileFlow(st, lockAcquired, rep);
      rep.created.value.pretty.Err? ==>
        r.screen.manifestText == "" && r.screen.page == st.screen.page &&
        r.screen.errors == st.screen.errors + [ManifestSerialiseError(rep.created.value.pretty.error)]
  {
    var url := ManifestUrlFor(st.flow.value.sourceUrl).value;
    var progress := st.(screen := CompileProgress(st, rep, url));
    assert AfterCompileFlow(st, lockAcquired, rep) == AfterSetManifest(progress, Some(url), Some(rep.created.value));
  }

  /**
   * Second half: when any step fails, the manifest and its location stay as
   * they were and only messages, dialogs and log lines are added.
   */
  lemma CompileFailureKeeps(st: State, lockAcquired: bool, rep: CompileReport)
    requires !CompileSucceeds(st, lockAcquired, rep)
    ensures var r := AfterCompileFlow(st, lockAcquired, rep);
      r.manifestUrl == st.manifestUrl && r.manifest == st.manifest &&
      r.screen == st.screen.(status := r.screen.status, errors := r.screen.errors, log := r.screen.log)
  {
    var r := AfterCompileFlow(st, lockAcquired, rep);
    if lockAcquired && st.flow.Some? && rep.compiled.Ok? && rep.implemented.Ok? {
      var url := ManifestUrlFor(st.flow.value.sourceUrl);
      if url.Some? {
        assert rep.created.Err?;
        assert r == st.(screen := CompileProgress(st, rep, url.value).WithError(rep.created.error)
                                    .WithStatus(MANIFEST_CREATION_FAILED));
      }
    }
  }

  /**
   * The progress messages of `compile_flow` up to a step that fails: each
   * appears only once the step before it has succeeded, and the failing
   * step raises its own error (none when the location cannot be resolved,
   * where the thread stops).
   */
  lemma CompileStopsEarly(st: State, rep: CompileReport)
    requires st.flow.Some?
    ensures rep.compiled.Err? ==>
      var r := AfterCompileFlow(st, true, rep);
      r.screen.status == st.screen.status + [COMPILING_FLOW] &&
      r.screen.errors == st.screen.errors + [rep.compiled.error]
    ensures rep.compiled.Ok? && rep.implemented.Err? ==>
      var r := AfterCompileFlow(st, true, rep);
      r.screen.status == st.screen.status + [COMPILING_FLOW, COMPILING_IMPLEMENTATIONS] &&
      r.screen.errors == st.screen.errors + [rep.implemented.error]
    ensures rep.compiled.Ok? && rep.implemented.Ok? && ManifestUrlFor(st.flow.value.sourceUrl).None? ==>
      var r := AfterCompileFlow(st, true, rep);
      r.screen.status == st.screen.status + [COMPILING_FLOW, COMPILING_IMPLEMENTATIONS, rep.implemented.value] &&
      r.screen.errors == st.screen.errors
  {
  }

  /** The status label once the location is resolved: the four progress messages. */
  function CompileProgress(st: State, rep: CompileReport, url: string): (s: Screen)
    requires rep.implemented.Ok?
    ensures s == st.screen.(status := s.status)
    ensures s.status == st.screen.status +
      [COMPILING_FLOW, COMPILING_IMPLEMENTATIONS, rep.implemented.value, CreatingManifestMessage(url)]
  {
    st.screen.WithStatus(COMPILING_FLOW).WithStatus(COMPILING_IMPLEMENTATIONS)
      .WithStatus(rep.implemented.value).WithStatus(CreatingManifestMessage(url))
  }

  /**
   * Once the location is resolved, "Creating flow manifest at: <url>" follows
   * the three earlier messages; then the failure to create the manifest is
   * reported.
   */
  lemma CompileCreateFails(st: State, rep: CompileReport, url: string)
    requires st.flow.Some? && rep.compiled.Ok? && rep.implemented.Ok? && rep.created.Err?
    requires ManifestUrlFor(st.flow.value.sourceUrl) == Some(url)
    ensures var r := AfterCompileFlow(st, true, rep);
      r.screen.status == CompileProgress(st, rep, url).status + [MANIFEST_CREATION_FAILED] &&
      r.screen.errors == st.screen.errors + [rep.created.error]
  {
    assert AfterCompileFlow(st, true, rep) ==
      st.(screen := CompileProgress(st, rep, url).WithError(rep.created.error).WithStatus(MANIFEST_CREATION_FAILED));
  }

  /**
   * Or the manifest is created, and `set_manifest` announces the same
   * location after those four messages.
   */
  lemma CompileCreates(st: State, rep: CompileReport, url: string)
    requires st.flow.Some? && rep.compiled.Ok? && rep.implemented.Ok? && rep.created.Ok?
    requires ManifestUrlFor(st.flow.value.sourceUrl) == Some(url)
    ensures var r := AfterCompileFlow(st, true, rep);
      r.screen.status == CompileProgress(st, rep, url).status + [ManifestAtMessage(url)]
  {
    assert AfterCompileFlow(st, true, rep) ==
      AfterSetManifest(st.(screen := CompileProgress(st, rep, url)), Some(url), Some(rep.created.value));
  }

  /** `compile_flow`. */
  method CompileFlow(ctx: UIContext, lockAcquired: bool, rep: CompileReport)
    modifies ctx, ctx.refs
    ensures ctx.View() == AfterCompileFlow(old(ctx.View()), lockAcquired, rep)
  {
    if !lockAcquired {
      UIContext.LogError(ctx.refs, COMPILE_NO_CONTEXT);
      return;
    }
    match ctx.flow {
      case None =>
        UIContext.UiError(ctx.refs, NO_FLOW_TO_COMPILE);
        UIContext.Message(ctx.refs, COMPILATION_FAILED);
      case Some(flow) =>
        UIContext.Message(ctx.refs, COMPILING_FLOW);
        match rep.compiled {
          case Err(e) =>
            UIContext.UiError(ctx.refs, e);
          case Ok(_) =>
            UIContext.Message(ctx.refs, COMPILING_IMPLEMENTATIONS);
            match rep.implemented {
              case Err(e) =>
                UIContext.UiError(ctx.refs, e);
              case Ok(result) =>
                UIContext.Message(ctx.refs, result);
                var manifestUrl := ManifestUrlFor(flow.sourceUrl);
                if manifestUrl.None? {
                  // `unwrap` on the failed parse or join: the thread stops here
                  return;
                }
                var url := manifestUrl.value;
                UIContext.Message(ctx.refs, CreatingManifestMessage(url));
                match rep.created {
                  case Ok(manifest) =>
                    ctx.SetManifest(Some(url), Some(manifest));
                  case Err(e) =>
                    UIContext.UiError(ctx.refs, e);
                    UIContext.Message(ctx.refs, MANIFEST_CREATION_FAILED);
                }
            }
        }
    }
  }

  // ---- open_flow --------------------------------------------------------------

  const OPEN_FLOW_NO_CONTEXT := "Could not get access to uicontext"

  /** What `loader::load` finds at a URL: a flow, or a process of another kind. */
  datatype Process = FlowProcess(flow: Flow) | FunctionProcess

  function NotAFlowMessage(url: string): string
  {
    "Process loaded from Url: '" + url + "' was not of type 'Flow'"
  }

  function LoadFailedMessage(url: string): string
  {
    "Could not load flow from Url: '" + url + "'"
  }

  /** `open_flow(url)`, on values; `loaded` is what `loader::load` reports. */
  function AfterOpenFlow(st: State, url: string, loaded: Result<Process>, lockAcquired: bool): (r: State)
    // a flow is stored, by `set_flow`, only when a flow was loaded and the lock taken
    ensures loaded.Ok? && loaded.value.FlowProcess? && lockAcquired ==>
      r == AfterSetFlow(st, Some(loaded.value.flow))
    // otherwise the context is untouched and exactly one line is logged or one error raised
    ensures loaded.Ok? && loaded.value.FlowProcess? && !lockAcquired ==>
      r == st.(screen := st.screen.WithLog(OPEN_FLOW_NO_CONTEXT))
    ensures loaded.Ok? && loaded.value.FunctionProcess? ==>
      r == st.(screen := st.screen.WithError(NotAFlowMessage(url)))
    ensures loaded.Err? ==> r == st.(screen := st.screen.WithError(LoadFailedMessage(url)))
    // the manifest fields never change
    ensures r.manifest == st.manifest && r.manifestUrl == st.manifestUrl
  {
    match loaded
    case Ok(FlowProcess(flow)) =>
      if lockAcquired then AfterSetFlow(st, Some(flow))
      else st.(screen := st.screen.WithLog(OPEN_FLOW_NO_CONTEXT))
    case Ok(FunctionProcess) => st.(screen := st.screen.WithError(NotAFlowMessage(url)))
    case Err(_) => st.(screen := st.screen.WithError(LoadFailedMessage(url)))
  }

  /** `open_flow(url)`. */
  method OpenFlow(ctx: UIContext, url: string, loaded: Result<Process>, lockAcquired: bool)
    modifies ctx, ctx.refs
    ensures ctx.View() == AfterOpenFlow(old(ctx.View()), url, loaded, lockAcquired)
  {
    match loaded {
      case Ok(FlowProcess(flow)) =>
        if lockAcquired {
          ctx.SetFlow(Some(flow));
        } else {
          UIContext.LogError(ctx.refs, OPEN_FLOW_NO_CONTEXT);
        }
      case Ok(FunctionProcess) =>
        UIContext.UiError(ctx.refs, NotAFlowMessage(url));
      case Err(_) =>
        UIContext.UiError(ctx.refs, LoadFailedMessage(url));
    }
  }

  // ---- open_manifest ----------------------------------------------------------

  const OPEN_MANIFEST_NO_CONTEXT := "Could not lock UI Context"

  function ManifestLoadFailedMessage(url: string, e: string): string
  {
    "Error loading manifest from url '" + url + "': " + e
  }

  /** `open_manifest(url)`, on values; `loaded` is what `Manifest::load` reports. */
  function AfterOpenManifest(st: State, url: string, loaded: Result<Manifest>, lockAcquired: bool): (r: State)
    // on success the manifest is stored with the very location it was loaded from
    ensures loaded.Ok? && lockAcquired ==>
      r == AfterSetManifest(st, Some(url), Some(loaded.value)) &&
      r.manifestUrl == Some(url) && r.manifest == Some(loaded.value)
    ensures loaded.Ok? && !lockAcquired ==> r == st.(screen := st.screen.WithLog(OPEN_MANIFEST_NO_CONTEXT))
    // a failed load names the location and the reason, and changes nothing else
    ensures loaded.Err? ==> r == st.(screen := st.screen.WithError(ManifestLoadFailedMessage(url, loaded.error)))
    ensures r.flow == st.flow && r.loader == st.loader
  {
    match loaded
    case Ok(manifest) =>
      if lockAcquired then AfterSetManifest(st, Some(url), Some(manifest))
      else st.(screen := st.screen.WithLog(OPEN_MANIFEST_NO_CONTEXT))
    case Err(e) => st.(screen := st.screen.WithError(ManifestLoadFailedMessage(url, e)))
  }

  /** `open_manifest(url)`. */
  method OpenManifest(ctx: UIContext, url: string, loaded: Result<Manifest>, lockAcquired: bool)
    modifies ctx, ctx.refs
    ensures ctx.View() == AfterOpenManifest(old(ctx.View()), url, loaded, lockAcquired)
  {
    match loaded {
      case Ok(manifest) =>
        if lockAcquired {
          ctx.SetManifest(Some(url), Some(manifest));
        } else {
          UIContext.LogError(ctx.refs, OPEN_MANIFEST_NO_CONTEXT);
        }
      case Err(e) =>
        UIContext.UiError(ctx.refs, ManifestLoadFailedMessage(url, e));
    }
  }

  // ---- run_manifest -----------------------------------------------------------

  const RUN_NO_CONTEXT := "Could not get access to uicontext and client"
  const NO_MANIFEST_TO_RUN := "No manifest loaded to run"

  function ConnectFailedMessage(e: string): string
  {
    "Could not make connection to server: " + e
  }

  function SubmittingMessage(args: seq<string>): string
  {
    "Submitting manifest for execution with args: '" + DebugList(args) + "'"
  }

  /** `run_manifest` gets as far as handing a connection to the client. */
  predicate Connects(manifestUrl: Option<string>, lockAcquired: bool, connectError: Option<string>)
  {
    lockAcquired && manifestUrl.Some? && connectError.None?
  }

  /** The host once `run_manifest` has cleared the output and announced the arguments. */
  function Prepared(h: Host, args: seq<string>): Host
  {
    h.(screen := ClearedPreRun(h.screen).WithStatus(SubmittingMessage(args)))
  }

  /**
   * `run_manifest(args)`, on values.  `connectError` is what
   * `Coordinator::server` reports; `startError`, `sendError` and `inbox`
   * stand for the connection it returns.
   */
  function AfterRunManifest(manifestUrl: Option<string>, args: seq<string>, lockAcquired: bool,
                            connectError: Option<string>, startError: Option<string>, sendError: Option<string>,
                            h: Host, inbox: seq<Received>): (r: Run)
    // without the lock it only logs
    ensures !lockAcquired ==> r == Run(false, h.(screen := h.screen.WithLog(RUN_NO_CONTEXT)), inbox)
    // with no manifest location, or no connection, it raises one error and nothing is sent
    ensures lockAcquired && manifestUrl.None? ==>
      r == Run(false, h.(screen := h.screen.WithError(NO_MANIFEST_TO_RUN)), inbox)
    ensures lockAcquired && manifestUrl.Some? && connectError.Some? ==>
      r == Run(false, h.(screen := h.screen.WithError(ConnectFailedMessage(connectError.value))), inbox)
    // something goes over the wire exactly when a connection was made
    ensures r.host.wire != h.wire <==> Connects(manifestUrl, lockAcquired, connectError)
    // a connected run submits the stored location for one parallel job, from cleared output
    ensures Connects(manifestUrl, lockAcquired, connectError) ==>
      r == Session(Submission(manifestUrl.value, 1), args, startError, sendError, Prepared(h, args), inbox)
  {
    if !lockAcquired then Run(false, h.(screen := h.screen.WithLog(RUN_NO_CONTEXT)), inbox)
    else
      match manifestUrl
      case None => Run(false, h.(screen := h.screen.WithError(NO_MANIFEST_TO_RUN)), inbox)
      case Some(url) =>
        match connectError
        case Some(e) => Run(false, h.(screen := h.screen.WithError(ConnectFailedMessage(e))), inbox)
        case None => Session(Submission(url, 1), args, startError, sendError, Prepared(h, args), inbox)
  }

  /**
   * A connected run sends the stored location for one parallel job before
   * anything else, and announces its arguments on the status label before
   * anything else.
   */
  lemma ConnectedRunStarts(url: string, args: seq<string>, startError: Option<string>, sendError: Option<string>,
                           h: Host, inbox: seq<Received>)
    ensures var r := AfterRunManifest(Some(url), args, true, None, startError, sendError, h, inbox);
      |r.host.wire| > |h.wire| && r.host.wire[|h.wire|] == Sent(ClientSubmission(Submission(url, 1))) &&
      |r.host.screen.status| > |h.screen.status| &&
      r.host.screen.status[|h.screen.status|] == SubmittingMessage(args)
  {
    var r := AfterRunManifest(Some(url), args, true, None, startError, sendError, h, inbox);
    assert Connects(Some(url), true, None);
    SessionDialogs(Submission(url, 1), args, startError, sendError, Prepared(h, args), inbox);
    assert r.host.wire[..|h.wire| + 1][|h.wire|] == r.host.wire[|h.wire|];
    assert Prepared(h, args).screen.status == h.screen.status + [SubmittingMessage(args)];
  }

  /** `run_manifest(args)`: the context is read, never changed. */
  method RunManifest(ctx: UIContext, args: seq<string>, lockAcquired: bool, connectError: Option<string>,
                     conn: Connection, fs: FileSystem)
    modifies ctx.refs, conn, fs
    ensures var r := AfterRunManifest(ctx.manifestUrl, args, lockAcquired, connectError, conn.startError, conn.sendError,
                                      Host(old(ctx.refs.View()), old(fs.files), old(conn.transcript)), old(conn.pending));
      ctx.refs.View() == r.host.screen && fs.files == r.host.files &&
      conn.transcript == r.host.wire && conn.pending == r.rest
  {
    if !lockAcquired {
      UIContext.LogError(ctx.refs, RUN_NO_CONTEXT);
      return;
    }
    match ctx.manifestUrl {
      case None =>
        UIContext.UiError(ctx.refs, NO_MANIFEST_TO_RUN);
      case Some(url) =>
        match connectError {
          case Some(e) =>
            UIContext.UiError(ctx.refs, ConnectFailedMessage(e));
          case None =>
            UIContext.ClearPreRun(ctx.refs);
            UIContext.Message(ctx.refs, SubmittingMessage(args));
            var submission := Submission(url, 1);
            var _ := Start(conn, submission, args, ctx.refs, fs);
        }
    }
  }

  // ---- Properties across the actions -----------------------------------------------

  /**
   * No action stores a manifest location without a manifest, or a manifest
   * without its location: the context stays paired through every outcome
   * of every action.
   */
  lemma ActionsKeepPaired(st: State, lockAcquired: bool, rep: CompileReport,
                          url: string, process: Result<Process>, manifest: Result<Manifest>)
    requires Paired(st)
    ensures Paired(AfterCompileFlow(st, lockAcquired, rep))
    ensures Paired(AfterOpenFlow(st, url, process, lockAcquired))
    ensures Paired(AfterOpenManifest(st, url, manifest, lockAcquired))
  {
    if CompileSucceeds(st, lockAcquired, rep) {
      CompileStores(st, lockAcquired, rep);
    } else {
      CompileFailureKeeps(st, lockAcquired, rep);
    }
  }

  /**
   * Compiling again with the same outcome changes nothing but the
   * histories: the manifest, its location and every widget stay as the
   * first compile left them, and the status messages and dialogs of the
   * first compile are posted once more.
   */
  lemma RecompileRepeats(st: State, rep: CompileReport)
    requires CompileSucceeds(st, true, rep)
    ensures var r1 := AfterCompileFlow(st, true, rep);
      var r2 := AfterCompileFlow(r1, true, rep);
      |r1.screen.status| >= |st.screen.status| && |r1.screen.errors| >= |st.screen.errors| &&
      r2 == r1.(screen := r1.screen.(status := r1.screen.status + r1.screen.status[|st.screen.status|..],
                                     errors := r1.screen.errors + r1.screen.errors[|st.screen.errors|..]))
  {
    var url := ManifestUrlFor(st.flow.value.sourceUrl).value;
    var m := rep.created.value;
    var msgs := [COMPILING_FLOW, COMPILING_IMPLEMENTATIONS, rep.implemented.value, CreatingManifestMessage(url)];
    var p := st.(screen := CompileProgress(st, rep, url));
    var r1 := AfterCompileFlow(st, true, rep);
    CompileStores(st, true, rep);
    assert r1 == AfterSetManifest(p, Some(url), Some(m));
    assert r1.flow == st.flow;
    assert CompileSucceeds(r1, true, rep);
    CompileStores(r1, true, rep);
    var q := r1.(screen := r1.screen.(status := r1.screen.status + msgs));
    assert CompileProgress(r1, rep, url) == q.screen;
    assert AfterCompileFlow(r1, true, rep) == AfterSetManifest(q, Some(url), Some(m));
    SetManifestAgain(p, url, m, msgs);
    var added := msgs + [ManifestAtMessage(url)];
    assert p.screen.status == st.screen.status + msgs;
    assert r1.screen.status == p.screen.status + [ManifestAtMessage(url)];
    Regrouped(st.screen.status, msgs, [ManifestAtMessage(url)]);
    Regrouped(r1.screen.status, msgs, [ManifestAtMessage(url)]);
    assert p.screen.errors == st.screen.errors;
  }

  /** `a + b + c` is `a` followed by `b + c`. */
  lemma Regrouped(a: seq<string>, b: seq<string>, c: seq<string>)
    ensures a + b + c == a + (b + c) && (a + (b + c))[|a|..] == b + c
  {
  }
}
