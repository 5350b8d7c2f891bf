# flowide-gtk core, modelled in Dafny

flowide-gtk is a GTK front end for the `flow` dataflow compiler and runtime.
This project models its logic: what the window shows, what is stored, what
is sent to the runtime coordinator and what lands on disk. It does not model
the GTK layer around that logic. There are four parts:

- **The runtime client loop** (`IDERuntimeClient::start`, `process_event`),
  in `runtime_client.dfy`. `process_event` maps each coordinator `Event` to
  a `Response` plus an effect: a line on stdout or stderr, or a file write.
  `start` sends the submission and then answers events in lock step until a
  `FlowEnd` arrives. The transport is the class `Connection`: a queue of
  receive results and a transcript of every send attempted and every receive.
  A `Sent` entry records an attempt: a failing `client_send` still leaves
  its entry, and the failure shows only as the error it returns. The file
  system is a map from file names to bytes. `Session` computes the run on
  values, and the method `Start` is proved to equal it.
- **The shared UI context** (`UIContext`), in `ui_context.dfy` and
  `widgets.dfy`. The widgets are the plain fields of `WidgetRefs`: the
  compile/run flags, the flow, manifest, args, stdout and stderr texts, and
  the notebook page. Status messages, error dialogs and log lines are kept as
  histories. `do_in_gtk_eventloop` takes effect at once. The functions
  `AfterSetFlow` and `AfterSetManifest` state what the setters do, and the
  class methods are proved against them.
- **Run arguments** (`run_action` and the args buffer in `build_ui`), in
  `build_ui.dfy`. The string functions from the Rust standard library are in
  `text.dfy`.
- **The background actions** (`compile_flow`, `open_flow`, `open_manifest`,
  `run_manifest`), in `actions.dfy`. Threads are gone: each action runs to
  the end when called. Whether `try_lock` succeeded is a boolean input. The
  compiler, loader and coordinator outcomes are `Result` inputs. The manifest
  location comes from resolving `manifest.json` against the flow's URL.
  `urls.dfy` models the parsing of URLs of the form
  `scheme:[//authority]path[?query][#fragment]` and the resolution of one
  path segment against them. The `url` crate follows the WHATWG URL
  Standard, which accepts and normalises more texts than this model parses.
  The model's resolution is the path merge of section 5.2.3 of RFC 3986 for
  one segment, without the removal of dot segments that section 5.2.2
  applies afterwards and the crate performs.

Choices made where the files disagree with each other:

- `actions.rs` defines `run_manifest(args)`, which reads the location from
  the context, while `build_ui.rs` passes the location as well. The model
  uses the `actions.rs` signature: `RunAction` calls `RunManifest(args)`.
- `build_ui.rs` names the context type `UiContext`. The model uses the
  `UIContext` of `ui_context.rs`. The module holding it is `UiContext`.
- `clear_stderr` clears the stdout buffer, and the model keeps that as
  written. `StderrNeverCleared` proves the consequence: no setter and no
  `clear_pre_run` ever empties stderr.
- `DEFAULT_MANIFEST_FILENAME` is `"manifest"`. It is defined in
  `flowrstructs`, which is not part of this model.

## Model

| member | source | states |
|---|---|---|
| RuntimeClient.ProcessEvent | src/ide_runtime_client.rs:67-108 | total; `ClientExiting` iff `FlowEnd`; `Ack` iff one of the eight acknowledged events; `GetStdin` gives `Error("Could not read Stdin")`, `GetLine` gives `Stdin("bla bla")`; `Args` iff `GetArgs`, and it carries the client's own args; an output or write effect iff `Stdout`/`Stderr`/`Write`, with the text plus "\n" or the event's name and bytes |
| RuntimeClient.ApplyEffect | src/ide_runtime_client.rs:72-97 | output goes only to its own buffer; a write leaves the named file holding exactly the bytes, adds only that name, and leaves every other file as it was |
| RuntimeClient.Step | src/ide_runtime_client.rs:52-62 | one turn: the receive and then, for an event, its response go on the transcript |
| RuntimeClient.StepEffects | src/ide_runtime_client.rs:52-62 | a receive error raises one dialog and changes nothing else; `Stdout`/`Stderr` text goes with "\n" to its own buffer only; a `Write` sets exactly that file; every other event changes neither widgets nor files |
| RuntimeClient.ExitAt | src/ide_runtime_client.rs:51-58 | the position of the first flow-ending result; none before it ends the flow |
| RuntimeClient.Session | src/ide_runtime_client.rs:39-65 | the loop returns iff some received event ends the flow; it reads nothing after that event; the submission is the first send attempted, before anything is received |
| RuntimeClient.ReplayWire | src/ide_runtime_client.rs:51-64 | the turns before the flow end add exactly their exchanges to the transcript |
| RuntimeClient.SentsOfExchange | src/ide_runtime_client.rs:54-60 | the responses whose sends those turns attempt are `process_event` of the received events, in order |
| RuntimeClient.ReplayDialogs | src/ide_runtime_client.rs:62 | the turns add one dialog per receive error and post no status |
| RuntimeClient.ReplayStdout | src/ide_runtime_client.rs:72-77 | the stdout buffer grows by exactly the `Stdout` texts, each followed by "\n" |
| RuntimeClient.ReplayStderr | src/ide_runtime_client.rs:78-83 | the stderr buffer grows by exactly the `Stderr` texts, each followed by "\n" |
| RuntimeClient.ReceiveErrorDialogs | src/ide_runtime_client.rs:62 | every receive either delivers an event or raises a dialog, and the dialogs name the receive errors one by one, in order |
| RuntimeClient.SessionWire | src/ide_runtime_client.rs:39-64 | a run leaves the earlier transcript alone and adds the submission, the exchanges of the turns before the flow end, and then the flow-ending receive iff the run ended |
| RuntimeClient.SessionDialogs | src/ide_runtime_client.rs:41-65 | the dialogs of a run are the start and send failures and one per receive error; the status label gets "Flow execution ended" iff the run ended |
| RuntimeClient.SessionStdout | src/ide_runtime_client.rs:72-77 | a run adds exactly the `Stdout` lines before the flow end to stdout |
| RuntimeClient.SessionStderr | src/ide_runtime_client.rs:78-83 | a run adds exactly the `Stderr` lines before the flow end to stderr |
| RuntimeClient.SessionEffects | src/ide_runtime_client.rs:39-65 | the whole transcript, dialogs, status, stdout and stderr of a run: start and send failures are reported and the loop goes on; "Flow execution ended" is posted iff the run ended |
| RuntimeClient.EventsBeforeExit | src/ide_runtime_client.rs:51-58 | for received events e1..en where only en is `FlowEnd`, the results before the exit carry exactly e1..e(n-1) |
| RuntimeClient.SessionResponses | src/ide_runtime_client.rs:51-64 | for such events the run ends, and it attempts to send the submission and then `process_event(e1..e(n-1))` in order; no send of `ClientExiting` is ever attempted |
| RuntimeClient.ArgsAreFixed | src/ide_runtime_client.rs:91-93 | every `Args` response of a run carries the client's args; no event changes them |
| RuntimeClient.SessionHandsOutArgs | src/ide_runtime_client.rs:49-54 | every `Args` response a session attempts to send carries the `flow_args` it was started with |
| RuntimeClient.HelloRun | src/ide_runtime_client.rs:39-65 | receiving `FlowStart`, `Stdout("hello")`, `FlowEnd` attempts to send the submission, `Ack`, `Ack`; it adds "hello\n" to stdout and posts "Flow execution ended" |
| RuntimeClient.Connection.constructor | src/ide_runtime_client.rs:39-40 | a connection that is not started yet, with the given receive results still to come |
| RuntimeClient.Connection.Start | src/ide_runtime_client.rs:41 | `connection.start()`: reports its failure |
| RuntimeClient.Connection.ClientSend | src/ide_runtime_client.rs:60 | `client_send` appends the response to the transcript and returns the send's error; the entry stays when the send fails |
| RuntimeClient.Connection.ClientRecv | src/ide_runtime_client.rs:52 | `client_recv` takes the next result and records it |
| RuntimeClient.FileSystem.CreateAndWrite | src/ide_runtime_client.rs:94-97 | `File::create` + `write_all`: the file holds exactly the bytes |
| RuntimeClient.Perform | src/ide_runtime_client.rs:72-97 | carrying out an effect changes the widgets and files as `ApplyEffect` says |
| RuntimeClient.OpenAndSubmit | src/ide_runtime_client.rs:41-47 | start and submit; each failure raises a dialog, and neither stops the run |
| RuntimeClient.HandleNext | src/ide_runtime_client.rs:52-62 | one turn of the loop; it exits iff the event ends the flow, and then posts "Flow execution ended" and attempts no send |
| RuntimeClient.Start | src/ide_runtime_client.rs:39-65 | the loop leaves the widgets, files, transcript and unread results exactly as `Session` says |
| UiContext.UIContext.constructor | src/ui_context.rs:21-28 | loader, flow, manifest and manifest location all `None` |
| UiContext.AfterSetFlow | src/ui_context.rs:31-73 | stores the flow as given and nothing else in the context; compile enabled iff a flow is given; "Flow loaded from …" posted iff a flow is given; manifest text and stdout cleared; on a serialisation failure one dialog is raised and the flow text is cleared; `None` only disables compiling and clears the flow text |
| UiContext.UIContext.SetFlow | src/ui_context.rs:31-73 | `set_flow` changes the context and widgets exactly as `AfterSetFlow` |
| UiContext.AfterSetManifest | src/ui_context.rs:97-131 | stores location and manifest exactly as given; flow unchanged; status posted iff a location is given; run enabled iff a manifest is given; `None` clears the manifest text; a serialisation failure raises one dialog |
| UiContext.UIContext.SetManifest | src/ui_context.rs:97-131 | `set_manifest` changes the context and widgets exactly as `AfterSetManifest` |
| UiContext.SetFlowNoneIdempotent | src/ui_context.rs:63-71 | `set_flow(None)` twice equals once |
| UiContext.SetManifestNoneIdempotent | src/ui_context.rs:124-130 | `set_manifest(None, None)` twice equals once |
| UiContext.SetManifestAgain | src/ui_context.rs:97-131 | storing the same location and manifest again, after more status messages, leaves every widget as before and posts only the announcement and any serialisation dialog once more |
| UiContext.SettersKeepPaired | src/ui_context.rs:97-99 | a location and a manifest are stored together or not at all, after `set_flow` and after `set_manifest` with both values or with neither |
| UiContext.ClearedStderr | src/ui_context.rs:171-174 | `clear_stderr` empties stdout and leaves stderr alone |
| UiContext.ClearedPreRun | src/ui_context.rs:176-181 | `clear_pre_run` empties stdout only |
| UiContext.StderrNeverCleared | src/ui_context.rs:171-181 | no sequence of `set_flow`, `set_manifest` and `clear_pre_run` changes the stderr buffer |
| UiContext.UIContext.SetFlowJsonContents | src/ui_context.rs:82-93 | shows the text and selects the flow page, or clears the flow text |
| UiContext.UIContext.EnableManifestRun | src/ui_context.rs:134-136 | sets the run item's sensitivity |
| UiContext.UIContext.SetManifestContents | src/ui_context.rs:139-149 | shows the text and selects the manifest page, or clears the manifest text |
| UiContext.UIContext.ClearFlowJsonContents | src/ui_context.rs:156-159 | empties the flow text |
| UiContext.UIContext.ClearManifestContents | src/ui_context.rs:161-164 | empties the manifest text |
| UiContext.UIContext.ClearStdout | src/ui_context.rs:166-169 | empties stdout |
| UiContext.UIContext.ClearStderr | src/ui_context.rs:171-174 | empties stdout, as written |
| UiContext.UIContext.ClearPreRun | src/ui_context.rs:176-181 | both clears in order |
| UiContext.UIContext.UiError | src/ui_context.rs:184-192 | raises one dialog with the message |
| UiContext.UIContext.Message | src/ui_context.rs:194-198 | puts the message on the status label |
| UiContext.UIContext.LogError | src/main.rs:312-314 | writes one log line |
| Text.TrimStart | src/build_ui.rs:44 | drops exactly the leading white space |
| Text.TrimEnd | src/build_ui.rs:44 | drops exactly the trailing white space |
| Text.Trim | src/build_ui.rs:44 | the result neither begins nor ends with white space, is empty iff the text is all white space, and is the text with only white space cut from its two ends |
| Text.Join | src/build_ui.rs:78 | no parts give "", one part gives itself, more begin with the first part followed by the separator |
| Text.JoinEndsWithLast | src/build_ui.rs:78 | a join of one or more parts ends with the last part |
| Text.Split | src/build_ui.rs:45 | one more piece than separators; no piece holds the separator; joining the pieces gives the text back |
| Text.SplitJoin | src/build_ui.rs:45 | splitting a join of separator-free pieces gives the pieces back |
| Text.EscapeChar | src/actions.rs:113 | `{:?}` writes a plain character as itself and any other as a backslash and one more character |
| Text.DebugStr | src/ui_context.rs:35 | `{:?}` of a string is its escaped text between double quotes |
| Text.DebugList | src/actions.rs:113 | `{:?}` of a list is its rendered elements between brackets: `[]` for none, `["a"]` for one, and for more the rendered elements joined by ", " |
| Text.DebugAll | src/actions.rs:113 | `{:?}` renders each argument quoted, in order |
| Text.EscapePlain | src/actions.rs:113 | a string without quotes, backslashes or control characters shows as itself |
| Urls.IndexOf | src/actions.rs:34 | the first occurrence of a character, or the length |
| Urls.Parse | src/actions.rs:34 | a text without ":" is no URL; a parsed URL has a valid scheme, and a fragment iff the text holds "#" |
| Urls.Serialize | src/actions.rs:39 | the text begins with the scheme and ":", and ends with "#" and the fragment when there is one |
| Urls.ParseSerialize | src/actions.rs:34-36 | parsing a well-formed URL's text gives the URL back |
| Urls.SerializeParse | src/actions.rs:34-36 | every parsed URL is well formed and writes out as the text it was parsed from |
| Urls.DirectoryOf | src/actions.rs:35 | the longest prefix of the path that ends in "/"; no "/" after it |
| Urls.DirectoryOfAppend | src/actions.rs:35 | a directory followed by a segment has that directory |
| Urls.Merge | src/actions.rs:35 | the segment goes after "/" (empty path under an authority) or after the base path's directory, and that prefix is the merged path's directory |
| Urls.JoinSegment | src/actions.rs:35 | fails iff the base does not parse or cannot be a base; otherwise it keeps scheme and authority, merges the path and drops query and fragment |
| Urls.JoinEndsWithSegment | src/actions.rs:35 | the joined path ends with "/" and the segment |
| Urls.JoinSegmentIdempotent | src/actions.rs:35 | joining the same segment again changes nothing |
| Actions.ManifestUrlFor | src/actions.rs:34-35 | the manifest location lies in the flow's directory, with the same scheme and authority; `None` when the location does not parse in the model's URL form or cannot be a base, which stands for an `unwrap` panic; the crate's normalisation is not applied (see "Left out") |
| Actions.FileManifestBesideFlow | src/actions.rs:34-35 | for a flow file `<dir><name>` under `file://`, the manifest URL is `<dir>manifest.json` under `file://` |
| Actions.ManifestUrlStable | src/actions.rs:34-35 | resolving from the manifest's own location gives the same location |
| Actions.AfterCompileFlow | src/actions.rs:19-62 | flow and loader never change; no lock: one log line only; no flow: "No flow loaded to compile" and "Flow compilation failed" only |
| Actions.CompileStores | src/actions.rs:33-40 | when every step succeeds the created manifest is stored, at the flow's location resolved against "manifest.json"; the state is `set_manifest` of both after the four progress messages: Run enabled, stdout cleared, stderr, flow text, args and log kept, and the manifest text shown on its page, or cleared with a dialog when it cannot be serialised |
| Actions.CompileFailureKeeps | src/actions.rs:19-62 | when any step fails, the manifest and its location are unchanged and only messages, dialogs and log lines are added |
| Actions.CompileStopsEarly | src/actions.rs:27-50 | "Compiling flow", "Compiling provided implementations" and the result message come in that order, each only after the step before it succeeded; each failing step raises exactly its own error |
| Actions.CompileProgress | src/actions.rs:27-36 | once the location is resolved, the status label has gained "Compiling flow", "Compiling provided implementations", the result message and "Creating flow manifest at: <url>", in that order, and nothing else on the screen has changed |
| Actions.CompileCreateFails | src/actions.rs:36-44 | when the manifest cannot be created, those four messages are followed by "Creation of flow manifest failed", and the creation error is raised |
| Actions.CompileCreates | src/actions.rs:36-39 | when it is created, those four messages are followed by `set_manifest`'s announcement of the same location |
| Actions.CompileFlow | src/actions.rs:19-62 | `compile_flow` changes the context exactly as `AfterCompileFlow` |
| Actions.AfterOpenFlow | src/actions.rs:66-81 | `set_flow(Some(flow))` only for a `FlowProcess` with the lock; otherwise one log line, or one dialog naming the URL; the manifest fields never change |
| Actions.OpenFlow | src/actions.rs:66-81 | `open_flow` changes the context exactly as `AfterOpenFlow` |
| Actions.AfterOpenManifest | src/actions.rs:85-98 | on success, `set_manifest` with the very URL it was given; otherwise one log line or one dialog naming the URL and the reason |
| Actions.OpenManifest | src/actions.rs:85-98 | `open_manifest` changes the context exactly as `AfterOpenManifest` |
| Actions.AfterRunManifest | src/actions.rs:104-126 | no lock: one log line; no location: "No manifest loaded to run" and no send attempted; connection failure: one dialog; a send is attempted iff it connects, and then the client runs `Submission(location, 1)` with the args from cleared output and an announced argument list |
| Actions.ConnectedRunStarts | src/actions.rs:110-115 | a connected run announces its args on the status label before any other status, and attempts to send `Submission(location, 1)` before anything else |
| Actions.RunManifest | src/actions.rs:104-126 | `run_manifest` changes the widgets, files and connection exactly as `AfterRunManifest` and never changes the context |
| Actions.ActionsKeepPaired | src/actions.rs:19-98 | every outcome of every action keeps the location and the manifest stored together or not at all |
| Actions.RecompileRepeats | src/actions.rs:19-62 | compiling again with the same outcome keeps the manifest, its location and every widget as the first compile left them, and posts the first compile's status messages and dialogs once more |
| BuildUi.ArgsFromText | src/build_ui.rs:41-47 | no arguments iff the text is all white space; otherwise the pieces cut at every single space, which join back to the text; one more piece than spaces |
| BuildUi.AdjacentSpacesGiveEmptyArgument | src/build_ui.rs:44-46 | `"a  b"` gives `["a", "", "b"]` |
| BuildUi.SpacedArgumentComesBackSplit | src/build_ui.rs:43-46 | an argument with a space in it comes back as two |
| BuildUi.AfterRunAction | src/build_ui.rs:39-63 | no lock: one log line; no location: "No manifest loaded to run" and nothing runs; otherwise `run_manifest` gets the manifest's name followed by the buffer's arguments |
| BuildUi.RunAnnouncesBufferArgs | src/build_ui.rs:53-55 | the run is announced with one more argument than the buffer holds, the name first |
| BuildUi.FlowSeesBufferArgs | src/build_ui.rs:53-55 | every `GetArgs` of the run is answered with the name followed by the buffer's arguments |
| BuildUi.RunAction | src/build_ui.rs:39-63 | the handler requires a manifest whenever a location is stored, and changes the widgets, files and connection exactly as `AfterRunAction` |
| BuildUi.RunLocked | src/build_ui.rs:41-59 | with the context locked, the widgets, files and connection change exactly as `AfterRunAction` with the lock taken: one error and no run without a location, otherwise the run with the name first |
| BuildUi.RunWithName | src/build_ui.rs:53-56 | with a location and a manifest stored, the name is put before the buffer's arguments and the widgets, files and connection change exactly as `AfterRunAction` with the lock taken |
| BuildUi.WithFlowArgs | src/build_ui.rs:77-79 | the args text becomes the arguments joined by " " iff there are any; nothing else changes |
| BuildUi.InitArgsBuffer | src/build_ui.rs:77-79 | the args buffer is set exactly as `WithFlowArgs` |
| BuildUi.FlowArgsRoundTrip | src/build_ui.rs:77-79 | starting from an empty buffer, arguments free of spaces whose join is not blank are read back unchanged |

## Left out

- Threads and mutex contention. Each action runs to the end when called, and `try_lock` is a boolean input. A poisoned mutex after a panic is not modelled.
- Blocking receive. The coordinator's events are a finite list. When it runs out before a `FlowEnd`, `Start` returns `false`; the real loop would wait in `client_recv`.
- The foreign calls are inputs, not models: `compile`, `compile_supplied_implementations`, `create_manifest`, `loader::load`, `Manifest::load`, `Coordinator::server`, `connection.start` and `client_send`/`client_recv`. So is `serde_json::to_string_pretty`, which appears as the `pretty` field of `Flow` and `Manifest`.
- Urls.Parse: reads only `scheme:[//authority]path[?query][#fragment]` as written, and does not normalise. The WHATWG parsing of the `url` crate is not modelled: lower-casing of the scheme, the lenient parsing of special schemes, ports, host parsing and percent-encoding. So where the crate would normalise the text, `ManifestUrlFor` gives either `None` or a location the crate would have written differently. For example, `file:a/b` is read by the crate as `file:///a/b`, but the model finds no authority and a relative path, so it cannot be a base and the result is `None`. `file:/a/flow.toml` and `FILE:///a/flow.toml` do resolve in the model, to `file:/a/manifest.json` and `FILE:///a/manifest.json`, while the crate gives `file:///a/manifest.json`.
- Urls.Merge: dot segments are not removed. Section 5.2.2 of RFC 3986 and the crate apply that removal to the merged path, so a flow at `file:///a/../flow.toml` has its manifest at `file:///manifest.json`, while the model gives `file:///a/../manifest.json`.
- Urls.JoinSegment: covers only what `compile_flow` needs, a single segment joined to an absolute URL that `Urls.Parse` reads; what that parse leaves out is listed under `Urls.Parse` above.
- Actions.CompileFlow: a panic from the `unwrap` of the URL parse or join stops the action with no further effect.
- RuntimeClient.Perform: the panics from `unwrap` in `Write` are not modelled; every write succeeds.
- `PixelWrite` image buffers. The code that fills them is commented out, so only the `Ack` is modelled.
- `insert_at_cursor` is treated as appending. This assumes the user never places the cursor in the stdout or stderr views: they are read-only, but a click or a selection there still moves the buffer's insert mark, and output would then land at that mark instead of at the end.
- Status label, error dialogs and log. The label keeps only its last text; the model keeps every message in order. `log_error` is a method of `UIContext` here; in the program it is a free function.
- Text.EscapeChar: Debug escapes only `\0`, `\t`, `\r`, `\n`, `\\` and `"`. The other `\u{…}` escapes Rust writes for control and unprintable characters are not modelled.
- `set_flow_graph_contents` and `clear_flow_graph_contents` have empty bodies in the program and are left out.
- The `get_text` of the args buffer is taken to succeed.
- Widget construction, menus, the notebook, `main` and the command-line options (`main.rs`, `menu.rs`, `ui_layout.rs`, `ui_layout_glade.rs`, `notebook.rs`, `options.rs`) are left out as GTK and foreign plumbing.
