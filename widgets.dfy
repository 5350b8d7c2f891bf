/**
 * The widgets the core writes to, reached in the program through the
 * `widgets` storage emitted by `gtk_refs!`.  Every write the program makes
 * inside `do_in_gtk_eventloop` is modelled as an immediate update of one of
 * these fields.  The status label and the modal error dialogs are kept as
 * histories, so that the order of messages can be stated; the console log
 * written by `log_error` is kept the same way.
 */
module Widgets {

  /** Notebook pages selected when new text is shown. */
  const FLOW_GRAPH_PAGE: int := 0
  const MANIFEST_PAGE: int := 2

  /** A snapshot of every widget the core touches. */
  datatype Screen = Screen(
    compileEnabled: bool,     // sensitivity of the "Compile" menu item
    runEnabled: bool,         // sensitivity of the "Run" menu item
    flowText: string,         // flow_buffer
    manifestText: string,     // manifest_buffer
    argsText: string,         // args_buffer
    stdout: string,           // stdout text buffer
    stderr: string,           // stderr text buffer
    page: int,                // selected page of flow_notebook
    status: seq<string>,      // every text put on the status label, oldest first
    errors: seq<string>,      // every modal error dialog raised, oldest first
    log: seq<string>)         // every line written by log_error, oldest first
  {
    /** The screen after `UIContext::message(m)`. */
    function WithStatus(m: string): Screen
    {
      this.(status := status + [m])
    }

    /** The screen after `UIContext::ui_error(m)`. */
    function WithError(m: string): Screen
    {
      this.(errors := errors + [m])
    }

    /** The screen after `log_error(m)`. */
    function WithLog(m: string): Screen
    {
      this.(log := log + [m])
    }
  }

  /** The widget storage itself; its fields are updated in place. */
  class WidgetRefs {
    var compileEnabled: bool
    var runEnabled: bool
    var flowText: string
    var manifestText: string
    var argsText: string
    var stdout: string
    var stderr: string
    var page: int
    var status: seq<string>
    var errors: seq<string>
    var log: seq<string>

    /** The abstract value of the widgets. */
    function View(): Screen
      reads this
    {
      Screen(compileEnabled, runEnabled, flowText, manifestText, argsText,
             stdout, stderr, page, status, errors, log)
    }
  }
}
