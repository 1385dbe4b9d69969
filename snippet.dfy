/** How the measured snippet ended when a wrapper ran it in-process with `runpy.run_path`. */
module Snippet {
  import opened Wrappers
  import opened Text
  import opened Values

  /** A normal end, a `sys.exit` (`SystemExit`, which is not an error), or any other
      exception, with the text of its formatted traceback. */
  datatype RunOutcome = Finished | SystemExited | Raised(traceback: string)

  /** What the wrappers attach as `stderr` next to `run_error = True`: the stripped traceback,
      and nothing when the snippet ended normally or through `sys.exit`. */
  function RunError(o: RunOutcome): (r: Option<string>)
    ensures r.Some? <==> o.Raised?
    ensures o.Raised? ==> r == Some(PyStrip(o.traceback))
  {
    if o.Raised? then Some(PyStrip(o.traceback)) else None
  }

  /** `data["run_error"] = True; data["stderr"] = ...`, done only when there is an error. */
  function AttachRunError(fields: map<string, Json>, e: Option<string>): (r: map<string, Json>)
    ensures e.None? ==> r == fields
    ensures e.Some? ==> r == fields["run_error" := JBool(true)]["stderr" := JStr(e.value)]
  {
    if e.Some? then fields["run_error" := JBool(true)]["stderr" := JStr(e.value)] else fields
  }

  /** Attaching the error touches only `run_error` and `stderr`: every other key is present
      afterwards exactly when it was before, with the same value, and `run_error` is set
      exactly when there is an error (or was already there). */
  lemma LemmaAttachKeeps(fields: map<string, Json>, e: Option<string>, k: string)
    requires k != "run_error" && k != "stderr"
    ensures k in AttachRunError(fields, e) <==> k in fields
    ensures k in fields ==> AttachRunError(fields, e)[k] == fields[k]
    ensures "run_error" in AttachRunError(fields, e) <==> e.Some? || "run_error" in fields
  {
  }
}
