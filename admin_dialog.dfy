/**
 * What the admin dialogs share: a submit sends one request, a failure shows the route's
 * `error` (or a fallback message, or the thrown error's message), and a success closes the
 * dialog. The edit dialogs also refuse to submit while they have no entry.
 */
module AdminDialog {
  import opened Wrappers
  import opened JsText

  /** What the request came to: a response with its `ok` flag and `error` field, or a thrown error. */
  datatype SubmitOutcome = Answered(ok: bool, error: Option<string>) | Threw(message: string)

  predicate Succeeded(outcome: SubmitOutcome) {
    outcome.Answered? && outcome.ok
  }

  /**
   * The message a failed submit shows. A refused response throws `data.error || fallback`,
   * and the catch shows the message of whatever was thrown.
   */
  function FailureMessage(outcome: SubmitOutcome, fallback: string): (m: string)
    requires !Succeeded(outcome)
    ensures outcome.Answered? && Truthy(outcome.error) ==> m == outcome.error.value
    ensures outcome.Answered? && !Truthy(outcome.error) ==> m == fallback
    ensures outcome.Threw? ==> m == outcome.message
  {
    match outcome
    case Answered(_, error) => if Truthy(error) then error.value else fallback
    case Threw(message) => message
  }

  /** An edit dialog: the entry being edited, the form, the request flag, the error, and whether it was closed. */
  datatype EditState<E, F> = EditState(entry: Option<E>, form: F, loading: bool, submitError: string, closed: bool)

  /**
   * The state an edit dialog's `handleSubmit` leaves: unchanged without an entry; otherwise the
   * request flag is cleared again, a success closes the dialog with no error, and a failure
   * shows its message.
   */
  function AfterEdit<E, F>(st: EditState<E, F>, outcome: SubmitOutcome, fallback: string): EditState<E, F> {
    if st.entry.None? then st
    else if Succeeded(outcome) then st.(loading := false, submitError := "", closed := true)
    else st.(loading := false, submitError := FailureMessage(outcome, fallback))
  }

  /** A successful response closes the dialog, clears the error, and leaves the entry and the form alone. */
  lemma EditSuccessCloses<E, F>(st: EditState<E, F>, error: Option<string>, fallback: string)
    requires st.entry.Some?
    ensures var r := AfterEdit(st, Answered(true, error), fallback);
      r.closed && r.submitError == "" && !r.loading && r.entry == st.entry && r.form == st.form
  {
  }

  /** A refused request keeps the dialog as it was, showing the route's error or the fallback message. */
  lemma EditFailureKeepsOpen<E, F>(st: EditState<E, F>, outcome: SubmitOutcome, fallback: string)
    requires st.entry.Some? && !Succeeded(outcome)
    ensures var r := AfterEdit(st, outcome, fallback);
      r.closed == st.closed && r.form == st.form && r.entry == st.entry && !r.loading
      && r.submitError == FailureMessage(outcome, fallback)
      && (outcome.Answered? && fallback != "" ==> r.submitError != "")
  {
  }

  /** Without an entry to edit, submitting changes nothing. */
  lemma EditWithoutEntry<E, F>(st: EditState<E, F>, outcome: SubmitOutcome, fallback: string)
    requires st.entry.None?
    ensures AfterEdit(st, outcome, fallback) == st
  {
  }
}
