/**
 * The "add lecture" dialog: a form of strings turned into the `POST /api/admin/lessons` body.
 * Material links are typed one per line or separated by commas.
 */
module AddLectureModalModel {
  import opened Wrappers
  import opened JsText
  import opened DataStore
  import opened AdminHomework
  import opened AdminLessons
  import opened AdminDialog

  // ---------------------------------------------------------------- material links

  /** The characters `/[\n,]/` splits the material-link text on. */
  const LinkSeparators: set<char> := {'\n', ','}

  /** A link as the dialogs send it: non-empty, with no whitespace at either end. */
  predicate CleanLink(s: string) {
    s != "" && Trim(s) == s
  }

  /** `.map((s) => s.trim()).filter(Boolean)`: every piece trimmed, and the empty ones dropped. */
  function TrimmedNonEmpty(pieces: seq<string>): (r: seq<string>)
    ensures |r| <= |pieces|
    ensures forall k | 0 <= k < |r| :: CleanLink(r[k])
    decreases |pieces|
  {
    if pieces == [] then []
    else
      var rest := TrimmedNonEmpty(pieces[1..]);
      var t := Trim(pieces[0]);
      if t == "" then rest
      else
        assert CleanLink(t) by {
          TrimIdempotent(pieces[0]);
        }
        [t] + rest
  }

  /** Trimming and dropping empty pieces brings in no separator the pieces did not hold. */
  lemma {:induction false} TrimmedNonEmptyKeepsNoneIn(pieces: seq<string>, seps: set<char>)
    requires forall k | 0 <= k < |pieces| :: NoneIn(pieces[k], seps)
    ensures forall k | 0 <= k < |TrimmedNonEmpty(pieces)| :: NoneIn(TrimmedNonEmpty(pieces)[k], seps)
    decreases |pieces|
  {
    if pieces != [] {
      TrimKeepsNoneIn(pieces[0], seps);
      TrimmedNonEmptyKeepsNoneIn(pieces[1..], seps);
    }
  }

  /** Pieces that are already trimmed and non-empty pass through unchanged. */
  lemma {:induction false} TrimmedNonEmptyOfClean(pieces: seq<string>)
    requires forall k | 0 <= k < |pieces| :: CleanLink(pieces[k])
    ensures TrimmedNonEmpty(pieces) == pieces
    decreases |pieces|
  {
    if pieces != [] {
      var rest := pieces[1..];
      CleanTail(pieces);
      TrimmedNonEmptyOfClean(rest);
      assert CleanLink(pieces[0]);
      assert TrimmedNonEmpty(pieces) == [pieces[0]] + TrimmedNonEmpty(rest);
      ConsTail(pieces);
    }
  }

  /** The tail of a list of clean links is clean. */
  lemma CleanTail(pieces: seq<string>)
    requires pieces != [] && forall k | 0 <= k < |pieces| :: CleanLink(pieces[k])
    ensures forall k | 0 <= k < |pieces[1..]| :: CleanLink(pieces[1..][k])
  {
    forall k | 0 <= k < |pieces[1..]| ensures CleanLink(pieces[1..][k]) {
      assert pieces[1..][k] == pieces[k + 1];
    }
  }

  /** A non-empty list is its head followed by its tail. */
  lemma ConsTail<T>(s: seq<T>)
    requires s != []
    ensures [s[0]] + s[1..] == s
  {
  }

  /**
   * The `materialLinks` array both lecture dialogs send: the text split at newlines and
   * commas, each piece trimmed, the empty ones dropped. No link is empty, none has
   * whitespace at either end, and none holds a separator.
   */
  function SplitMaterialLinks(text: string): (r: seq<string>)
    ensures forall k | 0 <= k < |r| :: CleanLink(r[k]) && NoneIn(r[k], LinkSeparators)
  {
    var pieces := Split(text, LinkSeparators);
    TrimmedNonEmptyKeepsNoneIn(pieces, LinkSeparators);
    TrimmedNonEmpty(pieces)
  }

  /**
   * Links written one per line (or separated by commas) are read back as the same list,
   * provided each is non-empty, trimmed and free of separators.
   */
  lemma MaterialLinksRoundTrip(links: seq<string>, c: char)
    requires c in LinkSeparators
    requires forall k | 0 <= k < |links| :: CleanLink(links[k]) && NoneIn(links[k], LinkSeparators)
    ensures SplitMaterialLinks(Join(links, [c])) == links
  {
    if links == [] {
      assert Split("", LinkSeparators) == [""];
      assert Trim("") == "";
    } else {
      SplitJoin(links, c, LinkSeparators);
      TrimmedNonEmptyOfClean(links);
    }
  }

  /** Reading the links again changes nothing: what is sent is already in the shape the text parses to. */
  lemma MaterialLinksStable(text: string)
    ensures SplitMaterialLinks(Join(SplitMaterialLinks(text), "\n")) == SplitMaterialLinks(text)
  {
    MaterialLinksRoundTrip(SplitMaterialLinks(text), '\n');
  }

  // ---------------------------------------------------------------- the form

  /** The form's strings. */
  datatype NewLessonForm = NewLessonForm(
    id: string, courseId: string, title: string, week: string, date: string, videoCount: string,
    materialLinks: string, youtubeLink: string, pptLink: string, pdfLink: string)

  /** The form as the dialog starts and as a successful submit leaves it: empty, with a video count of `"0"`. */
  const InitialForm: NewLessonForm := NewLessonForm("", "", "", "", "", "0", "", "", "", "")

  /** The `POST` body for a form: the week and video count read as numbers, links only when filled. */
  function NewLessonPayload(form: NewLessonForm): LessonBody {
    LessonBody(Some(form.id), Some(form.courseId), Some(form.title), JsonNumber(NumberOf(form.week)), Some(form.date),
      Some(Finite(NumberOrZero(NumberOf(form.videoCount)))), Some(SplitMaterialLinks(form.materialLinks)), None,
      OrUndefined(Some(form.youtubeLink)), OrUndefined(Some(form.pptLink)), OrUndefined(Some(form.pdfLink)))
  }

  /** The route accepts the body exactly when id, course, title and date are filled and the week reads as a number. */
  lemma NewLessonAccepted(form: NewLessonForm)
    ensures LessonHasRequired(NewLessonPayload(form)) <==>
      form.id != "" && form.courseId != "" && form.title != "" && form.date != "" && NumberOf(form.week).Finite?
  {
  }

  /** The lesson the route stores for an accepted form. */
  lemma NewLessonStored(form: NewLessonForm)
    requires LessonHasRequired(NewLessonPayload(form))
    ensures LessonOf(NewLessonPayload(form)) ==
      Lesson(form.id, form.courseId, form.title, Some(NumberOf(form.week)), form.date,
        Some(Finite(NumberOrZero(NumberOf(form.videoCount)))), Some(SplitMaterialLinks(form.materialLinks)),
        OrUndefined(Some(form.youtubeLink)), OrUndefined(Some(form.pptLink)), OrUndefined(Some(form.pdfLink)), None)
  {
  }

  /** An empty week field reads as `0`, which the route accepts. */
  lemma BlankWeekIsZero(form: NewLessonForm)
    requires IsBlank(form.week)
    ensures NewLessonPayload(form).week == Some(Finite(0))
  {
  }

  // ---------------------------------------------------------------- the dialog

  /** The dialog as a value: the form, the request flag, the error, and whether it was closed. */
  datatype AddState = AddState(form: NewLessonForm, loading: bool, submitError: string, closed: bool)

  /**
   * The state `handleSubmit` leaves: a success closes the dialog and resets the form; a
   * failure keeps the form and shows the failure's message, falling back to "新增失敗".
   */
  function AfterAdd(st: AddState, outcome: SubmitOutcome): AddState {
    if Succeeded(outcome) then AddState(InitialForm, false, "", true)
    else st.(loading := false, submitError := FailureMessage(outcome, AddFailed))
  }

  /** After a success the next lecture starts from the empty form. */
  lemma AddSuccessResets(st: AddState, error: Option<string>)
    ensures var r := AfterAdd(st, Answered(true, error));
      r.form == InitialForm && r.closed && r.submitError == "" && !r.loading
  {
  }

  /** A failure keeps what was typed, so the user can correct it and submit again. */
  lemma AddFailureKeepsForm(st: AddState, outcome: SubmitOutcome)
    requires !Succeeded(outcome)
    ensures var r := AfterAdd(st, outcome);
      r.form == st.form && r.closed == st.closed && !r.loading
      && r.submitError == FailureMessage(outcome, AddFailed) && (outcome.Answered? ==> r.submitError != "")
  {
  }

  /** The dialog, whose fields `handleSubmit` updates in place. */
  class AddLectureModal {
    var form: NewLessonForm
    var loading: bool
    var submitError: string
    var closed: bool

    constructor()
      ensures form == InitialForm && !loading && submitError == "" && !closed
    {
      form := InitialForm;
      loading := false;
      submitError := "";
      closed := false;
    }

    function State(): AddState
      reads this
    {
      AddState(form, loading, submitError, closed)
    }

    /** `handleSubmit`, given what the request came to: the body it sends, and the state it leaves. */
    method Submit(outcome: SubmitOutcome) returns (sent: LessonBody)
      modifies this
      ensures sent == NewLessonPayload(old(State()).form)
      ensures State() == AfterAdd(old(State()), outcome)
    {
      sent := NewLessonPayload(State().form);
      submitError := "";
      loading := true;
      if Succeeded(outcome) {
        closed := true;
        form := InitialForm;
      } else {
        submitError := FailureMessage(outcome, AddFailed);
      }
      loading := false;
    }
  }
}
