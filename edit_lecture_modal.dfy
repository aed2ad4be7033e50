/**
 * The lecture edit dialog: a stored lesson is turned into form strings, and on submit the
 * form is turned back into a lesson body sent with `PUT` to `/api/admin/lessons`.
 */
module EditLectureModalModel {
  import opened Wrappers
  import opened JsText
  import opened DataStore
  import opened AdminHomework
  import opened AdminLessons
  import opened AdminDialog
  import opened AddLectureModalModel

  /** The form's strings. */
  datatype LessonForm = LessonForm(
    courseId: string, title: string, week: string, date: string, videoCount: string,
    materialLinks: string, videoLink: string, youtubeLink: string, pptLink: string, pdfLink: string)

  /** `String(lesson.week)`: a lesson without a week shows `"undefined"`. */
  function WeekText(week: Option<NumberValue>): string {
    match week
    case None => "undefined"
    case Some(v) => NumberToString(v)
  }

  /** `lessonToForm`: numbers as text, the material links one per line, absent links as empty fields. */
  function LessonToForm(lesson: Lesson): (f: LessonForm)
    ensures lesson.materialLinks.None? ==> f.materialLinks == ""
    ensures f.videoCount == NumberToString(lesson.videoCount.GetOr(Finite(0)))
  {
    LessonForm(lesson.courseId, lesson.title, WeekText(lesson.week), lesson.date,
      NumberToString(lesson.videoCount.GetOr(Finite(0))),
      if lesson.materialLinks.Some? then Join(lesson.materialLinks.value, "\n") else "",
      lesson.videoLink.GetOr(""), lesson.youtubeLink.GetOr(""), lesson.pptLink.GetOr(""), lesson.pdfLink.GetOr(""))
  }

  /** The body `handleSubmit` sends for a lesson's id and the current form. */
  function LessonPayload(id: string, form: LessonForm): LessonBody {
    LessonBody(Some(id), Some(form.courseId), Some(form.title), JsonNumber(NumberOf(form.week)), Some(form.date),
      Some(Finite(NumberOrZero(NumberOf(form.videoCount)))), Some(SplitMaterialLinks(form.materialLinks)),
      OrUndefined(Some(form.videoLink)), OrUndefined(Some(form.youtubeLink)),
      OrUndefined(Some(form.pptLink)), OrUndefined(Some(form.pdfLink)))
  }

  /** The body an unchanged form sends for a lesson. */
  function Resubmitted(lesson: Lesson): LessonBody {
    LessonPayload(lesson.id, LessonToForm(lesson))
  }

  // ---------------------------------------------------------------- round trips

  /**
   * A non-negative whole week survives the form. A lesson without a week shows
   * `"undefined"`, which reads as `NaN` and is sent as `null`, as is a `NaN` week.
   */
  lemma LessonWeekRoundTrip(lesson: Lesson)
    ensures lesson.week.Some? && lesson.week.value.Finite? && lesson.week.value.value >= 0 ==>
      Resubmitted(lesson).week == lesson.week
    ensures lesson.week.None? || lesson.week == Some(NaN) ==> Resubmitted(lesson).week.None?
  {
    match lesson.week
    case None =>
      assert !IsDigit("undefined"[0]);
      NumberOfWord("undefined");
    case Some(NaN) =>
      assert !IsDigit("NaN"[0]);
      NumberOfWord("NaN");
    case Some(Finite(n)) =>
      if n >= 0 {
        NumberOfNatToString(n);
      }
  }

  /** A non-negative video count survives the form; a missing or `NaN` count is sent as `0`. */
  lemma VideoCountRoundTrip(lesson: Lesson)
    ensures lesson.videoCount.Some? && lesson.videoCount.value.Finite? && lesson.videoCount.value.value >= 0 ==>
      Resubmitted(lesson).videoCount == lesson.videoCount
    ensures lesson.videoCount.None? || lesson.videoCount == Some(NaN) ==>
      Resubmitted(lesson).videoCount == Some(Finite(0))
  {
    match lesson.videoCount
    case None =>
      NumberOfNatToString(0);
    case Some(NaN) =>
      assert !IsDigit("NaN"[0]);
      NumberOfWord("NaN");
    case Some(Finite(n)) =>
      if n >= 0 {
        NumberOfNatToString(n);
      }
  }

  /**
   * Material links survive the form when each is non-empty, trimmed and free of commas and
   * newlines; a lesson without the array is sent with an empty one.
   */
  lemma MaterialLinksSurviveEdit(lesson: Lesson)
    requires lesson.materialLinks.Some? ==>
      forall k | 0 <= k < |lesson.materialLinks.value| ::
        CleanLink(lesson.materialLinks.value[k]) && NoneIn(lesson.materialLinks.value[k], LinkSeparators)
    ensures Resubmitted(lesson).materialLinks == Some(lesson.materialLinks.GetOr([]))
  {
    if lesson.materialLinks.Some? {
      MaterialLinksRoundTrip(lesson.materialLinks.value, '\n');
    } else {
      assert Split("", LinkSeparators) == [""];
      assert Trim("") == "";
    }
  }

  /** `(s ?? "") || undefined` is `s || undefined`: an empty link is dropped, any other comes back. */
  lemma LinkRoundTrip(link: Option<string>)
    ensures OrUndefined(Some(link.GetOr(""))) == OrUndefined(link)
    ensures link.None? || Truthy(link) ==> OrUndefined(Some(link.GetOr(""))) == link
  {
  }

  /** The links come back as stored, except that an empty one is dropped. */
  lemma LessonLinksRoundTrip(lesson: Lesson)
    ensures var body := Resubmitted(lesson);
      body.id == Some(lesson.id)
      && body.videoLink == OrUndefined(lesson.videoLink) && body.youtubeLink == OrUndefined(lesson.youtubeLink)
      && body.pptLink == OrUndefined(lesson.pptLink) && body.pdfLink == OrUndefined(lesson.pdfLink)
  {
    LinkRoundTrip(lesson.videoLink);
    LinkRoundTrip(lesson.youtubeLink);
    LinkRoundTrip(lesson.pptLink);
    LinkRoundTrip(lesson.pdfLink);
  }

  /** An unchanged form for a complete lesson carries every field the lesson route requires. */
  lemma ResubmittedHasRequired(lesson: Lesson)
    requires lesson.id != "" && lesson.courseId != "" && lesson.title != "" && lesson.date != ""
    requires lesson.week.Some? && lesson.week.value.Finite? && lesson.week.value.value >= 0
    ensures LessonHasRequired(Resubmitted(lesson))
  {
    LessonWeekRoundTrip(lesson);
  }

  // ---------------------------------------------------------------- the dialog

  /** The dialog's state as a value. */
  type LectureState = EditState<Lesson, LessonForm>

  /** The body `handleSubmit` sends: none without a lesson, the payload for its id and the form otherwise. */
  function Sent(st: LectureState): (r: Option<LessonBody>)
    ensures r.None? <==> st.entry.None?
    ensures r.Some? ==> r.value.id == Some(st.entry.value.id)
  {
    if st.entry.None? then None else Some(LessonPayload(st.entry.value.id, st.form))
  }

  /** The dialog, whose fields `handleSubmit` updates in place. */
  class EditLectureModal {
    var lesson: Option<Lesson>
    var form: LessonForm
    var loading: bool
    var submitError: string
    var closed: bool

    /** Opening the dialog on a lesson fills the form from it and clears the error. */
    constructor(lesson: Option<Lesson>, blank: LessonForm)
      ensures this.lesson == lesson && !loading && submitError == "" && !closed
      ensures lesson.Some? ==> form == LessonToForm(lesson.value)
      ensures lesson.None? ==> form == blank
    {
      this.lesson := lesson;
      form := if lesson.Some? then LessonToForm(lesson.value) else blank;
      loading := false;
      submitError := "";
      closed := false;
    }

    function State(): LectureState
      reads this
    {
      EditState(lesson, form, loading, submitError, closed)
    }

    /** `handleSubmit`, given what the request came to; a failure falls back to "更新失敗". */
    method Submit(outcome: SubmitOutcome) returns (sent: Option<LessonBody>)
      modifies this
      ensures sent == Sent(old(State()))
      ensures State() == AfterEdit(old(State()), outcome, UpdateFailed)
    {
      if lesson.None? {
        return None;
      }
      sent := Sent(State());
      submitError := "";
      loading := true;
      if Succeeded(outcome) {
        closed := true;
      } else {
        submitError := FailureMessage(outcome, UpdateFailed);
      }
      loading := false;
    }
  }
}
