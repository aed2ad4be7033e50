/** `/api/admin/lessons`: administrators add a lesson (`POST`); it is the route's only handler. */
module AdminLessons {
  import opened Wrappers
  import opened JsText
  import opened DataStore
  import opened Auth
  import opened AdminHomework

  /**
   * The JSON body of a lesson request. `week` and `videoCount` are `None` when `null` or
   * absent; `materialLinks` is `None` when it is not an array; `videoLink` is sent by the
   * edit form but not read by the handler.
   */
  datatype LessonBody = LessonBody(
    id: Option<string>, courseId: Option<string>, title: Option<string>, week: Option<NumberValue>,
    date: Option<string>, videoCount: Option<NumberValue>, materialLinks: Option<seq<string>>,
    videoLink: Option<string>, youtubeLink: Option<string>, pptLink: Option<string>, pdfLink: Option<string>)

  /** A request whose body parsed as JSON, or one whose body did not. */
  datatype LessonRequest = LessonParsed(body: LessonBody) | LessonMalformed

  /** The required-field check: `id`, `courseId`, `title` and `date` truthy, `week` not `null`. */
  predicate LessonHasRequired(body: LessonBody) {
    Truthy(body.id) && Truthy(body.courseId) && Truthy(body.title) && body.week.Some? && Truthy(body.date)
  }

  /** The lesson `POST` stores: a finite `videoCount`, an array of material links, and no falsy link. */
  function LessonOf(body: LessonBody): (lesson: Lesson)
    requires LessonHasRequired(body)
    ensures lesson.id == body.id.value && lesson.courseId == body.courseId.value && lesson.week == body.week
    ensures lesson.title == body.title.value && lesson.date == body.date.value
    ensures lesson.videoCount.Some? && lesson.videoCount.value.Finite?
    ensures (body.videoCount.None? || body.videoCount == Some(NaN)) ==> lesson.videoCount == Some(Finite(0))
    ensures forall n :: body.videoCount == Some(Finite(n)) ==> lesson.videoCount == Some(Finite(n))
    ensures lesson.materialLinks.Some? && (body.materialLinks.None? ==> lesson.materialLinks == Some([]))
    ensures body.materialLinks.Some? ==> lesson.materialLinks == body.materialLinks
    ensures lesson.youtubeLink.Some? <==> Truthy(body.youtubeLink)
    ensures lesson.pptLink.Some? <==> Truthy(body.pptLink)
    ensures lesson.pdfLink.Some? <==> Truthy(body.pdfLink)
    ensures lesson.youtubeLink.Some? ==> lesson.youtubeLink == body.youtubeLink
    ensures lesson.pptLink.Some? ==> lesson.pptLink == body.pptLink
    ensures lesson.pdfLink.Some? ==> lesson.pdfLink == body.pdfLink
    ensures lesson.videoLink.None?
  {
    Lesson(body.id.value, body.courseId.value, body.title.value, body.week, body.date.value,
      Some(Finite(NumberOrZero(body.videoCount.GetOr(NaN)))), Some(body.materialLinks.GetOr([])),
      OrUndefined(body.youtubeLink), OrUndefined(body.pptLink), OrUndefined(body.pdfLink), None)
  }

  /** `POST`: 403 for non-admins, 500 for an unreadable body, 400 without the required fields; otherwise one append. */
  method PostLesson(store: Store, session: Option<Session>, request: LessonRequest) returns (reply: AdminReply)
    modifies store
    ensures !IsAdmin(session) ==> reply == Failure(403, AdminOnly) && store.lessonsFile == old(store.lessonsFile)
    ensures IsAdmin(session) && request.LessonMalformed? ==>
      reply == Failure(500, AddFailed) && store.lessonsFile == old(store.lessonsFile)
    ensures IsAdmin(session) && request.LessonParsed? && !LessonHasRequired(request.body) ==>
      reply == Failure(400, MissingFields) && store.lessonsFile == old(store.lessonsFile)
    ensures IsAdmin(session) && request.LessonParsed? && LessonHasRequired(request.body) ==>
      reply == Ok && store.GetLessons() == old(store.GetLessons()) + [LessonOf(request.body)]
    ensures store.homeworkFile == old(store.homeworkFile)
  {
    if !IsAdmin(session) {
      return Failure(403, AdminOnly);
    }
    if request.LessonMalformed? {
      return Failure(500, AddFailed);
    }
    var body := request.body;
    if !LessonHasRequired(body) {
      return Failure(400, MissingFields);
    }
    store.AppendLesson(LessonOf(body));
    reply := Ok;
  }

  /** A week of `0` is accepted; only a `null` or absent week is refused. */
  lemma WeekZeroAccepted(body: LessonBody)
    requires Truthy(body.id) && Truthy(body.courseId) && Truthy(body.title) && Truthy(body.date)
    ensures LessonHasRequired(body.(week := Some(Finite(0))))
    ensures !LessonHasRequired(body.(week := None))
  {
  }
}
