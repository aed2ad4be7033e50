/**
 * `/api/admin/homework`: administrators add homework (`POST`) and edit the homework they added
 * (`PUT`). Link fields arrive as three url slots and three icon slots per kind and are
 * canonicalised by `buildLinks`.
 */
module AdminHomework {
  import opened Wrappers
  import opened JsText
  import opened DataStore
  import opened Auth

  const AdminOnly: string := "僅限 admin"
  const MissingFields: string := "缺少必填欄位"
  const MissingId: string := "缺少 id"
  const NotEditable: string := "僅能編輯由 admin 新增的作業，或 id 不存在"
  const AddFailed: string := "新增失敗"
  const UpdateFailed: string := "更新失敗"

  /** A route's answer: `{ ok: true }`, or an error message with its HTTP status. */
  datatype AdminReply = Ok | Failure(status: int, error: string)

  /** `isAdmin`: a session whose user has the role `"admin"`. */
  predicate IsAdmin(session: Option<Session>) {
    session.Some? && session.value.user.Some? && session.value.user.value.role == Some("admin")
  }

  /** Signing in as `admin`/`admin` yields a session the admin routes let through. */
  method AdminSignInPasses(user: SessionUser, picture: Option<string>) returns (session: Option<Session>)
    ensures IsAdmin(session)
  {
    session := CredentialsSignIn(Some(Credentials(Some(AdminUser), Some(AdminPass))), user, picture);
  }

  /** The three url slots and three icon slots of one link kind (`video1`..`video3`, `videoIcon1`..`videoIcon3`). */
  datatype LinkSlots = LinkSlots(
    url1: Option<string>, url2: Option<string>, url3: Option<string>,
    icon1: Option<string>, icon2: Option<string>, icon3: Option<string>)

  /** The JSON body both handlers read; a `week` that is `null` or absent is `None`. */
  datatype HomeworkBody = HomeworkBody(
    id: Option<string>, courseId: Option<string>, topic: Option<string>, week: Option<NumberValue>,
    date: Option<string>, deadline: Option<string>,
    video: LinkSlots, slides: LinkSlots, code: LinkSlots, platform: LinkSlots, ta: Option<string>)

  /** A request whose body parsed as JSON, or one whose body did not (which lands in the handler's `catch`). */
  datatype HomeworkRequest = HomeworkParsed(body: HomeworkBody) | HomeworkMalformed

  // ---------------------------------------------------------------- buildLinks

  /** A pushed item: a non-empty url and, when present, a non-empty icon. */
  predicate Filled(item: LinkItem) {
    item.url != "" && (item.icon.Some? ==> item.icon.value != "")
  }

  /** The item one slot pair contributes: a slot with a blank url gives none; urls and icons are trimmed. */
  function SlotItem(url: Option<string>, icon: Option<string>): (r: Option<LinkItem>)
    ensures r.Some? <==> url.Some? && !IsBlank(url.value)
    ensures r.Some? ==> r.value.url == Trim(url.value) && Filled(r.value)
    ensures r.Some? ==> (r.value.icon.Some? <==> icon.Some? && !IsBlank(icon.value))
    ensures r.Some? && r.value.icon.Some? ==> r.value.icon.value == Trim(icon.value)
  {
    if url.Some? && Trim(url.value) != "" then Some(LinkItem(Trim(url.value), IconOf(icon)))
    else None
  }

  /** The `...(icon?.trim() ? { icon: icon.trim() } : {})` part of a pushed item. */
  function IconOf(icon: Option<string>): (r: Option<string>)
    ensures r.Some? <==> icon.Some? && !IsBlank(icon.value)
    ensures r.Some? ==> r.value == Trim(icon.value)
  {
    if icon.Some? && Trim(icon.value) != "" then Some(Trim(icon.value)) else None
  }

  function AsSeq(item: Option<LinkItem>): (r: seq<LinkItem>)
    ensures |r| <= 1
  {
    if item.Some? then [item.value] else []
  }

  /** The items `buildLinks` collects, in slot order. */
  function SlotItems(slots: LinkSlots): (r: seq<LinkItem>)
    ensures |r| <= 3
  {
    AsSeq(SlotItem(slots.url1, slots.icon1)) + AsSeq(SlotItem(slots.url2, slots.icon2))
      + AsSeq(SlotItem(slots.url3, slots.icon3))
  }

  /** The canonical form of a link list: absent when empty, a bare url for one icon-less item, the list otherwise. */
  function Canonical(items: seq<LinkItem>): (r: Option<HomeworkLink>)
    ensures r.None? <==> items == []
    ensures r.Some? && r.value.SingleUrl? <==> |items| == 1 && items[0].icon.None?
    ensures r.Some? && r.value.SingleUrl? ==> r.value.url == items[0].url
    ensures r.Some? && r.value.LinkList? ==> r.value.items == items
  {
    if |items| == 0 then None
    else if |items| == 1 && items[0].icon.None? then Some(SingleUrl(items[0].url))
    else Some(LinkList(items))
  }

  /** `buildLinks`: pushes one item per slot with a non-blank url, then canonicalises the list. */
  method BuildLinks(slots: LinkSlots) returns (r: Option<HomeworkLink>)
    ensures r == Canonical(SlotItems(slots))
  {
    var items: seq<LinkItem> := [];
    ghost var pushed: seq<LinkItem> := [];
    var first := SlotItem(slots.url1, slots.icon1);
    if first.Some? {
      items := items + [first.value];
    }
    PushedItem(pushed, first, items);
    pushed := pushed + AsSeq(first);
    var second := SlotItem(slots.url2, slots.icon2);
    if second.Some? {
      items := items + [second.value];
    }
    PushedItem(pushed, second, items);
    pushed := pushed + AsSeq(second);
    var third := SlotItem(slots.url3, slots.icon3);
    if third.Some? {
      items := items + [third.value];
    }
    PushedItem(pushed, third, items);
    SlotItemsInOrder(slots);
    if |items| == 0 {
      return None;
    }
    if |items| == 1 && items[0].icon.None? {
      return Some(SingleUrl(items[0].url));
    }
    return Some(LinkList(items));
  }

  /** Pushing a slot's item, when it has one, appends that slot's part of the list. */
  lemma PushedItem(before: seq<LinkItem>, item: Option<LinkItem>, after: seq<LinkItem>)
    requires after == if item.Some? then before + [item.value] else before
    ensures after == before + AsSeq(item)
  {
  }

  /** `SlotItems` is what three pushes onto an empty list leave. */
  lemma SlotItemsInOrder(slots: LinkSlots)
    ensures SlotItems(slots) == [] + AsSeq(SlotItem(slots.url1, slots.icon1))
      + AsSeq(SlotItem(slots.url2, slots.icon2)) + AsSeq(SlotItem(slots.url3, slots.icon3))
  {
    assert [] + AsSeq(SlotItem(slots.url1, slots.icon1)) == AsSeq(SlotItem(slots.url1, slots.icon1));
  }

  /** No link field is produced exactly when all three url slots are absent or blank. */
  lemma BuildLinksAbsent(slots: LinkSlots)
    ensures Canonical(SlotItems(slots)).None? <==>
      (slots.url1.None? || IsBlank(slots.url1.value)) && (slots.url2.None? || IsBlank(slots.url2.value))
      && (slots.url3.None? || IsBlank(slots.url3.value))
  {
  }

  /** Three filled slots give three items, in slot order, trimmed. */
  lemma BuildLinksKeepsOrder(slots: LinkSlots)
    requires slots.url1.Some? && !IsBlank(slots.url1.value)
    requires slots.url2.Some? && !IsBlank(slots.url2.value)
    requires slots.url3.Some? && !IsBlank(slots.url3.value)
    ensures var r := Canonical(SlotItems(slots));
      r.Some? && r.value.LinkList? && |r.value.items| == 3
      && r.value.items[0].url == Trim(slots.url1.value) && r.value.items[1].url == Trim(slots.url2.value)
      && r.value.items[2].url == Trim(slots.url3.value)
  {
    var a := SlotItem(slots.url1, slots.icon1);
    var b := SlotItem(slots.url2, slots.icon2);
    var c := SlotItem(slots.url3, slots.icon3);
    assert a.Some? && b.Some? && c.Some?;
    assert AsSeq(a) == [a.value] && AsSeq(b) == [b.value] && AsSeq(c) == [c.value];
    assert SlotItems(slots) == [a.value, b.value, c.value];
  }

  // ---------------------------------------------------------------- the stored entry

  /** The required-field check both handlers share; `week` may be `0` but not `null`. */
  predicate HasRequired(body: HomeworkBody) {
    Truthy(body.courseId) && Truthy(body.topic) && body.week.Some? && Truthy(body.date) && Truthy(body.deadline)
  }

  /** The entry a handler stores: the given id and deadline, the body's fields, and the canonical links. */
  function HomeworkOf(id: string, body: HomeworkBody, deadline: string): (hw: Homework)
    requires HasRequired(body)
    ensures hw.id == id && hw.courseId == body.courseId.value && hw.deadline == deadline
    ensures hw.topic == body.topic.value && hw.week == body.week.value && hw.date == body.date.value
    ensures hw.video == Canonical(SlotItems(body.video)) && hw.slides == Canonical(SlotItems(body.slides))
    ensures hw.code == Canonical(SlotItems(body.code)) && hw.platform == Canonical(SlotItems(body.platform))
    ensures hw.videoIcon.None? && hw.slidesIcon.None? && hw.codeIcon.None? && hw.platformIcon.None?
    ensures hw.ta.Some? <==> Truthy(body.ta)
    ensures hw.ta.Some? ==> hw.ta == body.ta
  {
    Homework(id, body.courseId.value, body.topic.value, body.week.value, body.date.value, deadline,
      Canonical(SlotItems(body.video)), Canonical(SlotItems(body.slides)),
      Canonical(SlotItems(body.code)), Canonical(SlotItems(body.platform)),
      None, None, None, None, OrUndefined(body.ta))
  }

  /** How many entries belong to a course. */
  function CountCourse(list: seq<Homework>, courseId: string): (n: nat)
    ensures n <= |list|
  {
    if list == [] then 0
    else CountCourse(list[..|list| - 1], courseId) + (if list[|list| - 1].courseId == courseId then 1 else 0)
  }

  /** `hw-{courseId}-{n}` with `n` one more than the course's current homework count. */
  function NextHomeworkId(all: seq<Homework>, courseId: string): string {
    "hw-" + courseId + "-" + NatToString(CountCourse(all, courseId) + 1)
  }

  /** The entry `POST` appends: the next id, and the deadline exactly as sent. */
  function NewHomework(all: seq<Homework>, body: HomeworkBody): Homework
    requires HasRequired(body)
  {
    HomeworkOf(NextHomeworkId(all, body.courseId.value), body, body.deadline.value)
  }

  /** `PUT`'s deadline normalisation: the first `T` becomes a space, then at most 16 characters are kept. */
  function NormaliseDeadline(deadline: string): (r: string)
    ensures |r| <= 16
  {
    Take(ReplaceFirst(deadline, 'T', ' '), 16)
  }

  /** A `datetime-local` value `pT q` (no `T` in `p`) becomes `p q`, cut to 16 characters. */
  lemma NormaliseDeadlineValue(p: string, q: string)
    requires NoneIn(p, {'T'})
    ensures NormaliseDeadline(p + "T" + q) == Take(p + " " + q, 16)
  {
    assert p + "T" + q == p + ("T" + q);
    ReplaceFirstAfter(p, "T" + q, 'T', ' ');
    assert ReplaceFirst("T" + q, 'T', ' ') == " " + q;
    assert p + (" " + q) == p + " " + q;
  }

  /** A deadline without a `T` is only cut to 16 characters. */
  lemma NormaliseDeadlineWithoutT(deadline: string)
    requires NoneIn(deadline, {'T'})
    ensures NormaliseDeadline(deadline) == Take(deadline, 16)
  {
    ReplaceFirstAbsent(deadline, 'T', ' ');
  }

  /** A deadline already in `YYYY-MM-DD HH:MM` form (no `T`, at most 16 characters) is kept as it is. */
  lemma NormaliseDeadlineKeeps(deadline: string)
    requires NoneIn(deadline, {'T'}) && |deadline| <= 16
    ensures NormaliseDeadline(deadline) == deadline
  {
    ReplaceFirstAbsent(deadline, 'T', ' ');
  }

  /** The entry `PUT` merges in: the body's id and the normalised deadline. */
  function EditedHomework(body: HomeworkBody): Homework
    requires HasRequired(body) && body.id.Some?
  {
    HomeworkOf(body.id.value, body, NormaliseDeadline(body.deadline.value))
  }

  /** `PUT` needs an id that is present and not blank. */
  predicate HasId(body: HomeworkBody) {
    body.id.Some? && !IsBlank(body.id.value)
  }

  // ---------------------------------------------------------------- handlers

  /** `POST`: 403 for non-admins, 500 for an unreadable body, 400 without the required fields; otherwise one append. */
  method PostHomework(store: Store, session: Option<Session>, request: HomeworkRequest) returns (reply: AdminReply)
    modifies store
    ensures !IsAdmin(session) ==> reply == Failure(403, AdminOnly) && store.homeworkFile == old(store.homeworkFile)
    ensures IsAdmin(session) && request.HomeworkMalformed? ==>
      reply == Failure(500, AddFailed) && store.homeworkFile == old(store.homeworkFile)
    ensures IsAdmin(session) && request.HomeworkParsed? && !HasRequired(request.body) ==>
      reply == Failure(400, MissingFields) && store.homeworkFile == old(store.homeworkFile)
    ensures IsAdmin(session) && request.HomeworkParsed? && HasRequired(request.body) ==>
      reply == Ok
      && store.homeworkFile == ArrayOf(old(store.GetPersistedHomework()) + [NewHomework(old(store.GetHomework()), request.body)])
    ensures store.lessonsFile == old(store.lessonsFile)
  {
    if !IsAdmin(session) {
      return Failure(403, AdminOnly);
    }
    if request.HomeworkMalformed? {
      return Failure(500, AddFailed);
    }
    var body := request.body;
    if !HasRequired(body) {
      return Failure(400, MissingFields);
    }
    var newId := NextHomeworkId(store.GetHomework(), body.courseId.value);
    var hw := Homework(newId, body.courseId.value, body.topic.value, body.week.value, body.date.value,
      body.deadline.value, None, None, None, None, None, None, None, None, None);
    hw := WithBuiltLinks(hw, body);
    if Truthy(body.ta) {
      hw := hw.(ta := body.ta);
    }
    store.AppendHomework(hw);
    reply := Ok;
  }

  /** The four `if (link) hw.link = link` assignments. */
  method WithBuiltLinks(hw: Homework, body: HomeworkBody) returns (r: Homework)
    ensures r == hw.(video := Canonical(SlotItems(body.video)), slides := Canonical(SlotItems(body.slides)),
                     code := Canonical(SlotItems(body.code)), platform := Canonical(SlotItems(body.platform)))
    requires hw.video.None? && hw.slides.None? && hw.code.None? && hw.platform.None?
  {
    r := hw;
    var video := BuildLinks(body.video);
    if video.Some? {
      r := r.(video := video);
    }
    var slides := BuildLinks(body.slides);
    if slides.Some? {
      r := r.(slides := slides);
    }
    var code := BuildLinks(body.code);
    if code.Some? {
      r := r.(code := code);
    }
    var platform := BuildLinks(body.platform);
    if platform.Some? {
      r := r.(platform := platform);
    }
  }

  /**
   * `PUT`: 403, 500, 400 for a missing or blank id, 400 without the required fields; then the
   * first persisted entry with the id is merged with the edited entry, or 404 when none has it.
   */
  method PutHomework(store: Store, session: Option<Session>, request: HomeworkRequest) returns (reply: AdminReply)
    modifies store
    ensures !IsAdmin(session) ==> reply == Failure(403, AdminOnly) && store.homeworkFile == old(store.homeworkFile)
    ensures IsAdmin(session) && request.HomeworkMalformed? ==>
      reply == Failure(500, UpdateFailed) && store.homeworkFile == old(store.homeworkFile)
    ensures IsAdmin(session) && request.HomeworkParsed? && !HasId(request.body) ==>
      reply == Failure(400, MissingId) && store.homeworkFile == old(store.homeworkFile)
    ensures IsAdmin(session) && request.HomeworkParsed? && HasId(request.body) && !HasRequired(request.body) ==>
      reply == Failure(400, MissingFields) && store.homeworkFile == old(store.homeworkFile)
    ensures IsAdmin(session) && request.HomeworkParsed? && HasId(request.body) && HasRequired(request.body)
            && FindIndex(old(store.GetPersistedHomework()), request.body.id.value).None? ==>
      reply == Failure(404, NotEditable) && store.homeworkFile == old(store.homeworkFile)
    ensures IsAdmin(session) && request.HomeworkParsed? && HasId(request.body) && HasRequired(request.body)
            && FindIndex(old(store.GetPersistedHomework()), request.body.id.value).Some? ==>
      reply == Ok
      && store.homeworkFile == ArrayOf(Updated(old(store.GetPersistedHomework()), request.body.id.value, EditedHomework(request.body)))
    ensures store.lessonsFile == old(store.lessonsFile)
  {
    if !IsAdmin(session) {
      return Failure(403, AdminOnly);
    }
    if request.HomeworkMalformed? {
      return Failure(500, UpdateFailed);
    }
    var body := request.body;
    if body.id.None? || Trim(body.id.value) == "" {
      return Failure(400, MissingId);
    }
    var id := body.id.value;
    if !HasRequired(body) {
      return Failure(400, MissingFields);
    }
    var hw := Homework(id, body.courseId.value, body.topic.value, body.week.value, body.date.value,
      NormaliseDeadline(body.deadline.value), None, None, None, None, None, None, None, None, None);
    hw := WithBuiltLinks(hw, body);
    if Truthy(body.ta) {
      hw := hw.(ta := body.ta);
    }
    var updated := store.UpdateHomework(id, hw);
    if !updated {
      return Failure(404, NotEditable);
    }
    reply := Ok;
  }

  // ---------------------------------------------------------------- properties

  /** Appending an entry of the course raises its count by one; other courses keep theirs. */
  lemma CountCourseAppend(list: seq<Homework>, hw: Homework, courseId: string)
    ensures CountCourse(list + [hw], courseId) == CountCourse(list, courseId) + (if hw.courseId == courseId then 1 else 0)
  {
    assert (list + [hw])[..|list|] == list;
  }

  /** Different counts give different ids. */
  lemma CountedIdsDiffer(prefix: string, m: nat, n: nat)
    requires m != n
    ensures prefix + NatToString(m) != prefix + NatToString(n)
  {
    DigitsValueOfNatToString(m);
    DigitsValueOfNatToString(n);
    var a := prefix + NatToString(m);
    var b := prefix + NatToString(n);
    assert a[|prefix|..] == NatToString(m);
    assert b[|prefix|..] == NatToString(n);
  }

  /** Two `POST`s for the same course in a row get different ids: the first entry raises the count the second id comes from. */
  lemma ConsecutivePostsDiffer(all: seq<Homework>, posted: Homework, courseId: string)
    requires posted.id == NextHomeworkId(all, courseId) && posted.courseId == courseId
    ensures NextHomeworkId(all + [posted], courseId) != posted.id
  {
    var n := CountCourse(all, courseId);
    CountCourseAppend(all, posted, courseId);
    CountedIdsDiffer("hw-" + courseId + "-", n + 2, n + 1);
  }

  /**
   * Ids come from a per-course count, so they can repeat once a `PUT` has moved an entry to
   * another course: `hw-x-1` moved to course `y` leaves one entry in `x`, whose id is `hw-x-2`,
   * and the next `POST` for `x` issues `hw-x-2` again.
   */
  lemma CountedIdsCanRepeat(moved: Homework, kept: Homework)
    requires moved.id == "hw-x-1" && moved.courseId == "y"
    requires kept.id == "hw-x-2" && kept.courseId == "x"
    ensures NextHomeworkId([moved, kept], "x") == kept.id
  {
    assert [moved, kept][..1] == [moved];
    assert CountCourse([moved, kept], "x") == 1;
    assert NatToString(2) == "2";
  }

  /** The entry `PUT` merges keeps the stored id and takes the body's required fields and normalised deadline. */
  lemma PutKeepsId(list: seq<Homework>, body: HomeworkBody)
    requires HasRequired(body) && HasId(body)
    requires FindIndex(list, body.id.value).Some?
    ensures var i := FindIndex(list, body.id.value).value; var r := Updated(list, body.id.value, EditedHomework(body));
      |r| == |list| && r[i].id == list[i].id && r[i].courseId == body.courseId.value
      && r[i].deadline == NormaliseDeadline(body.deadline.value)
      && (forall k | 0 <= k < |list| && k != i :: r[k] == list[k])
  {
    UpdatedOnlyFirst(list, body.id.value, EditedHomework(body));
  }

  /** A link kind cleared in the edit form leaves the stored links in place, because `PUT` only sets present links. */
  lemma ClearedLinksKept(stored: Homework, body: HomeworkBody)
    requires HasRequired(body) && body.id.Some?
    requires SlotItems(body.video) == []
    ensures Merge(stored, EditedHomework(body)).video == stored.video
  {
  }
}
