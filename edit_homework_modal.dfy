/**
 * The homework edit dialog: a stored entry is turned into form strings, and on submit the
 * form is turned back into the `PUT /api/admin/homework` body.
 */
module EditHomeworkModalModel {
  import opened Wrappers
  import opened JsText
  import opened DataStore
  import opened AdminHomework
  import opened AdminDialog

  /** `toLinkArray`: no link is no item, a bare url is one icon-less item, a list is itself. */
  function ToLinkArray(link: Option<HomeworkLink>): (r: seq<LinkItem>)
    ensures link.None? ==> r == []
    ensures link.Some? && link.value.SingleUrl? ==> r == [LinkItem(link.value.url, None)]
    ensures link.Some? && link.value.LinkList? ==> r == link.value.items
  {
    match link
    case None => []
    case Some(SingleUrl(url)) => [LinkItem(url, None)]
    case Some(LinkList(items)) => items
  }

  /** `toLinkArray` undoes the canonicalisation `buildLinks` applies. */
  lemma ToLinkArrayUndoesCanonical(items: seq<LinkItem>)
    ensures ToLinkArray(Canonical(items)) == items
  {
    if |items| == 1 && items[0].icon.None? {
      assert items == [LinkItem(items[0].url, None)];
    }
  }

  /** One link kind in the form: three url fields and three icon fields (video and slides leave the icons empty). */
  datatype FormSlots = FormSlots(url1: string, url2: string, url3: string, icon1: string, icon2: string, icon3: string)

  /** The form's strings. */
  datatype HomeworkForm = HomeworkForm(
    courseId: string, topic: string, week: string, date: string, deadline: string, ta: string,
    video: FormSlots, slides: FormSlots, code: FormSlots, platform: FormSlots)

  /** `items[i]?.url ?? ""`. */
  function UrlAt(items: seq<LinkItem>, i: nat): string {
    if i < |items| then items[i].url else ""
  }

  /** `items[i]?.icon ?? ""`. */
  function IconAt(items: seq<LinkItem>, i: nat): string {
    if i < |items| then items[i].icon.GetOr("") else ""
  }

  /** The first three urls of a link field, and their icons when `withIcons`. */
  function SlotsOf(link: Option<HomeworkLink>, withIcons: bool): (f: FormSlots)
    ensures !withIcons ==> f.icon1 == "" && f.icon2 == "" && f.icon3 == ""
  {
    var items := ToLinkArray(link);
    if withIcons then FormSlots(UrlAt(items, 0), UrlAt(items, 1), UrlAt(items, 2), IconAt(items, 0), IconAt(items, 1), IconAt(items, 2))
    else FormSlots(UrlAt(items, 0), UrlAt(items, 1), UrlAt(items, 2), "", "", "")
  }

  /**
   * The form deadline: a stored `"YYYY-MM-DD HH:MM"` gets a `T` in place of its first space
   * (at most 16 characters); a deadline without a space becomes the date at `T23:59`.
   */
  function FormDeadline(hw: Homework): string {
    if Contains(hw.deadline, " ") then Take(ReplaceFirst(hw.deadline, ' ', 'T'), 16) else hw.date + "T23:59"
  }

  /** `homeworkToForm`. */
  function HomeworkToForm(hw: Homework): (f: HomeworkForm)
    ensures f.ta == hw.ta.GetOr("") && f.week == NumberToString(hw.week)
  {
    HomeworkForm(hw.courseId, hw.topic, NumberToString(hw.week), hw.date, FormDeadline(hw), hw.ta.GetOr(""),
      SlotsOf(hw.video, false), SlotsOf(hw.slides, false), SlotsOf(hw.code, true), SlotsOf(hw.platform, true))
  }

  /** A link kind's slots in the request body: empty strings are left out, as are video and slides icons. */
  function BodySlots(f: FormSlots, withIcons: bool): (s: LinkSlots)
    ensures !withIcons ==> s.icon1.None? && s.icon2.None? && s.icon3.None?
  {
    LinkSlots(OrUndefined(Some(f.url1)), OrUndefined(Some(f.url2)), OrUndefined(Some(f.url3)),
      if withIcons then OrUndefined(Some(f.icon1)) else None,
      if withIcons then OrUndefined(Some(f.icon2)) else None,
      if withIcons then OrUndefined(Some(f.icon3)) else None)
  }

  /** The `PUT` body `handleSubmit` sends for an entry's id and the current form. */
  function PayloadOf(id: string, form: HomeworkForm): (body: HomeworkBody)
  {
    HomeworkBody(Some(id), Some(form.courseId), Some(form.topic), JsonNumber(NumberOf(form.week)), Some(form.date),
      Some(NormaliseDeadline(form.deadline)),
      BodySlots(form.video, false), BodySlots(form.slides, false), BodySlots(form.code, true), BodySlots(form.platform, true),
      OrUndefined(Some(form.ta)))
  }

  /** The body carries the entry's id, the form's week read as a number, the normalised deadline, and `ta` only when filled. */
  lemma PayloadShape(id: string, form: HomeworkForm)
    ensures var body := PayloadOf(id, form);
      body.id == Some(id) && body.week == JsonNumber(NumberOf(form.week))
      && body.deadline == Some(NormaliseDeadline(form.deadline))
      && (body.ta.Some? <==> form.ta != "")
  {
  }

  // ---------------------------------------------------------------- round trips

  /** A `"YYYY-MM-DD HH:MM"` deadline opened in the form and submitted unchanged comes back unchanged. */
  lemma DeadlineRoundTrip(hw: Homework, id: string)
    requires |hw.deadline| == 16 && NoneIn(hw.deadline, {'T'}) && Contains(hw.deadline, " ")
    ensures PayloadOf(id, HomeworkToForm(hw)).deadline == Some(hw.deadline)
  {
    var shown := ReplaceFirst(hw.deadline, ' ', 'T');
    assert FormDeadline(hw) == shown;
    ReplaceFirstInverse(hw.deadline, ' ', 'T');
  }

  /** A deadline without a time part is shown and sent as the date at 23:59. */
  lemma DeadlineDefaultsToEndOfDay(hw: Homework, id: string)
    requires !Contains(hw.deadline, " ") && |hw.date| == 10 && NoneIn(hw.date, {'T'})
    ensures PayloadOf(id, HomeworkToForm(hw)).deadline == Some(hw.date + " 23:59")
  {
    ReplaceFirstAfter(hw.date, "T23:59", 'T', ' ');
    assert ReplaceFirst("T23:59", 'T', ' ') == " 23:59";
  }

  /** A non-negative whole week survives the form; a `NaN` week is sent as `null` and the route refuses it. */
  lemma WeekRoundTrip(hw: Homework, id: string)
    ensures hw.week.Finite? && hw.week.value >= 0 ==> PayloadOf(id, HomeworkToForm(hw)).week == Some(hw.week)
    ensures hw.week.NaN? ==> !HasRequired(PayloadOf(id, HomeworkToForm(hw)))
  {
    if hw.week.Finite? && hw.week.value >= 0 {
      NumberOfNatToString(hw.week.value);
    }
    if hw.week.NaN? {
      assert NumberOf("NaN") == NaN by {
        assert !IsDigit("NaN"[0]);
        TrimOfTrimmed("NaN");
      }
    }
  }

  /** An item as `buildLinks` writes it: a non-empty trimmed url, and an icon that is non-empty and trimmed when present. */
  predicate Clean(item: LinkItem) {
    item.url != "" && Trim(item.url) == item.url
    && (item.icon.Some? ==> item.icon.value != "" && Trim(item.icon.value) == item.icon.value)
  }

  /** A link value `buildLinks` could have produced: canonical, at most three items, all clean. */
  predicate Editable(link: Option<HomeworkLink>) {
    var items := ToLinkArray(link);
    Canonical(items) == link && |items| <= 3 && forall k | 0 <= k < |items| :: Clean(items[k])
  }

  /** The form fields of a link kind with icons, and the body slots `handleSubmit` makes of them. */
  function ResubmittedSlots(items: seq<LinkItem>): LinkSlots {
    BodySlots(FormSlots(UrlAt(items, 0), UrlAt(items, 1), UrlAt(items, 2), IconAt(items, 0), IconAt(items, 1), IconAt(items, 2)), true)
  }

  /** The item the route rebuilds from one url field and one icon field of the form. */
  lemma SlotRoundTrip(items: seq<LinkItem>, i: nat)
    requires i < |items| && Clean(items[i])
    ensures SlotItem(OrUndefined(Some(UrlAt(items, i))), OrUndefined(Some(IconAt(items, i)))) == Some(items[i])
  {
    var item := items[i];
    assert OrUndefined(Some(UrlAt(items, i))) == Some(item.url);
    var icon := OrUndefined(Some(IconAt(items, i)));
    assert IconOf(icon) == item.icon by {
      if item.icon.None? {
        assert icon == None;
      } else {
        assert icon == item.icon;
      }
    }
    assert SlotItem(Some(item.url), icon) == Some(LinkItem(item.url, IconOf(icon)));
  }

  /** The piece one slot contributes when the form was filled from `items`. */
  lemma SlotPiece(items: seq<LinkItem>, i: nat)
    requires forall k | 0 <= k < |items| :: Clean(items[k])
    ensures AsSeq(SlotItem(OrUndefined(Some(UrlAt(items, i))), OrUndefined(Some(IconAt(items, i)))))
            == if i < |items| then [items[i]] else []
  {
    if i < |items| {
      SlotRoundTrip(items, i);
    }
  }

  /** A list of at most three items is the concatenation of the pieces that hold its first, second and third item. */
  lemma ThreeParts<T>(items: seq<T>, a: seq<T>, b: seq<T>, c: seq<T>)
    requires |items| <= 3
    requires a == (if 0 < |items| then [items[0]] else [])
    requires b == (if 1 < |items| then [items[1]] else [])
    requires c == (if 2 < |items| then [items[2]] else [])
    ensures a + b + c == items
  {
    if |items| == 3 {
      assert items == [items[0]] + [items[1]] + [items[2]];
    } else if |items| == 2 {
      assert items == [items[0]] + [items[1]];
    }
  }

  /** Filling the form from up to three clean items and submitting it rebuilds the same items. */
  lemma ItemsRoundTrip(items: seq<LinkItem>)
    requires |items| <= 3 && forall k | 0 <= k < |items| :: Clean(items[k])
    ensures SlotItems(ResubmittedSlots(items)) == items
  {
    var s := ResubmittedSlots(items);
    var a := AsSeq(SlotItem(s.url1, s.icon1));
    var b := AsSeq(SlotItem(s.url2, s.icon2));
    var c := AsSeq(SlotItem(s.url3, s.icon3));
    SlotPiece(items, 0);
    SlotPiece(items, 1);
    SlotPiece(items, 2);
    ThreeParts(items, a, b, c);
    assert SlotItems(s) == a + b + c;
  }

  /** Code and platform links written by the route survive an edit that leaves them alone. */
  lemma IconLinksRoundTrip(link: Option<HomeworkLink>)
    requires Editable(link)
    ensures Canonical(SlotItems(BodySlots(SlotsOf(link, true), true))) == link
  {
    var items := ToLinkArray(link);
    assert BodySlots(SlotsOf(link, true), true) == ResubmittedSlots(items);
    ItemsRoundTrip(items);
  }

  /** Video and slides links come back without icons, because the form carries none for them. */
  lemma UrlOnlyLinksLoseIcons(link: Option<HomeworkLink>)
    ensures forall k | 0 <= k < |SlotItems(BodySlots(SlotsOf(link, false), false))| ::
      SlotItems(BodySlots(SlotsOf(link, false), false))[k].icon.None?
  {
    var slots := BodySlots(SlotsOf(link, false), false);
    IconlessSlotsGiveIconlessItems(slots);
  }

  /** No item carries an icon. */
  predicate IconFree(items: seq<LinkItem>) {
    forall k | 0 <= k < |items| :: items[k].icon.None?
  }

  lemma IconFreeConcat(x: seq<LinkItem>, y: seq<LinkItem>)
    requires IconFree(x) && IconFree(y)
    ensures IconFree(x + y)
  {
  }

  /** A slot without an icon gives at most one item, and that item has no icon. */
  lemma IconlessSlot(url: Option<string>)
    ensures IconFree(AsSeq(SlotItem(url, None)))
  {
    var r := SlotItem(url, None);
    if r.Some? {
      assert r.value.icon == IconOf(None);
    }
  }

  /** Slots without icons give items without icons. */
  lemma IconlessSlotsGiveIconlessItems(slots: LinkSlots)
    requires slots.icon1.None? && slots.icon2.None? && slots.icon3.None?
    ensures IconFree(SlotItems(slots))
  {
    var a := AsSeq(SlotItem(slots.url1, None));
    var b := AsSeq(SlotItem(slots.url2, None));
    var c := AsSeq(SlotItem(slots.url3, None));
    IconlessSlot(slots.url1);
    IconlessSlot(slots.url2);
    IconlessSlot(slots.url3);
    IconFreeConcat(a, b);
    IconFreeConcat(a + b, c);
  }

  // ---------------------------------------------------------------- the dialog

  /** The dialog's state as a value. */
  type ModalState = EditState<Homework, HomeworkForm>

  /** The body `handleSubmit` sends: none without an entry, the payload for the entry's id and the form otherwise. */
  function Sent(st: ModalState): (r: Option<HomeworkBody>)
    ensures r.None? <==> st.entry.None?
    ensures r.Some? ==> r.value.id == Some(st.entry.value.id)
  {
    if st.entry.None? then None else Some(PayloadOf(st.entry.value.id, st.form))
  }

  /** The dialog, whose fields `handleSubmit` updates in place. */
  class EditHomeworkModal {
    var homework: Option<Homework>
    var form: HomeworkForm
    var loading: bool
    var submitError: string
    var closed: bool

    /** Opening the dialog on an entry fills the form from it and clears the error. */
    constructor(homework: Option<Homework>, blank: HomeworkForm)
      ensures this.homework == homework && !loading && submitError == "" && !closed
      ensures homework.Some? ==> form == HomeworkToForm(homework.value)
      ensures homework.None? ==> form == blank
    {
      this.homework := homework;
      form := if homework.Some? then HomeworkToForm(homework.value) else blank;
      loading := false;
      submitError := "";
      closed := false;
    }

    function State(): ModalState
      reads this
    {
      EditState(homework, form, loading, submitError, closed)
    }

    /** `handleSubmit`, given what the request came to; a failure falls back to "更新失敗". */
    method Submit(outcome: SubmitOutcome) returns (sent: Option<HomeworkBody>)
      modifies this
      ensures sent == Sent(old(State()))
      ensures State() == AfterEdit(old(State()), outcome, UpdateFailed)
    {
      if homework.None? {
        return None;
      }
      sent := Sent(State());
      submitError := "";
      loading := true;
      if Succeeded(outcome) {
        closed := true;
      } else {
        submitError := FailureMessage(outcome, UpdateFailed);
      }
      loading := false;
    }
  }
}
