/**
 * The portal's content lists: the built-in lessons and homework, followed by the entries the
 * admin pages have persisted in `data/lessons.json` and `data/homework.json`. Each file is
 * abstracted to what parsing it yields; appends and updates rewrite a file as a JSON array.
 */
module DataStore {
  import opened Wrappers
  import opened JsText

  /** One homework link, with an optional icon path. */
  datatype LinkItem = LinkItem(url: string, icon: Option<string>)

  /** A homework link field: one bare url, or a list of links with optional icons. */
  datatype HomeworkLink = SingleUrl(url: string) | LinkList(items: seq<LinkItem>)

  /** A homework entry; `None` marks an optional key that is absent. */
  datatype Homework = Homework(
    id: string, courseId: string, topic: string, week: NumberValue, date: string, deadline: string,
    video: Option<HomeworkLink>, slides: Option<HomeworkLink>, code: Option<HomeworkLink>, platform: Option<HomeworkLink>,
    videoIcon: Option<string>, slidesIcon: Option<string>, codeIcon: Option<string>, platformIcon: Option<string>,
    ta: Option<string>)

  /**
   * A lesson entry. The built-in lessons have no `week` and no link fields; `materialLinks`
   * is `None` when the stored value is not an array.
   */
  datatype Lesson = Lesson(
    id: string, courseId: string, title: string, week: Option<NumberValue>, date: string,
    videoCount: Option<NumberValue>, materialLinks: Option<seq<string>>,
    youtubeLink: Option<string>, pptLink: Option<string>, pdfLink: Option<string>, videoLink: Option<string>)

  /**
   * What reading and parsing a data file gives: no file, whitespace only (which `JSON.parse`
   * rejects), text that does not parse, a JSON value that is not an array, or an array.
   */
  datatype FileState<T> = Missing | Blank | Unparseable | NotArray | ArrayOf(items: seq<T>)

  /** `readJsonArray`: the array in the file, and `[]` in every other case. */
  function ReadJsonArray<T>(f: FileState<T>): (r: seq<T>)
    ensures f.ArrayOf? ==> r == f.items
    ensures !f.ArrayOf? ==> r == []
  {
    match f
    case ArrayOf(items) => items
    case _ => []
  }

  /** `getLessons`/`getHomework` for one file: the built-in list, followed by the file's array if it has one. */
  function WithExtras<T>(base: seq<T>, f: FileState<T>): seq<T> {
    if f.Missing? then base
    else match f
      case ArrayOf(extra) => base + extra
      case _ => base
  }

  /** The extras the getters add are exactly what `readJsonArray` reads. */
  lemma WithExtrasReadsArray<T>(base: seq<T>, f: FileState<T>)
    ensures WithExtras(base, f) == base + ReadJsonArray(f)
    ensures |WithExtras(base, f)| >= |base| && WithExtras(base, f)[..|base|] == base
  {
    if !f.ArrayOf? {
      assert base + [] == base;
    }
  }

  /** `{ ...old, ...updates, id: old.id }` where `None` in an optional field of `updates` means the key is absent. */
  function Override<T>(stored: Option<T>, update: Option<T>): (r: Option<T>)
    ensures update.Some? ==> r == update
    ensures update.None? ==> r == stored
  {
    if update.Some? then update else stored
  }

  /**
   * The merge `updateHomework` performs: every key `updates` carries wins, absent optional
   * keys keep the stored value, and the stored id is kept whatever `updates.id` says.
   */
  function Merge(stored: Homework, updates: Homework): (r: Homework)
    ensures r.id == stored.id
  {
    Homework(stored.id, updates.courseId, updates.topic, updates.week, updates.date, updates.deadline,
      Override(stored.video, updates.video), Override(stored.slides, updates.slides),
      Override(stored.code, updates.code), Override(stored.platform, updates.platform),
      Override(stored.videoIcon, updates.videoIcon), Override(stored.slidesIcon, updates.slidesIcon),
      Override(stored.codeIcon, updates.codeIcon), Override(stored.platformIcon, updates.platformIcon),
      Override(stored.ta, updates.ta))
  }

  /** The merged entry takes every present key of `updates` except the id, and keeps the rest. */
  lemma MergeKeepsAbsent(stored: Homework, updates: Homework)
    ensures var r := Merge(stored, updates);
      r.id == stored.id && r.courseId == updates.courseId && r.topic == updates.topic
      && r.week == updates.week && r.date == updates.date && r.deadline == updates.deadline
      && (updates.video.None? ==> r.video == stored.video) && (updates.video.Some? ==> r.video == updates.video)
      && (updates.slides.None? ==> r.slides == stored.slides) && (updates.slides.Some? ==> r.slides == updates.slides)
      && (updates.code.None? ==> r.code == stored.code) && (updates.code.Some? ==> r.code == updates.code)
      && (updates.platform.None? ==> r.platform == stored.platform) && (updates.platform.Some? ==> r.platform == updates.platform)
      && (updates.ta.None? ==> r.ta == stored.ta) && (updates.ta.Some? ==> r.ta == updates.ta)
  {
  }

  /** Merging an entry with itself changes nothing. */
  lemma MergeSelf(h: Homework)
    ensures Merge(h, h) == h
  {
  }

  /** `findIndex((h) => h.id === id)`, with `None` for `-1`. */
  function FindIndex(list: seq<Homework>, id: string): (r: Option<nat>)
    ensures r.Some? ==> r.value < |list| && list[r.value].id == id
                        && forall k | 0 <= k < r.value :: list[k].id != id
    ensures r.None? ==> forall k | 0 <= k < |list| :: list[k].id != id
    decreases |list|
  {
    if list == [] then None
    else if list[0].id == id then Some(0)
    else
      var rest := FindIndex(list[1..], id);
      if rest.None? then None else Some(rest.value + 1)
  }

  /** The list `updateHomework` writes back: the first entry with the id merged, when there is one. */
  function Updated(list: seq<Homework>, id: string, updates: Homework): seq<Homework> {
    match FindIndex(list, id)
    case None => list
    case Some(i) => list[i := Merge(list[i], updates)]
  }

  /** Only the first entry with the id changes; it keeps its id, and every other entry and the length stay. */
  lemma UpdatedOnlyFirst(list: seq<Homework>, id: string, updates: Homework)
    requires FindIndex(list, id).Some?
    ensures var i := FindIndex(list, id).value; var r := Updated(list, id, updates);
      |r| == |list| && r[i] == Merge(list[i], updates) && r[i].id == id
      && (forall k | 0 <= k < |list| && k != i :: r[k] == list[k])
      && (forall k | 0 <= k < i :: list[k].id != id)
  {
  }

  /** The data directory: the built-in lists, and the two files as last read. */
  class Store {
    const builtinLessons: seq<Lesson>
    const builtinHomework: seq<Homework>
    var lessonsFile: FileState<Lesson>
    var homeworkFile: FileState<Homework>

    constructor(builtinLessons: seq<Lesson>, builtinHomework: seq<Homework>,
                lessonsFile: FileState<Lesson>, homeworkFile: FileState<Homework>)
      ensures this.builtinLessons == builtinLessons && this.builtinHomework == builtinHomework
      ensures this.lessonsFile == lessonsFile && this.homeworkFile == homeworkFile
    {
      this.builtinLessons := builtinLessons;
      this.builtinHomework := builtinHomework;
      this.lessonsFile := lessonsFile;
      this.homeworkFile := homeworkFile;
    }

    /** `getLessons`: the built-in lessons, then the persisted ones; the built-ins alone when the file has no array. */
    function GetLessons(): (r: seq<Lesson>)
      reads this
      ensures r == builtinLessons + ReadJsonArray(lessonsFile)
    {
      WithExtrasReadsArray(builtinLessons, lessonsFile);
      WithExtras(builtinLessons, lessonsFile)
    }

    /** `getHomework`: the built-in homework, then the persisted entries. */
    function GetHomework(): (r: seq<Homework>)
      reads this
      ensures r == builtinHomework + GetPersistedHomework()
    {
      WithExtrasReadsArray(builtinHomework, homeworkFile);
      WithExtras(builtinHomework, homeworkFile)
    }

    /** `getPersistedHomework`: only the file's entries, never the built-in ones. */
    function GetPersistedHomework(): (r: seq<Homework>)
      reads this
      ensures r == ReadJsonArray(homeworkFile)
    {
      match homeworkFile
      case ArrayOf(arr) => arr
      case _ => []
    }

    /** `appendLesson`: the lessons file becomes its old array (or `[]`) plus the lesson. */
    method AppendLesson(lesson: Lesson)
      modifies this
      ensures lessonsFile == ArrayOf(old(ReadJsonArray(lessonsFile)) + [lesson])
      ensures GetLessons() == old(GetLessons()) + [lesson]
      ensures homeworkFile == old(homeworkFile)
    {
      var existing := ReadJsonArray(lessonsFile);
      lessonsFile := ArrayOf(existing + [lesson]);
    }

    /** `appendHomework`: the homework file becomes its old array (or `[]`) plus the entry. */
    method AppendHomework(hw: Homework)
      modifies this
      ensures homeworkFile == ArrayOf(old(GetPersistedHomework()) + [hw])
      ensures GetHomework() == old(GetHomework()) + [hw]
      ensures lessonsFile == old(lessonsFile)
    {
      var existing := ReadJsonArray(homeworkFile);
      homeworkFile := ArrayOf(existing + [hw]);
    }

    /**
     * `updateHomework`: finds the first persisted entry with the id and merges `updates` into
     * it. Without a match it reports `false` and writes nothing.
     */
    method UpdateHomework(id: string, updates: Homework) returns (found: bool)
      modifies this
      ensures found <==> FindIndex(old(GetPersistedHomework()), id).Some?
      ensures !found ==> homeworkFile == old(homeworkFile)
      ensures found ==> homeworkFile == ArrayOf(Updated(old(GetPersistedHomework()), id, updates))
      ensures lessonsFile == old(lessonsFile)
    {
      var list := ReadJsonArray(homeworkFile);
      var idx := 0;
      while idx < |list| && list[idx].id != id
        invariant 0 <= idx <= |list|
        invariant forall k | 0 <= k < idx :: list[k].id != id
      {
        idx := idx + 1;
      }
      if idx == |list| {
        return false;
      }
      FindIndexIsFirst(list, id, idx);
      list := list[idx := Merge(list[idx], updates)];
      homeworkFile := ArrayOf(list);
      found := true;
    }
  }

  /** An index holding the id with no earlier match is the one `FindIndex` gives. */
  lemma FindIndexIsFirst(list: seq<Homework>, id: string, i: nat)
    requires i < |list| && list[i].id == id
    requires forall k | 0 <= k < i :: list[k].id != id
    ensures FindIndex(list, id) == Some(i)
  {
  }

  /** The persisted list never holds the built-in entries: `getHomework` is the built-ins followed by it. */
  lemma PersistedExcludesBuiltin(s: Store)
    ensures s.GetHomework()[..|s.builtinHomework|] == s.builtinHomework
    ensures s.GetHomework()[|s.builtinHomework|..] == s.GetPersistedHomework()
  {
  }
}
