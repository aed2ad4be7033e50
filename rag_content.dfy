/**
 * The lexical retrieval engine: a fixed table of course-content chunks, and
 * `retrieveChunks`, which keeps the chunks in scope for a course (and lesson), scores
 * each by term overlap, sorts the scores stably in descending order, drops zero scores
 * and returns the first `k` chunks.
 */
module RagContent {
  import opened Wrappers
  import opened JsText

  /** One retrievable snippet of course knowledge. A chunk without a lesson is course-wide. */
  datatype Chunk = Chunk(
    id: string,
    courseId: string,
    lessonId: Option<string>,
    title: string,
    content: string,
    keywords: seq<string>)

  /** The built-in knowledge base, in table order. */
  const RagChunks: seq<Chunk> := [
    Chunk("ml-intro", "ml-2026", Some("lesson-1"), "機器學習導論",
      "機器學習是讓電腦從資料中學習的技術，大致分為監督式學習（有標籤）、非監督式學習（無標籤）與強化學習。本課程會涵蓋監督式與非監督式學習的基礎。",
      ["機器學習", "導論", "監督式", "非監督式", "ML", "introduction"]),
    Chunk("ml-gradient", "ml-2026", Some("lesson-2"), "梯度下降",
      "梯度下降是一種優化演算法，用於尋找函數的最小值。透過計算損失函數對參數的梯度，沿梯度的反方向更新參數。可搭配學習率、SGD、Mini-batch 等變體。",
      ["梯度", "gradient", "下降", "優化", "optimization", "損失函數", "學習率"]),
    Chunk("ml-linear", "ml-2026", Some("lesson-2"), "線性回歸",
      "線性回歸假設目標與特徵呈線性關係，以最小化均方誤差（MSE）來擬合參數。可用解析解（正規方程）或梯度下降求解。",
      ["線性回歸", "linear regression", "MSE", "均方誤差"]),
    Chunk("ml-logistic", "ml-2026", Some("lesson-3"), "邏輯回歸與分類",
      "邏輯回歸用於二分類，以 sigmoid 函數輸出機率。損失函數常用交叉熵（Cross-Entropy）。可推廣到多分類（softmax）。",
      ["邏輯回歸", "logistic", "分類", "classification", "sigmoid", "交叉熵", "cross-entropy"]),
    Chunk("ml-neural", "ml-2026", Some("lesson-4"), "神經網路基礎",
      "神經網路由多層神經元組成，透過前向傳播計算輸出，反向傳播計算梯度。常見激勵函數有 ReLU、sigmoid。可透過正則化、dropout 減緩過擬合。",
      ["神經網路", "neural network", "前向傳播", "反向傳播", "ReLU", "過擬合", "overfitting", "dropout"]),
    Chunk("ml-overfitting", "ml-2026", None, "過擬合與正則化",
      "過擬合指模型在訓練集表現好、在測試集表現差。緩解方式：增加資料、正則化（L1/L2）、dropout、early stopping、資料增強等。",
      ["過擬合", "overfitting", "正則化", "regularization", "L1", "L2", "early stopping"]),
    Chunk("ml-loss", "ml-2026", None, "損失函數",
      "損失函數衡量預測與真實的差異。回歸常用均方誤差（MSE）；分類常用交叉熵（Cross-Entropy）。選擇需與任務與輸出層配合。",
      ["損失函數", "loss", "MSE", "交叉熵", "cross-entropy", "均方誤差"]),
    Chunk("ml-dl-intro", "ml-2026", Some("lesson-5"), "深度學習入門",
      "深度學習指多層神經網路，可學習階層特徵。實務上需注意初始化、激勵函數、優化器（如 Adam）與超參數調校。",
      ["深度學習", "deep learning", "Adam", "優化器", "超參數"]),
    Chunk("dl-basics", "dl-2026", Some("lesson-1-dl"), "深度學習基礎",
      "深度學習基礎包含多層感知器（MLP）、反向傳播、常見激勵函數與權重初始化方式。實作上多用 GPU 與框架（如 PyTorch、TensorFlow）。",
      ["深度學習", "MLP", "PyTorch", "TensorFlow", "GPU"]),
    Chunk("dl-cnn", "dl-2026", Some("lesson-2-dl"), "卷積神經網路",
      "卷積神經網路（CNN）透過卷積層提取局部特徵，常用於影像分類、物體偵測。經典架構包括 LeNet、AlexNet、VGG、ResNet。",
      ["CNN", "卷積", "convolution", "ResNet", "VGG", "影像", "image"]),
    Chunk("course-ml", "ml-2026", None, "課程簡介：機器學習",
      "本課程涵蓋機器學習的基礎理論與實務應用，包括監督式學習、非監督式學習、深度學習等主題。",
      ["機器學習", "Machine Learning", "監督式", "非監督式", "深度學習"]),
    Chunk("course-dl", "dl-2026", None, "課程簡介：深度學習",
      "深入探討深度神經網路、卷積神經網路、循環神經網路等深度學習模型與應用。",
      ["深度學習", "Deep Learning", "CNN", "RNN", "神經網路"])
  ]

  // ---------------------------------------------------------------- query terms

  /** `s.split(/\s+/).filter(Boolean)`: the maximal runs of non-whitespace characters, in order. */
  function Words(s: string): (r: seq<string>)
    ensures forall k | 0 <= k < |r| :: r[k] != ""
    ensures IsBlank(s) ==> r == []
    decreases |s|
  {
    if s == [] then []
    else
      var rest := Words(s[1..]);
      if IsSpace(s[0]) then rest
      else if s[1..] == [] || IsSpace(s[1]) then [[s[0]]] + rest
      else [[s[0]] + rest[0]] + rest[1..]
  }

  /** A non-blank string has at least one word. */
  lemma {:induction false} WordsOfNonBlank(s: string)
    requires !IsBlank(s)
    ensures Words(s) != []
    decreases |s|
  {
    if IsSpace(s[0]) {
      WordsOfNonBlank(s[1..]);
    } else if s[1..] != [] && !IsSpace(s[1]) {
      assert !IsBlank(s[1..]) by { assert !IsSpace(s[1..][0]); }
      WordsOfNonBlank(s[1..]);
    }
  }

  /**
   * The search terms of a query: its lowercased, trimmed form split into words; when
   * that leaves no word the normalised query itself is the one term (`terms.push`).
   */
  function QueryTerms(query: string): (terms: seq<string>)
    ensures |terms| >= 1
  {
    var lower := Trim(Lower(query));
    var words := Words(lower);
    if |words| == 0 then [lower] else words
  }

  /** A blank query gives exactly one term, the empty string. */
  lemma QueryTermsOfBlank(query: string)
    requires IsBlank(query)
    ensures QueryTerms(query) == [""]
  {
    LowerKeepsBlank(query);
  }

  /** Any other query gives only non-empty terms, so the two cases are told apart by the terms alone. */
  lemma QueryTermsOfNonBlank(query: string)
    requires !IsBlank(query)
    ensures forall k | 0 <= k < |QueryTerms(query)| :: QueryTerms(query)[k] != ""
    ensures QueryTerms(query) != [""]
  {
    LowerKeepsBlank(query);
    var lower := Trim(Lower(query));
    assert !IsSpace(lower[0]);
    WordsOfNonBlank(lower);
    assert QueryTerms(query) == Words(lower);
    assert QueryTerms(query)[0] != [""][0];
  }

  // ---------------------------------------------------------------- scope filter

  /** The scope test: same course, and no lesson asked for, or the same lesson, or a course-wide chunk. */
  predicate InScope(c: Chunk, courseId: string, lessonId: Option<string>) {
    && c.courseId == courseId
    && (|| lessonId.None? || lessonId.value == ""
        || c.lessonId == lessonId
        || c.lessonId.None? || c.lessonId.value == "")
  }

  /** `ragChunks.filter(...)`: the chunks in scope, in table order. */
  function FilterScope(cs: seq<Chunk>, courseId: string, lessonId: Option<string>): (r: seq<Chunk>)
    ensures |r| <= |cs|
    ensures forall c :: c in r <==> c in cs && InScope(c, courseId, lessonId)
    decreases |cs|
  {
    if cs == [] then []
    else
      var rest := FilterScope(cs[1..], courseId, lessonId);
      if InScope(cs[0], courseId, lessonId) then [cs[0]] + rest else rest
  }

  // ---------------------------------------------------------------- scoring

  /** The lowercased text searched for substring hits: title, content and keywords, space-separated. */
  function Haystack(c: Chunk): string {
    Lower(c.title + " " + c.content + " " + Join(c.keywords, " "))
  }

  /** A keyword matches a term when either contains the other (keyword lowercased). */
  predicate KeywordMatches(kw: string, t: string) {
    Contains(Lower(kw), t) || Contains(t, Lower(kw))
  }

  /** How many keywords (with repetition) match the term. */
  function KeywordHits(keywords: seq<string>, t: string): (n: nat)
    ensures n <= |keywords|
    decreases |keywords|
  {
    if keywords == [] then 0
    else KeywordHits(keywords[..|keywords| - 1], t) + (if KeywordMatches(keywords[|keywords| - 1], t) then 1 else 0)
  }

  /** One term's contribution: 1 for a haystack hit, plus one per matching keyword. */
  function TermScore(c: Chunk, t: string): nat {
    (if Contains(Haystack(c), t) then 1 else 0) + KeywordHits(c.keywords, t)
  }

  /** A chunk's score: the sum of its terms' contributions. */
  function Score(c: Chunk, terms: seq<string>): nat
    decreases |terms|
  {
    if terms == [] then 0 else Score(c, terms[..|terms| - 1]) + TermScore(c, terms[|terms| - 1])
  }

  /** Every keyword contains the empty term. */
  lemma {:induction false} KeywordHitsOfEmpty(keywords: seq<string>)
    ensures KeywordHits(keywords, "") == |keywords|
    decreases |keywords|
  {
    if keywords != [] {
      KeywordHitsOfEmpty(keywords[..|keywords| - 1]);
      ContainsSelfAndEmpty(Lower(keywords[|keywords| - 1]));
    }
  }

  /** The empty term (a blank query) scores every chunk 1 plus its number of keywords. */
  lemma ScoreOfEmptyTerm(c: Chunk)
    ensures Score(c, [""]) == 1 + |c.keywords|
  {
    assert [""][..0] == [];
    ContainsSelfAndEmpty(Haystack(c));
    KeywordHitsOfEmpty(c.keywords);
  }

  /** The scoring loop: for each term, one point for a haystack hit and one per matching keyword. */
  method ScoreChunk(c: Chunk, terms: seq<string>) returns (score: nat)
    ensures score == Score(c, terms)
  {
    var text := Haystack(c);
    score := 0;
    for i := 0 to |terms|
      invariant score == Score(c, terms[..i])
    {
      var t := terms[i];
      if Contains(text, t) {
        score := score + 1;
      }
      for j := 0 to |c.keywords|
        invariant score == Score(c, terms[..i]) + (if Contains(text, t) then 1 else 0) + KeywordHits(c.keywords[..j], t)
      {
        assert c.keywords[..j + 1][..j] == c.keywords[..j];
        if KeywordMatches(c.keywords[j], t) {
          score := score + 1;
        }
      }
      assert c.keywords[..|c.keywords|] == c.keywords;
      assert terms[..i + 1][..i] == terms[..i];
    }
    assert terms[..|terms|] == terms;
  }

  // ---------------------------------------------------------------- ranking

  /** A chunk paired with its score for one query. */
  datatype Scored = Scored(chunk: Chunk, score: nat)

  /** `filtered.map(...)`: each in-scope chunk with its score, in the same order. */
  function ScoreAll(cs: seq<Chunk>, terms: seq<string>): (r: seq<Scored>)
    ensures |r| == |cs|
    ensures forall i | 0 <= i < |cs| :: r[i] == Scored(cs[i], Score(cs[i], terms))
  {
    seq(|cs|, i requires 0 <= i < |cs| => Scored(cs[i], Score(cs[i], terms)))
  }

  /** Scores never increase from left to right. */
  predicate SortedDesc(s: seq<Scored>) {
    forall i, j | 0 <= i < j < |s| :: s[i].score >= s[j].score
  }

  /** Every score is at least `m`. */
  predicate AllAtLeast(s: seq<Scored>, m: nat) {
    forall i | 0 <= i < |s| :: s[i].score >= m
  }

  /**
   * One step of a stable descending insertion sort: `x` goes after every element whose
   * score is at least its own, searching from the back.
   */
  function Insert(x: Scored, s: seq<Scored>): (r: seq<Scored>)
    ensures |r| == |s| + 1
    decreases |s|
  {
    if s == [] || s[|s| - 1].score >= x.score then s + [x]
    else Insert(x, s[..|s| - 1]) + [s[|s| - 1]]
  }

  /** Inserting adds exactly `x`. */
  lemma {:induction false} InsertPermutes(x: Scored, s: seq<Scored>)
    ensures multiset(Insert(x, s)) == multiset(s) + multiset{x}
    decreases |s|
  {
    if s != [] && s[|s| - 1].score < x.score {
      assert s == s[..|s| - 1] + [s[|s| - 1]];
      InsertPermutes(x, s[..|s| - 1]);
    }
  }

  lemma {:induction false} InsertAtLeast(x: Scored, s: seq<Scored>, m: nat)
    requires AllAtLeast(s, m) && x.score >= m
    ensures AllAtLeast(Insert(x, s), m)
    decreases |s|
  {
    if s != [] && s[|s| - 1].score < x.score {
      InsertAtLeast(x, s[..|s| - 1], m);
    }
  }

  /** Inserting into a descending sequence keeps it descending. */
  lemma {:induction false} InsertSorted(x: Scored, s: seq<Scored>)
    requires SortedDesc(s)
    ensures SortedDesc(Insert(x, s))
    decreases |s|
  {
    if s != [] && s[|s| - 1].score < x.score {
      var front := s[..|s| - 1];
      InsertSorted(x, front);
      InsertAtLeast(x, front, s[|s| - 1].score);
    }
  }

  /** `scored.sort((a, b) => b.score - a.score)`: Array.prototype.sort is stable, so this is stable insertion sort. */
  function Ranked(s: seq<Scored>): (r: seq<Scored>)
    ensures |r| == |s|
    decreases |s|
  {
    if s == [] then [] else Insert(s[|s| - 1], Ranked(s[..|s| - 1]))
  }

  /** The ranking is a permutation of its input. */
  lemma {:induction false} RankedPermutes(s: seq<Scored>)
    ensures multiset(Ranked(s)) == multiset(s)
    decreases |s|
  {
    if s != [] {
      assert s == s[..|s| - 1] + [s[|s| - 1]];
      RankedPermutes(s[..|s| - 1]);
      InsertPermutes(s[|s| - 1], Ranked(s[..|s| - 1]));
    }
  }

  /** The ranking is in descending score order. */
  lemma {:induction false} RankedSorted(s: seq<Scored>)
    ensures SortedDesc(Ranked(s))
    decreases |s|
  {
    if s != [] {
      RankedSorted(s[..|s| - 1]);
      InsertSorted(s[|s| - 1], Ranked(s[..|s| - 1]));
    }
  }

  /** The elements of `s` with score `v`, in order. */
  function Bucket(s: seq<Scored>, v: nat): seq<Scored>
    decreases |s|
  {
    if s == [] then []
    else (if s[0].score == v then [s[0]] else []) + Bucket(s[1..], v)
  }

  lemma {:induction false} BucketAppend(a: seq<Scored>, b: seq<Scored>, v: nat)
    ensures Bucket(a + b, v) == Bucket(a, v) + Bucket(b, v)
    decreases |a|
  {
    if a == [] {
      assert a + b == b;
    } else {
      var head := if a[0].score == v then [a[0]] else [];
      assert (a + b)[0] == a[0];
      assert (a + b)[1..] == a[1..] + b;
      assert Bucket(a + b, v) == head + Bucket(a[1..] + b, v);
      assert Bucket(a, v) == head + Bucket(a[1..], v);
      BucketAppend(a[1..], b, v);
      assert head + (Bucket(a[1..], v) + Bucket(b, v)) == (head + Bucket(a[1..], v)) + Bucket(b, v);
    }
  }

  /** Inserting never reorders elements of equal score. */
  lemma {:induction false} BucketInsert(x: Scored, s: seq<Scored>, v: nat)
    ensures Bucket(Insert(x, s), v) == Bucket(s, v) + Bucket([x], v)
    decreases |s|
  {
    BucketAppend(s, [x], v);
    if s != [] && s[|s| - 1].score < x.score {
      var last := s[|s| - 1];
      var front := s[..|s| - 1];
      assert s == front + [last];
      BucketInsert(x, front, v);
      BucketAppend(Insert(x, front), [last], v);
      BucketAppend(front, [last], v);
      BucketAppend(front, [x], v);
    }
  }

  /**
   * The ranking is stable: for every score, the chunks with that score appear in the
   * ranking in the same relative order as in the input.
   */
  lemma {:induction false} RankedIsStable(s: seq<Scored>, v: nat)
    ensures Bucket(Ranked(s), v) == Bucket(s, v)
    decreases |s|
  {
    if s != [] {
      var front := s[..|s| - 1];
      RankedIsStable(front, v);
      BucketInsert(s[|s| - 1], Ranked(front), v);
      assert s == front + [s[|s| - 1]];
      BucketAppend(front, [s[|s| - 1]], v);
    }
  }

  /** Moving past a strictly smaller last element. */
  lemma InsertPastLast(x: Scored, s: seq<Scored>, j: nat)
    requires 0 < j <= |s| && s[j - 1].score < x.score
    ensures Insert(x, s[..j]) + s[j..] == Insert(x, s[..j - 1]) + s[j - 1..]
  {
    assert s[..j][..j - 1] == s[..j - 1];
    assert s[j - 1..] == [s[j - 1]] + s[j..];
  }

  /** Where the search from the back stops, the element goes in. */
  lemma InsertStops(x: Scored, s: seq<Scored>, j: nat)
    requires j <= |s| && (j == 0 || s[j - 1].score >= x.score)
    ensures Insert(x, s[..j]) + s[j..] == s[..j] + [x] + s[j..]
  {
  }

  /** Shifting the element before the gap one place right moves the gap one place left. */
  lemma ShiftStep(arr: seq<Scored>, sorted: seq<Scored>, tail: seq<Scored>, j: nat, x: Scored)
    requires 0 < j <= |sorted| && arr == sorted[..j] + [x] + sorted[j..] + tail
    ensures arr[j - 1] == sorted[j - 1]
    ensures arr[j := arr[j - 1]] == sorted[..j - 1] + [sorted[j - 1]] + sorted[j - 1..] + tail
  {
    assert arr[j - 1] == sorted[..j][j - 1];
    assert sorted[..j] == sorted[..j - 1] + [sorted[j - 1]];
    assert sorted[j - 1..] == [sorted[j - 1]] + sorted[j..];
  }

  /** Writing the key into the gap. */
  lemma FillGap(arr: seq<Scored>, sorted: seq<Scored>, tail: seq<Scored>, j: nat, x: Scored, key: Scored)
    requires j <= |sorted| && arr == sorted[..j] + [x] + sorted[j..] + tail
    ensures arr[j := key] == sorted[..j] + [key] + sorted[j..] + tail
  {
    assert |sorted[..j]| == j;
  }

  /** The inner loop of the in-place sort: `a[i]` moves left past every strictly smaller score. */
  method InsertLast(a: array<Scored>, i: nat)
    requires i < a.Length
    modifies a
    ensures a[..] == Insert(old(a[i]), old(a[..i])) + old(a[i + 1..])
  {
    var key := a[i];
    ghost var sorted := a[..i];
    ghost var tail := a[i + 1..];
    var j := i;
    assert sorted[..j] == sorted && sorted[j..] == [];
    assert a[..] == sorted[..j] + [a[j]] + sorted[j..] + tail;
    while j > 0 && a[j - 1].score < key.score
      invariant 0 <= j <= i && a.Length == |sorted| + 1 + |tail|
      invariant a[..] == sorted[..j] + [a[j]] + sorted[j..] + tail
      invariant Insert(key, sorted) == Insert(key, sorted[..j]) + sorted[j..]
    {
      ShiftStep(a[..], sorted, tail, j, a[j]);
      InsertPastLast(key, sorted, j);
      ghost var before := a[..];
      a[j] := a[j - 1];
      assert a[..] == before[j := before[j - 1]];
      j := j - 1;
    }
    if j > 0 {
      ShiftStep(a[..], sorted, tail, j, a[j]);
    }
    InsertStops(key, sorted, j);
    FillGap(a[..], sorted, tail, j, a[j], key);
    ghost var before := a[..];
    a[j] := key;
    assert a[..] == before[j := key];
  }

  /** One round of the outer loop turns a ranked prefix of length `i` into one of length `i + 1`. */
  lemma SortStep(orig: seq<Scored>, i: nat, before: seq<Scored>, after: seq<Scored>)
    requires i < |orig| && before == Ranked(orig[..i]) + orig[i..]
    requires after == Insert(before[i], before[..i]) + before[i + 1..]
    ensures after == Ranked(orig[..i + 1]) + orig[i + 1..]
  {
    assert before[..i] == Ranked(orig[..i]);
    assert before[i] == orig[i];
    assert before[i + 1..] == orig[i + 1..];
    assert orig[..i + 1][..i] == orig[..i];
  }

  /** The in-place `scored.sort`: insertion sort, stable because only strictly smaller scores move. */
  method SortByScore(a: array<Scored>)
    modifies a
    ensures a[..] == Ranked(old(a[..]))
  {
    ghost var orig := a[..];
    assert orig[..0] == [] && orig[0..] == orig;
    for i := 0 to a.Length
      invariant a[..] == Ranked(orig[..i]) + orig[i..]
    {
      ghost var before := a[..];
      InsertLast(a, i);
      SortStep(orig, i, before, a[..]);
    }
    assert orig[..a.Length] == orig && orig[a.Length..] == [];
  }

  // ---------------------------------------------------------------- top k

  /** `.filter((s) => s.score > 0)`. */
  function Positive(s: seq<Scored>): (r: seq<Scored>)
    ensures |r| <= |s|
    ensures forall x :: x in r <==> x in s && x.score > 0
    decreases |s|
  {
    if s == [] then []
    else (if s[0].score > 0 then [s[0]] else []) + Positive(s[1..])
  }

  /** `.slice(0, k)`: a negative `k` counts from the end. */
  function SliceTo<T>(s: seq<T>, k: int): (r: seq<T>)
    ensures |r| <= |s|
    ensures k >= 0 ==> |r| == if k < |s| then k else |s|
    ensures r == s[..|r|]
  {
    if k >= 0 then (if k < |s| then s[..k] else s)
    else if |s| + k > 0 then s[..|s| + k] else []
  }

  /** `.map((s) => s.chunk)`. */
  function Chunks(s: seq<Scored>): (r: seq<Chunk>)
    ensures |r| == |s| && forall i | 0 <= i < |s| :: r[i] == s[i].chunk
  {
    seq(|s|, i requires 0 <= i < |s| => s[i].chunk)
  }

  /** The scored chunks retrieval over `table` returns, best first. */
  function RetrieveScored(table: seq<Chunk>, query: string, courseId: string, lessonId: Option<string>, k: int): seq<Scored> {
    SliceTo(Positive(Ranked(ScoreAll(FilterScope(table, courseId, lessonId), QueryTerms(query)))), k)
  }

  /** Retrieval over a chunk table. */
  function RetrieveFrom(table: seq<Chunk>, query: string, courseId: string, lessonId: Option<string>, k: int): seq<Chunk> {
    Chunks(RetrieveScored(table, query, courseId, lessonId, k))
  }

  /** The scoring pass: a fresh array holding each chunk with its score, in order. */
  method ScoreEach(cs: seq<Chunk>, terms: seq<string>) returns (scored: array<Scored>)
    ensures fresh(scored)
    ensures scored[..] == ScoreAll(cs, terms)
  {
    scored := new Scored[|cs|];
    for i := 0 to |cs|
      invariant forall j | 0 <= j < i :: scored[j] == Scored(cs[j], Score(cs[j], terms))
    {
      var s := ScoreChunk(cs[i], terms);
      scored[i] := Scored(cs[i], s);
    }
  }

  /** The steps of `retrieveChunks` over a given table: normalise, filter, score, sort in place, drop zero scores, take `k`. */
  method RetrieveIn(table: seq<Chunk>, query: string, courseId: string, lessonId: Option<string>, k: int) returns (r: seq<Chunk>)
    ensures r == RetrieveFrom(table, query, courseId, lessonId, k)
  {
    var queryLower := Trim(Lower(query));
    var terms := Words(queryLower);
    if |terms| == 0 {
      terms := terms + [queryLower];
    }
    assert terms == QueryTerms(query);
    var filtered := FilterScope(table, courseId, lessonId);
    var scored := ScoreEach(filtered, terms);
    SortByScore(scored);
    r := Chunks(SliceTo(Positive(scored[..]), k));
  }

  /** `retrieveChunks(query, courseId, lessonId, k)`: retrieval over the built-in table. */
  method Retrieve(query: string, courseId: string, lessonId: Option<string>, k: int) returns (r: seq<Chunk>)
    ensures r == RetrieveFrom(RagChunks, query, courseId, lessonId, k)
  {
    r := RetrieveIn(RagChunks, query, courseId, lessonId, k);
  }

  // ---------------------------------------------------------------- properties of retrieval

  /** Nothing is dropped when every score is positive. */
  lemma {:induction false} PositiveOfAllPositive(s: seq<Scored>)
    requires forall x | x in s :: x.score > 0
    ensures Positive(s) == s
    decreases |s|
  {
    if s != [] {
      PositiveOfAllPositive(s[1..]);
    }
  }

  /** Everything is dropped when every score is zero. */
  lemma {:induction false} PositiveOfAllZero(s: seq<Scored>)
    requires forall i | 0 <= i < |s| :: s[i].score == 0
    ensures Positive(s) == []
    decreases |s|
  {
    if s != [] {
      PositiveOfAllZero(s[1..]);
    }
  }

  /** The positive-score elements of a descending sequence are a prefix of it. */
  lemma {:induction false} PositiveOfSorted(s: seq<Scored>)
    requires SortedDesc(s)
    ensures Positive(s) == s[..|Positive(s)|]
    decreases |s|
  {
    if s != [] {
      var rest := s[1..];
      if s[0].score > 0 {
        SortedTail(s);
        PositiveOfSorted(rest);
        var p := Positive(rest);
        assert Positive(s) == [s[0]] + p;
        PrefixCons(s, p);
      } else {
        ZeroHeadZeroTail(s);
        PositiveOfAllZero(rest);
        assert Positive(s) == [] + Positive(rest);
      }
    }
  }

  /** A prefix of the tail, with the head put back, is a prefix of the whole. */
  lemma PrefixCons(s: seq<Scored>, p: seq<Scored>)
    requires s != [] && |p| < |s| && p == s[1..][..|p|]
    ensures [s[0]] + p == s[..|p| + 1]
  {
  }

  /** A descending sequence that starts at zero is all zeros after its head. */
  lemma ZeroHeadZeroTail(s: seq<Scored>)
    requires s != [] && SortedDesc(s) && s[0].score == 0
    ensures forall i | 0 <= i < |s[1..]| :: s[1..][i].score == 0
  {
    forall i | 0 <= i < |s[1..]| ensures s[1..][i].score == 0 {
      assert s[1..][i] == s[i + 1];
      assert s[0].score >= s[i + 1].score;
    }
  }

  /** The tail of a descending sequence is descending. */
  lemma SortedTail(s: seq<Scored>)
    requires s != [] && SortedDesc(s)
    ensures SortedDesc(s[1..])
  {
    var rest := s[1..];
    forall i, j | 0 <= i < j < |rest| ensures rest[i].score >= rest[j].score {
      assert rest[i] == s[i + 1] && rest[j] == s[j + 1];
    }
  }

  /** Ranking neither adds nor drops elements. */
  lemma InRanked(s: seq<Scored>, x: Scored)
    ensures x in Ranked(s) <==> x in s
  {
    RankedPermutes(s);
    assert x in Ranked(s) <==> x in multiset(Ranked(s));
  }

  /** A scored entry pairs a chunk of the input with that chunk's score. */
  lemma InScoreAll(cs: seq<Chunk>, terms: seq<string>, x: Scored)
    requires x in ScoreAll(cs, terms)
    ensures x.chunk in cs && x.score == Score(x.chunk, terms)
  {
    var all := ScoreAll(cs, terms);
    var j :| 0 <= j < |all| && all[j] == x;
  }

  /** A prefix of a descending sequence is descending. */
  lemma SortedPrefix(s: seq<Scored>, n: nat)
    requires SortedDesc(s) && n <= |s|
    ensures SortedDesc(s[..n])
  {
  }

  /** The scored result is the first entries of the ranking, all with positive score. */
  lemma RetrieveScoredIsPrefix(table: seq<Chunk>, query: string, courseId: string, lessonId: Option<string>, k: int)
    ensures var ranked := Ranked(ScoreAll(FilterScope(table, courseId, lessonId), QueryTerms(query)));
            var res := RetrieveScored(table, query, courseId, lessonId, k);
            |res| <= |ranked| && res == ranked[..|res|] && res == Positive(ranked)[..|res|]
  {
    var all := ScoreAll(FilterScope(table, courseId, lessonId), QueryTerms(query));
    RankedSorted(all);
    CutIsPrefix(Ranked(all), k);
  }

  /** The positive part of a descending ranking, cut at `k`, is a prefix of the ranking. */
  lemma CutIsPrefix(ranked: seq<Scored>, k: int)
    requires SortedDesc(ranked)
    ensures var res := SliceTo(Positive(ranked), k);
            |res| <= |ranked| && res == ranked[..|res|] && res == Positive(ranked)[..|res|]
  {
    PositiveOfSorted(ranked);
  }

  /** Every scored entry of the result has a chunk of the table, in scope, and its positive score. */
  lemma RetrieveScoredEntry(table: seq<Chunk>, query: string, courseId: string, lessonId: Option<string>, k: int, x: Scored)
    requires x in RetrieveScored(table, query, courseId, lessonId, k)
    ensures x.chunk in table && InScope(x.chunk, courseId, lessonId)
    ensures x.score > 0 && x.score == Score(x.chunk, QueryTerms(query))
  {
    var filtered := FilterScope(table, courseId, lessonId);
    var all := ScoreAll(filtered, QueryTerms(query));
    var pos := Positive(Ranked(all));
    var res := RetrieveScored(table, query, courseId, lessonId, k);
    assert res == pos[..|res|];
    assert x in pos;
    InRanked(all, x);
    InScoreAll(filtered, QueryTerms(query), x);
  }

  /** The scored result is in descending score order. */
  lemma RetrieveScoredSorted(table: seq<Chunk>, query: string, courseId: string, lessonId: Option<string>, k: int)
    ensures SortedDesc(RetrieveScored(table, query, courseId, lessonId, k))
  {
    var res := RetrieveScored(table, query, courseId, lessonId, k);
    var all := ScoreAll(FilterScope(table, courseId, lessonId), QueryTerms(query));
    RetrieveScoredIsPrefix(table, query, courseId, lessonId, k);
    RankedSorted(all);
    SortedPrefix(Ranked(all), |res|);
  }

  /** Every scored entry of the result is a chunk of the table, in scope, with its positive score. */
  lemma RetrieveScoredEntries(table: seq<Chunk>, query: string, courseId: string, lessonId: Option<string>, k: int)
    ensures forall x | x in RetrieveScored(table, query, courseId, lessonId, k) ::
              x.chunk in table && InScope(x.chunk, courseId, lessonId)
              && x.score > 0 && x.score == Score(x.chunk, QueryTerms(query))
  {
    forall x | x in RetrieveScored(table, query, courseId, lessonId, k)
      ensures x.chunk in table && InScope(x.chunk, courseId, lessonId)
      ensures x.score > 0 && x.score == Score(x.chunk, QueryTerms(query))
    {
      RetrieveScoredEntry(table, query, courseId, lessonId, k, x);
    }
  }

  /** Every chunk of `Chunks(s)` is the chunk of an entry of `s`. */
  lemma ChunkOfEntry(s: seq<Scored>, c: Chunk)
    requires c in Chunks(s)
    ensures exists x | x in s :: x.chunk == c
  {
    var i :| 0 <= i < |s| && Chunks(s)[i] == c;
    assert s[i] in s;
  }

  /** At most `k` chunks come back, each one from the table, in scope, with a positive score, best first. */
  lemma RetrieveShape(table: seq<Chunk>, query: string, courseId: string, lessonId: Option<string>, k: int)
    ensures k >= 0 ==> |RetrieveFrom(table, query, courseId, lessonId, k)| <= k
    ensures forall c | c in RetrieveFrom(table, query, courseId, lessonId, k) ::
              c in table && InScope(c, courseId, lessonId)
    ensures SortedDesc(RetrieveScored(table, query, courseId, lessonId, k))
    ensures forall x | x in RetrieveScored(table, query, courseId, lessonId, k) ::
              x.score > 0 && x.score == Score(x.chunk, QueryTerms(query))
  {
    var res := RetrieveScored(table, query, courseId, lessonId, k);
    RetrieveScoredSorted(table, query, courseId, lessonId, k);
    RetrieveScoredEntries(table, query, courseId, lessonId, k);
    forall c | c in Chunks(res)
      ensures c in table && InScope(c, courseId, lessonId)
    {
      ChunkOfEntry(res, c);
    }
  }

  /** Cutting a descending sequence's positive prefix at `k` keeps every entry or keeps `k` entries at least as good. */
  lemma TopOfRanking(ranked: seq<Scored>, k: nat, e: Scored)
    requires SortedDesc(ranked) && e in Positive(ranked)
    ensures var res := SliceTo(Positive(ranked), k);
            e in res || (|res| == k && forall x | x in res :: x.score >= e.score)
  {
    var pos := Positive(ranked);
    var res := SliceTo(pos, k);
    var p := PositionOf(pos, e);
    PositiveOfSorted(ranked);
    if p < k {
      assert res[p] == e;
    } else {
      assert res == ranked[..k] && e == ranked[p];
      PrefixDominates(ranked, k, p);
    }
  }

  /** A position at which an element of `s` occurs. */
  lemma PositionOf(s: seq<Scored>, e: Scored) returns (p: nat)
    requires e in s
    ensures p < |s| && s[p] == e
  {
    p :| 0 <= p < |s| && s[p] == e;
  }

  /** In a descending sequence, every entry before position `p` scores at least as much as the one at `p`. */
  lemma PrefixDominates(s: seq<Scored>, n: nat, p: nat)
    requires SortedDesc(s) && n <= p < |s|
    ensures forall x | x in s[..n] :: x.score >= s[p].score
  {
    forall x | x in s[..n] ensures x.score >= s[p].score {
      var i :| 0 <= i < n && s[..n][i] == x;
      assert s[i] == x;
    }
  }

  /** The chunk of a returned entry is returned. */
  lemma ChunkReturned(s: seq<Scored>, e: Scored)
    requires e in s
    ensures e.chunk in Chunks(s)
  {
    var i :| 0 <= i < |s| && s[i] == e;
    assert Chunks(s)[i] == e.chunk;
  }

  /**
   * Retrieval returns the top of the ranking: a chunk in scope with a positive score is
   * either returned, or `k` chunks were returned and each scores at least as much.
   */
  lemma RetrieveIsTopK(table: seq<Chunk>, query: string, courseId: string, lessonId: Option<string>, k: int, c: Chunk)
    requires k >= 0
    requires c in table && InScope(c, courseId, lessonId)
    requires Score(c, QueryTerms(query)) > 0
    ensures c in RetrieveFrom(table, query, courseId, lessonId, k)
            || (|RetrieveFrom(table, query, courseId, lessonId, k)| == k
                && forall x | x in RetrieveScored(table, query, courseId, lessonId, k) :: x.score >= Score(c, QueryTerms(query)))
  {
    var terms := QueryTerms(query);
    var filtered := FilterScope(table, courseId, lessonId);
    var all := ScoreAll(filtered, terms);
    var e := Scored(c, Score(c, terms));
    assert c in filtered;
    var j :| 0 <= j < |filtered| && filtered[j] == c;
    assert all[j] == e;
    InRanked(all, e);
    RankedSorted(all);
    TopOfRanking(Ranked(all), k, e);
    var res := RetrieveScored(table, query, courseId, lessonId, k);
    if e in res {
      ChunkReturned(res, e);
    }
  }

  /**
   * A blank query does not give an empty answer: every chunk in scope scores
   * 1 + |keywords| > 0, so `min(k, number in scope)` chunks come back.
   */
  lemma RetrieveBlankQuery(table: seq<Chunk>, query: string, courseId: string, lessonId: Option<string>, k: int)
    requires IsBlank(query) && k >= 0
    ensures forall c | c in FilterScope(table, courseId, lessonId) :: Score(c, QueryTerms(query)) == 1 + |c.keywords|
    ensures |RetrieveFrom(table, query, courseId, lessonId, k)|
            == if k < |FilterScope(table, courseId, lessonId)| then k else |FilterScope(table, courseId, lessonId)|
  {
    QueryTermsOfBlank(query);
    var filtered := FilterScope(table, courseId, lessonId);
    forall c | c in filtered ensures Score(c, QueryTerms(query)) == 1 + |c.keywords| {
      ScoreOfEmptyTerm(c);
    }
    var all := ScoreAll(filtered, QueryTerms(query));
    var ranked := Ranked(all);
    forall x | x in ranked ensures x.score > 0 {
      InRanked(all, x);
      InScoreAll(filtered, QueryTerms(query), x);
    }
    PositiveOfAllPositive(ranked);
  }
}
