/**
 * The JavaScript string operations the portal relies on, stated over `seq<char>`:
 * `trim` and the `\s` class, `toLowerCase` (ASCII letters only), `includes`, `split` on
 * a set of separator characters, `join`, `replace` of the first occurrence of a
 * character, `slice(0, n)`, `String(n)`, `padStart(2, "0")` and `Number(s)`.
 */
module JsText {
  import opened Wrappers

  /** The characters JavaScript's `trim` removes and `\s` matches (WhiteSpace and LineTerminator). */
  predicate IsSpace(c: char) {
    || c == ' ' || c == '\t' || c == '\n' || c == '\r' || c == '\U{000B}' || c == '\U{000C}'
    || c == '\U{00A0}' || c == '\U{1680}' || ('\U{2000}' <= c <= '\U{200A}')
    || c == '\U{2028}' || c == '\U{2029}' || c == '\U{202F}' || c == '\U{205F}'
    || c == '\U{3000}' || c == '\U{FEFF}'
  }

  /** Every character is whitespace: what `!s.trim()` tests. */
  predicate IsBlank(s: string) {
    forall i | 0 <= i < |s| :: IsSpace(s[i])
  }

  /** `trimStart`: drops the longest all-whitespace prefix. */
  function TrimStart(s: string): (r: string)
    ensures |r| <= |s| && r == s[|s| - |r|..]
    ensures IsBlank(s[..|s| - |r|])
    ensures r == [] || !IsSpace(r[0])
    decreases |s|
  {
    if s != [] && IsSpace(s[0]) then
      var r := TrimStart(s[1..]);
      assert s[..|s| - |r|] == [s[0]] + s[1..][..|s| - 1 - |r|];
      r
    else s
  }

  /** `trimEnd`: drops the longest all-whitespace suffix. */
  function TrimEnd(s: string): (r: string)
    ensures |r| <= |s| && r == s[..|r|]
    ensures IsBlank(s[|r|..])
    ensures r == [] || !IsSpace(r[|r| - 1])
    decreases |s|
  {
    if s != [] && IsSpace(s[|s| - 1]) then
      var r := TrimEnd(s[..|s| - 1]);
      assert s[|r|..] == s[..|s| - 1][|r|..] + [s[|s| - 1]];
      r
    else s
  }

  /** `trim`: no whitespace is left at either end, and the result is empty exactly for blank input. */
  function Trim(s: string): (r: string)
    ensures r == [] || (!IsSpace(r[0]) && !IsSpace(r[|r| - 1]))
    ensures r == [] <==> IsBlank(s)
    ensures |r| <= |s|
  {
    var a := TrimStart(s);
    var r := TrimEnd(a);
    assert r == [] ==> s == s[..|s| - |a|] + a[|r|..];
    assert r != [] ==> !IsSpace(r[0]) by {
      if r != [] { assert r[0] == a[0]; }
    }
    r
  }

  /** A string with no whitespace at either end is its own trim. */
  lemma TrimOfTrimmed(s: string)
    requires s == [] || (!IsSpace(s[0]) && !IsSpace(s[|s| - 1]))
    ensures Trim(s) == s
  {
  }

  /** `trim` is idempotent. */
  lemma TrimIdempotent(s: string)
    ensures Trim(Trim(s)) == Trim(s)
  {
    TrimOfTrimmed(Trim(s));
  }

  /** Trimming keeps out any character the string did not hold. */
  lemma TrimKeepsNoneIn(s: string, seps: set<char>)
    requires NoneIn(s, seps)
    ensures NoneIn(Trim(s), seps)
  {
    var a := TrimStart(s);
    assert NoneIn(a, seps) by {
      forall i | 0 <= i < |a|
        ensures a[i] !in seps
      {
        assert a[i] == s[|s| - |a| + i];
      }
    }
    var r := TrimEnd(a);
    assert forall i | 0 <= i < |r| :: r[i] == a[i];
  }

  /** `s.includes(t)`: `t` occurs in `s` at some position. */
  predicate Contains(s: string, t: string)
    decreases |s|
  {
    (|t| <= |s| && s[..|t|] == t) || (s != [] && Contains(s[1..], t))
  }

  /** An occurrence at position `i` makes `includes` true. */
  lemma {:induction false} ContainsAt(s: string, t: string, i: nat)
    requires i + |t| <= |s| && s[i..i + |t|] == t
    ensures Contains(s, t)
    decreases i
  {
    if i > 0 {
      assert s[1..][i - 1..i - 1 + |t|] == s[i..i + |t|];
      ContainsAt(s[1..], t, i - 1);
    }
  }

  /** A string that `includes` `t` has an occurrence of it. */
  lemma {:induction false} ContainsWitness(s: string, t: string) returns (i: nat)
    requires Contains(s, t)
    ensures i + |t| <= |s| && s[i..i + |t|] == t
    decreases |s|
  {
    if |t| <= |s| && s[..|t|] == t {
      i := 0;
    } else {
      var j := ContainsWitness(s[1..], t);
      i := j + 1;
      assert s[i..i + |t|] == s[1..][j..j + |t|];
    }
  }

  /** A string includes a one-character string exactly when that character occurs in it. */
  lemma ContainsChar(s: string, c: char)
    ensures Contains(s, [c]) <==> exists i | 0 <= i < |s| :: s[i] == c
  {
    if Contains(s, [c]) {
      var i := ContainsWitness(s, [c]);
      assert s[i] == c;
    }
    if exists i | 0 <= i < |s| :: s[i] == c {
      var i :| 0 <= i < |s| && s[i] == c;
      assert s[i..i + 1] == [c];
      ContainsAt(s, [c], i);
    }
  }

  /** Inclusion is transitive. */
  lemma ContainsTransitive(a: string, b: string, c: string)
    requires Contains(a, b) && Contains(b, c)
    ensures Contains(a, c)
  {
    var j := ContainsWitness(a, b);
    var i := ContainsWitness(b, c);
    forall k | 0 <= k < |c|
      ensures a[j + i + k] == c[k]
    {
      assert b[i..i + |c|][k] == c[k];
      assert a[j..j + |b|][i + k] == b[i + k];
    }
    assert a[j + i..j + i + |c|] == c;
    ContainsAt(a, c, j + i);
  }

  /** Every string includes itself, and every string includes the empty string. */
  lemma ContainsSelfAndEmpty(s: string)
    ensures Contains(s, s) && Contains(s, "")
  {
    ContainsAt(s, s, 0);
    ContainsAt(s, "", 0);
  }

  /** A string includes each of its pieces. */
  lemma ContainsInfix(a: string, t: string, b: string)
    ensures Contains(a + t + b, t)
  {
    assert (a + t + b)[|a|..|a| + |t|] == t;
    ContainsAt(a + t + b, t, |a|);
  }

  /** A string includes its trim. */
  lemma TrimIsInfix(s: string)
    ensures Contains(s, Trim(s))
  {
    var a := TrimStart(s);
    var r := TrimEnd(a);
    assert s == s[..|s| - |a|] + r + a[|r|..];
    ContainsInfix(s[..|s| - |a|], r, a[|r|..]);
  }

  /** ASCII `toLowerCase` of one character. */
  function LowerChar(c: char): char {
    if 'A' <= c <= 'Z' then (c as int + 32) as char else c
  }

  /** `toLowerCase`, on ASCII letters. */
  function Lower(s: string): (r: string)
    ensures |r| == |s| && forall i | 0 <= i < |s| :: r[i] == LowerChar(s[i])
  {
    seq(|s|, i requires 0 <= i < |s| => LowerChar(s[i]))
  }

  /** Lowercasing leaves whitespace where it is. */
  lemma LowerKeepsBlank(s: string)
    ensures forall i | 0 <= i < |s| :: IsSpace(Lower(s)[i]) == IsSpace(s[i])
    ensures IsBlank(Lower(s)) <==> IsBlank(s)
  {
  }

  /** Lowercasing twice is lowercasing once. */
  lemma LowerIdempotent(s: string)
    ensures Lower(Lower(s)) == Lower(s)
  {
  }

  /** Lowercasing distributes over concatenation. */
  lemma LowerAppend(a: string, b: string)
    ensures Lower(a + b) == Lower(a) + Lower(b)
  {
  }

  /** No character of `s` is in `seps`. */
  predicate NoneIn(s: string, seps: set<char>) {
    forall i | 0 <= i < |s| :: s[i] !in seps
  }

  /**
   * `s.split(sep)` where each character of `seps` separates: a one-character string
   * separator, or a one-character class such as `/[\n,]/`. The pieces are what lies
   * between separators, so there is always at least one (`"".split(",")` is `[""]`).
   */
  function Split(s: string, seps: set<char>): (r: seq<string>)
    ensures |r| >= 1
    ensures forall k | 0 <= k < |r| :: NoneIn(r[k], seps)
    decreases |s|
  {
    if s == [] then [""]
    else
      var rest := Split(s[1..], seps);
      if s[0] in seps then [""] + rest else [[s[0]] + rest[0]] + rest[1..]
  }

  /** `parts.join(sep)`. */
  function Join(parts: seq<string>, sep: string): string
    decreases |parts|
  {
    if |parts| == 0 then ""
    else if |parts| == 1 then parts[0]
    else parts[0] + sep + Join(parts[1..], sep)
  }

  /** Joining one more part appends the separator and the part. */
  lemma {:induction false} JoinAppend(parts: seq<string>, x: string, sep: string)
    requires |parts| >= 1
    ensures Join(parts + [x], sep) == Join(parts, sep) + sep + x
    decreases |parts|
  {
    if |parts| == 1 {
      assert (parts + [x])[1..] == [x];
    } else {
      assert (parts + [x])[1..] == parts[1..] + [x];
      JoinAppend(parts[1..], x, sep);
    }
  }

  /** A joined list starts with its first part. */
  lemma JoinStartsWithFirst(parts: seq<string>, sep: string)
    requires |parts| >= 1
    ensures Join(parts, sep)[..|parts[0]|] == parts[0]
  {
  }

  /** A string without separators splits into itself alone. */
  lemma {:induction false} SplitNoSeparator(p: string, seps: set<char>)
    requires NoneIn(p, seps)
    ensures Split(p, seps) == [p]
    decreases |p|
  {
    if p != [] {
      SplitNoSeparator(p[1..], seps);
      assert [p[0]] + p[1..] == p;
    }
  }

  /** The first piece ends at the first separator. */
  lemma {:induction false} SplitAfterPiece(p: string, c: char, rest: string, seps: set<char>)
    requires NoneIn(p, seps) && c in seps
    ensures Split(p + [c] + rest, seps) == [p] + Split(rest, seps)
    decreases |p|
  {
    var s := p + [c] + rest;
    if p == [] {
      assert s[1..] == rest;
    } else {
      assert s[1..] == p[1..] + [c] + rest;
      SplitAfterPiece(p[1..], c, rest, seps);
      assert [p[0]] + p[1..] == p;
    }
  }

  /** Joining separator-free pieces with a separator and splitting again gives the pieces back. */
  lemma {:induction false} SplitJoin(parts: seq<string>, c: char, seps: set<char>)
    requires |parts| >= 1 && c in seps
    requires forall k | 0 <= k < |parts| :: NoneIn(parts[k], seps)
    ensures Split(Join(parts, [c]), seps) == parts
    decreases |parts|
  {
    if |parts| == 1 {
      SplitNoSeparator(parts[0], seps);
    } else {
      SplitJoin(parts[1..], c, seps);
      SplitAfterPiece(parts[0], c, Join(parts[1..], [c]), seps);
      assert [parts[0]] + parts[1..] == parts;
    }
  }

  /** Splitting on one character and joining with it again gives the string back. */
  lemma {:induction false} JoinSplit(s: string, c: char)
    ensures Join(Split(s, {c}), [c]) == s
    decreases |s|
  {
    if s != [] {
      var rest := Split(s[1..], {c});
      JoinSplit(s[1..], c);
      if s[0] == c {
        assert Split(s, {c}) == [""] + rest;
        assert ([""] + rest)[1..] == rest;
      } else {
        var parts := [[s[0]] + rest[0]] + rest[1..];
        assert parts[1..] == rest[1..];
        if |rest| == 1 {
          assert Join(parts, [c]) == [s[0]] + Join(rest, [c]);
        } else {
          assert Join(rest, [c]) == rest[0] + [c] + Join(rest[1..], [c]);
          assert Join(parts, [c]) == [s[0]] + Join(rest, [c]);
        }
      }
    }
  }

  /** The first index at which `s` holds a character of `stops`, or `|s|`. */
  function FirstOf(s: string, stops: set<char>): (i: nat)
    ensures i <= |s| && NoneIn(s[..i], stops)
    ensures i < |s| ==> s[i] in stops
    decreases |s|
  {
    if s == [] then 0
    else if s[0] in stops then 0
    else
      var i := FirstOf(s[1..], stops) + 1;
      assert s[..i] == [s[0]] + s[1..][..i - 1];
      i
  }

  /** A stop found within `s` is found at the same place in any extension of `s`. */
  lemma FirstOfExtended(s: string, t: string, stops: set<char>)
    requires FirstOf(s, stops) < |s| || t == [] || t[0] in stops
    ensures FirstOf(s + t, stops) == FirstOf(s, stops)
    decreases |s|
  {
    if s != [] {
      assert (s + t)[1..] == s[1..] + t;
      if s[0] !in stops {
        FirstOfExtended(s[1..], t, stops);
      }
    }
  }

  /** `s.replace(a, b)` with one-character strings: only the first `a` becomes `b`. */
  function ReplaceFirst(s: string, a: char, b: char): (r: string)
    ensures |r| == |s|
    decreases |s|
  {
    if s == [] then []
    else if s[0] == a then [b] + s[1..]
    else [s[0]] + ReplaceFirst(s[1..], a, b)
  }

  /** Without an `a` in `s`, replacing the first `a` changes nothing. */
  lemma {:induction false} ReplaceFirstAbsent(s: string, a: char, b: char)
    requires NoneIn(s, {a})
    ensures ReplaceFirst(s, a, b) == s
    decreases |s|
  {
    if s != [] {
      ReplaceFirstAbsent(s[1..], a, b);
    }
  }

  /** When `s` has no `b`, replacing the first `a` by `b` and then the first `b` by `a` gives `s` back. */
  lemma {:induction false} ReplaceFirstInverse(s: string, a: char, b: char)
    requires NoneIn(s, {b})
    ensures ReplaceFirst(ReplaceFirst(s, a, b), b, a) == s
    decreases |s|
  {
    if s != [] && s[0] != a {
      ReplaceFirstInverse(s[1..], a, b);
      assert ReplaceFirst(s, a, b) == [s[0]] + ReplaceFirst(s[1..], a, b);
    }
  }

  /** The first `a` of `s + t` lies in `t` when `s` has none. */
  lemma {:induction false} ReplaceFirstAfter(s: string, t: string, a: char, b: char)
    requires NoneIn(s, {a})
    ensures ReplaceFirst(s + t, a, b) == s + ReplaceFirst(t, a, b)
    decreases |s|
  {
    if s != [] {
      assert (s + t)[0] == s[0] && s[0] != a;
      assert (s + t)[1..] == s[1..] + t;
      ReplaceFirstAfter(s[1..], t, a, b);
      assert [s[0]] + (s[1..] + ReplaceFirst(t, a, b)) == s + ReplaceFirst(t, a, b);
    } else {
      assert s + t == t;
    }
  }

  /** `s.slice(0, n)` for a non-negative `n`. */
  function Take(s: string, n: nat): (r: string)
    ensures |r| == if |s| <= n then |s| else n
    ensures r == s[..|r|]
  {
    if |s| <= n then s else s[..n]
  }

  predicate IsDigit(c: char) {
    '0' <= c <= '9'
  }

  predicate AllDigits(s: string) {
    forall i | 0 <= i < |s| :: IsDigit(s[i])
  }

  function DigitChar(d: nat): (c: char)
    requires d < 10
    ensures IsDigit(c)
  {
    ('0' as int + d) as char
  }

  /** Number of decimal digits `String(n)` prints. */
  function DigitCount(n: nat): nat
    decreases n
  {
    if n < 10 then 1 else DigitCount(n / 10) + 1
  }

  /** `String(n)` for a natural number: its decimal digits, without leading zeros. */
  function NatToString(n: nat): (r: string)
    ensures |r| == DigitCount(n) && AllDigits(r)
    ensures r[0] != '0' || n == 0
    decreases n
  {
    if n < 10 then [DigitChar(n)] else NatToString(n / 10) + [DigitChar(n % 10)]
  }

  /** `String(i)` for an integer. */
  function IntToString(i: int): string {
    if i < 0 then "-" + NatToString(-i) else NatToString(i)
  }

  /** The value of a decimal digit string (leading zeros allowed). */
  function DigitsValue(s: string): nat
    requires AllDigits(s)
    decreases |s|
  {
    if s == [] then 0 else DigitsValue(s[..|s| - 1]) * 10 + (s[|s| - 1] as int - '0' as int)
  }

  /** Reading back the digits `String(n)` prints gives `n`. */
  lemma {:induction false} DigitsValueOfNatToString(n: nat)
    ensures DigitsValue(NatToString(n)) == n
    decreases n
  {
    if n >= 10 {
      DigitsValueOfNatToString(n / 10);
      var s := NatToString(n);
      assert s[..|s| - 1] == NatToString(n / 10);
    }
  }

  /** A leading zero does not change a digit string's value. */
  lemma {:induction false} DigitsValueLeadingZero(s: string)
    requires AllDigits(s)
    ensures AllDigits("0" + s) && DigitsValue("0" + s) == DigitsValue(s)
    decreases |s|
  {
    if s != [] {
      var front := s[..|s| - 1];
      assert ("0" + s)[..|s|] == "0" + front;
      DigitsValueLeadingZero(front);
    }
  }

  /** Numbers below 100 print with at most two digits. */
  lemma DigitCountBelow100(n: nat)
    requires n < 100
    ensures DigitCount(n) <= 2
  {
  }

  /** `String(n).padStart(2, "0")` for `n < 100` is two digits that read back as `n`. */
  lemma PaddedTwoDigits(n: nat)
    requires n < 100
    ensures |PadStart2(NatToString(n))| == 2 && AllDigits(PadStart2(NatToString(n)))
    ensures DigitsValue(PadStart2(NatToString(n))) == n
  {
    DigitCountBelow100(n);
    DigitsValueOfNatToString(n);
    var s := NatToString(n);
    if |s| == 1 {
      DigitsValueLeadingZero(s);
    }
  }

  /** A JavaScript number restricted to the values the portal produces from strings. */
  datatype NumberValue = Finite(value: int) | NaN

  /**
   * `Number(s)`: whitespace around the text is ignored, blank text is `0`, a decimal digit
   * string is its value, and anything else is `NaN`.
   */
  function NumberOf(s: string): (v: NumberValue)
    ensures v.Finite? ==> v.value >= 0
    ensures IsBlank(s) ==> v == Finite(0)
  {
    var t := Trim(s);
    if t == [] then Finite(0)
    else if AllDigits(t) then Finite(DigitsValue(t))
    else NaN
  }

  /** `Number(String(n)) == n` for a natural number. */
  lemma NumberOfNatToString(n: nat)
    ensures NumberOf(NatToString(n)) == Finite(n)
  {
    var s := NatToString(n);
    assert !IsSpace(s[0]) && !IsSpace(s[|s| - 1]);
    TrimOfTrimmed(s);
    DigitsValueOfNatToString(n);
  }

  /** A non-empty digit string is its decimal value. */
  lemma NumberOfDigits(s: string)
    requires s != [] && AllDigits(s)
    ensures NumberOf(s) == Finite(DigitsValue(s))
  {
    assert IsDigit(s[0]) && IsDigit(s[|s| - 1]);
    TrimOfTrimmed(s);
  }

  /** A word that starts with something other than a digit is `NaN` (as `Number("undefined")` is). */
  lemma NumberOfWord(s: string)
    requires s != [] && !IsSpace(s[0]) && !IsSpace(s[|s| - 1]) && !IsDigit(s[0])
    ensures NumberOf(s) == NaN
  {
    TrimOfTrimmed(s);
  }

  /** `Number(x) || 0`: `NaN` and `0` both become `0`. */
  function NumberOrZero(v: NumberValue): int {
    match v
    case Finite(n) => n
    case NaN => 0
  }

  /** A number as `JSON.stringify` writes it and the route reads it back: `NaN` becomes `null`, read as absent. */
  function JsonNumber(v: NumberValue): (r: Option<NumberValue>)
    ensures r.None? <==> v.NaN?
    ensures r.Some? ==> r.value == v
  {
    if v.NaN? then None else Some(v)
  }

  /** `String(v)` for a number. */
  function NumberToString(v: NumberValue): string {
    match v
    case Finite(n) => IntToString(n)
    case NaN => "NaN"
  }

  /** `s.padStart(2, "0")`. */
  function PadStart2(s: string): (r: string)
    ensures |r| == if |s| >= 2 then |s| else 2
    ensures r[|r| - |s|..] == s
    ensures forall i | 0 <= i < |r| - |s| :: r[i] == '0'
  {
    if |s| >= 2 then s else if |s| == 1 then "0" + s else "00"
  }

  /** JavaScript truthiness of an optional string: present and non-empty. */
  predicate Truthy(s: Option<string>) {
    s.Some? && s.value != ""
  }

  /** `s || undefined`: a falsy string becomes absent, a truthy one is kept. */
  function OrUndefined(s: Option<string>): (r: Option<string>)
    ensures r.Some? <==> Truthy(s)
    ensures r.Some? ==> r == s
  {
    if Truthy(s) then s else None
  }

  /** `s.replace(/\/$/, "")`: one trailing slash dropped. */
  function StripTrailingSlash(s: string): (r: string)
    ensures s != [] && s[|s| - 1] == '/' ==> r + "/" == s
    ensures (s == [] || s[|s| - 1] != '/') ==> r == s
  {
    if s != [] && s[|s| - 1] == '/' then s[..|s| - 1] else s
  }
}
