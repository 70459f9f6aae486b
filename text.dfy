/** The parts of JavaScript's string library that the screens rely on:
    the `\s` character class (which `trim` shares), `toLowerCase`, `includes`,
    `lastIndexOf`, `slice`, `split(/\s+/)`, `join` and number-to-string. */
module Text {

  /** A character of JavaScript's `\s` class: the white-space and line-terminator
      characters, which are also exactly what `String.prototype.trim` removes. */
  predicate IsSpace(c: char)
    ensures IsSpace(c) ==> c != '@' && !('0' <= c <= '9') && !('a' <= c <= 'z') && !('A' <= c <= 'Z')
    ensures c == ' ' || c == '\t' || c == '\n' || c == '\r' || c == '\U{A0}' ==> IsSpace(c)
  {
    || c == '\t' || c == '\n' || c == '\U{B}' || c == '\U{C}' || c == '\r' || c == ' '
    || c == '\U{A0}' || c == '\U{1680}' || ('\U{2000}' <= c <= '\U{200A}')
    || c == '\U{2028}' || c == '\U{2029}' || c == '\U{202F}' || c == '\U{205F}'
    || c == '\U{3000}' || c == '\U{FEFF}'
  }

  /** No character of `s` is white space. */
  predicate NoSpace(s: string) {
    forall k :: 0 <= k < |s| ==> !IsSpace(s[k])
  }

  /** Every character of `s` is white space (vacuously so for ""). */
  predicate AllSpace(s: string) {
    forall k :: 0 <= k < |s| ==> IsSpace(s[k])
  }

  // ---------------------------------------------------------------- case

  /** Lower-casing of one character (the ASCII letters). */
  function LowerChar(c: char): (r: char)
    ensures 'A' <= c <= 'Z' ==> 'a' <= r <= 'z'
    ensures !('A' <= c <= 'Z') ==> r == c
  {
    if 'A' <= c <= 'Z' then (c as int + 32) as char else c
  }

  /** `s.toLowerCase()`. */
  function ToLower(s: string): (r: string)
    ensures |r| == |s|
    ensures forall k :: 0 <= k < |s| ==> r[k] == LowerChar(s[k])
  {
    if |s| == 0 then [] else [LowerChar(s[0])] + ToLower(s[1..])
  }

  /** Lower-casing twice is lower-casing once, so a lower-cased text is its own key. */
  lemma ToLowerIdempotent(s: string)
    ensures ToLower(ToLower(s)) == ToLower(s)
  {
    var once := ToLower(s);
    assert forall k :: 0 <= k < |once| ==> LowerChar(once[k]) == once[k];
  }

  // ---------------------------------------------------------------- search

  /** `s.includes(t)`: `t` occurs in `s` at some position. */
  predicate Includes(s: string, t: string)
    ensures Includes(s, t) ==> |t| <= |s|
    ensures |t| == |s| ==> (Includes(s, t) <==> s == t)
  {
    assert s == t ==> OccursAt(s, t, 0) by {
      if s == t {
        assert s[0..|t|] == s;
      }
    }
    exists i :: 0 <= i <= |s| - |t| && OccursAt(s, t, i)
  }

  /** `t` stands in `s` starting at position `i`. */
  predicate OccursAt(s: string, t: string, i: int) {
    0 <= i && i + |t| <= |s| && s[i..i + |t|] == t
  }

  /** Every text includes the empty string. */
  lemma IncludesEmpty(s: string)
    ensures Includes(s, "")
  {
    assert OccursAt(s, "", 0);
  }

  /** `s.lastIndexOf(c)`: the position of the last `c` in `s`, or -1. */
  function LastIndexOf(s: string, c: char): (r: int)
    ensures -1 <= r < |s|
    ensures r >= 0 ==> s[r] == c
    ensures forall k :: r < k < |s| ==> s[k] != c
    ensures r == -1 <==> c !in s
  {
    if |s| == 0 then -1
    else if s[|s| - 1] == c then |s| - 1
    else LastIndexOf(s[..|s| - 1], c)
  }

  // ---------------------------------------------------------------- slicing

  /** The index that `slice` uses for an argument `i`: counted from the end when negative,
      then clamped to the string. */
  function SliceIndex(i: int, len: nat): (r: nat)
    ensures r <= len
    ensures 0 <= i <= len ==> r == i
    ensures i < 0 ==> r == if len + i < 0 then 0 else len + i
    ensures i > len ==> r == len
  {
    if i < 0 then (if len + i < 0 then 0 else len + i)
    else if i > len then len
    else i
  }

  /** `s.slice(start, end)`. */
  function Slice(s: string, start: int, end: int): (r: string)
    ensures 0 <= start <= end <= |s| ==> r == s[start..end]
    ensures start == 0 && end < 0 ==> r == s[..SliceIndex(end, |s|)]
    ensures start == 0 && end >= |s| ==> r == s
    ensures var a, b := SliceIndex(start, |s|), SliceIndex(end, |s|);
      (a >= b ==> r == "") && (a < b ==> r == s[a..b])
  {
    var from, to := SliceIndex(start, |s|), SliceIndex(end, |s|);
    if from >= to then "" else s[from..to]
  }

  /** `s.slice(start)`. */
  function SliceFrom(s: string, start: int): (r: string)
    ensures 0 <= start <= |s| ==> r == s[start..]
    ensures start > |s| ==> r == ""
    ensures r == s[SliceIndex(start, |s|)..]
    ensures start < 0 ==> |r| == if |s| + start < 0 then |s| else -start
  {
    Slice(s, start, |s|)
  }

  // ---------------------------------------------------------------- trim

  /** The number of white-space characters at the start of `s`. */
  function LeadingSpaces(s: string): (n: nat)
    ensures n <= |s|
    ensures AllSpace(s[..n])
    ensures n < |s| ==> !IsSpace(s[n])
  {
    if |s| == 0 || !IsSpace(s[0]) then 0
    else
      var m := LeadingSpaces(s[1..]);
      assert s[..m + 1] == [s[0]] + s[1..][..m];
      m + 1
  }

  /** The number of white-space characters at the end of `s`. */
  function TrailingSpaces(s: string): (n: nat)
    ensures n <= |s|
    ensures AllSpace(s[|s| - n..])
    ensures n < |s| ==> !IsSpace(s[|s| - n - 1])
  {
    if |s| == 0 || !IsSpace(s[|s| - 1]) then 0
    else
      var init := s[..|s| - 1];
      var m := TrailingSpaces(init);
      assert s[|s| - (m + 1)..] == init[|init| - m..] + [s[|s| - 1]];
      m + 1
  }

  /** `s.trim()`: `s` without its leading and trailing white space. The result is a
      contiguous piece of `s`, only white space was removed around it, and it is empty
      exactly when `s` is all white space. */
  function Trim(s: string): (r: string)
    ensures var i := LeadingSpaces(s);
      i + |r| <= |s| && r == s[i..i + |r|] && AllSpace(s[..i]) && AllSpace(s[i + |r|..])
    ensures r == "" <==> AllSpace(s)
    ensures r != "" ==> !IsSpace(r[0]) && !IsSpace(r[|r| - 1])
  {
    var i := LeadingSpaces(s);
    var rest := s[i..];
    var j := TrailingSpaces(rest);
    var r := rest[..|rest| - j];
    TrimPieces(s, i, j);
    r
  }

  lemma {:induction false} TrimPieces(s: string, i: nat, j: nat)
    requires i == LeadingSpaces(s) && j == TrailingSpaces(s[i..])
    ensures var r := s[i..][..|s| - i - j];
      && i + |r| <= |s| && r == s[i..i + |r|] && AllSpace(s[..i]) && AllSpace(s[i + |r|..])
      && (r == "" <==> AllSpace(s))
      && (r != "" ==> !IsSpace(r[0]) && !IsSpace(r[|r| - 1]))
  {
    var rest := s[i..];
    var r := rest[..|rest| - j];
    assert s[i + |r|..] == rest[|rest| - j..];
    if r == "" {
      assert j == |rest|;
      assert s[..i] == s;
    } else {
      assert r[0] == s[i];
      assert r[|r| - 1] == rest[|rest| - j - 1];
      assert !IsSpace(s[i]);
    }
  }

  // ---------------------------------------------------------------- split and join

  /** `s` without its leading run of white space. */
  function DropSpaces(s: string): (r: string)
    ensures |r| <= |s|
    ensures |s| > 0 && IsSpace(s[0]) ==> |r| < |s|
    ensures r == s[LeadingSpaces(s)..]
  {
    if |s| == 0 || !IsSpace(s[0]) then s else DropSpaces(s[1..])
  }

  /** `s.split(/\s+/)`: the pieces between maximal runs of white space. A run at the very
      start or end yields an empty first or last piece, and "" splits into [""]. */
  function SplitWords(s: string): (r: seq<string>)
    ensures |r| >= 1
    ensures forall k :: 0 <= k < |r| ==> NoSpace(r[k])
  {
    if |s| == 0 then [""]
    else if IsSpace(s[0]) then [""] + SplitWords(DropSpaces(s))
    else
      var rest := SplitWords(s[1..]);
      [[s[0]] + rest[0]] + rest[1..]
  }

  /** `parts.join(sep)`. */
  function Join(parts: seq<string>, sep: string): (r: string)
    ensures |parts| == 0 ==> r == ""
    ensures |parts| >= 1 ==> |parts[0]| <= |r| && r[..|parts[0]|] == parts[0]
    ensures |parts| >= 2 ==> |parts[0]| + |sep| <= |r| && r[|parts[0]|..|parts[0]| + |sep|] == sep
  {
    if |parts| == 0 then ""
    else if |parts| == 1 then parts[0]
    else parts[0] + sep + Join(parts[1..], sep)
  }

  /** `s` with every maximal run of white space replaced by one ordinary space. */
  function CollapseSpaces(s: string): (r: string)
    ensures |r| <= |s|
  {
    if |s| == 0 then ""
    else if IsSpace(s[0]) then " " + CollapseSpaces(DropSpaces(s))
    else [s[0]] + CollapseSpaces(s[1..])
  }

  lemma {:induction false} JoinCons(c: char, parts: seq<string>, sep: string)
    requires |parts| >= 1
    ensures Join([[c] + parts[0]] + parts[1..], sep) == [c] + Join(parts, sep)
  {
    var glued := [[c] + parts[0]] + parts[1..];
    assert glued[1..] == parts[1..];
  }

  /** Splitting at white-space runs and joining with single spaces collapses every
      run to one space and keeps everything else. */
  lemma {:induction false} JoinSplitWords(s: string)
    ensures Join(SplitWords(s), " ") == CollapseSpaces(s)
  {
    if |s| == 0 {
    } else if IsSpace(s[0]) {
      JoinSplitWords(DropSpaces(s));
      var rest := SplitWords(DropSpaces(s));
      assert ([""] + rest)[1..] == rest;
    } else {
      JoinSplitWords(s[1..]);
      JoinCons(s[0], SplitWords(s[1..]), " ");
    }
  }

  // ---------------------------------------------------------------- numbers

  function DigitChar(d: nat): (c: char)
    requires d < 10
    ensures '0' <= c <= '9'
  {
    ('0' as int + d) as char
  }

  /** The decimal text of `n`, as a template literal `${n}` writes a non-negative integer. */
  function Decimal(n: nat): (r: string)
    ensures |r| >= 1
    ensures forall k :: 0 <= k < |r| ==> '0' <= r[k] <= '9'
    ensures r[0] == '0' ==> n == 0
  {
    if n < 10 then [DigitChar(n)] else Decimal(n / 10) + [DigitChar(n % 10)]
  }

  /** The number a string of decimal digits denotes. */
  function DigitsValue(s: string): nat
    requires forall k :: 0 <= k < |s| ==> '0' <= s[k] <= '9'
  {
    if |s| == 0 then 0 else 10 * DigitsValue(s[..|s| - 1]) + (s[|s| - 1] as int - '0' as int)
  }

  /** Reading the decimal text back gives the number: the text determines the status code. */
  lemma {:induction false} DecimalRoundTrip(n: nat)
    ensures DigitsValue(Decimal(n)) == n
  {
    if n >= 10 {
      DecimalRoundTrip(n / 10);
      var r := Decimal(n);
      assert r[..|r| - 1] == Decimal(n / 10);
    }
  }
}
