/** The Python string operations the services rely on: substring search
    (`in`, `str.find`), `str.split(sep)`, `sep.join(parts)`, `str.strip()`,
    `str.lower()` (ASCII letters only) and `str(int)`. */
module Text {
  import opened Wrappers

  /** `pat` occurs in `s` starting at index `i`. */
  predicate OccursAt(s: string, pat: string, i: nat) {
    i + |pat| <= |s| && s[i..i + |pat|] == pat
  }

  /** The first index at or after `k` where `pat` occurs in `s`. */
  function IndexFrom(s: string, pat: string, k: nat): (r: Option<nat>)
    ensures r.Some? ==> k <= r.value && OccursAt(s, pat, r.value)
    ensures forall j: nat :: k <= j && (r.None? || j < r.value) ==> !OccursAt(s, pat, j)
    decreases |s| - k
  {
    if k + |pat| > |s| then None
    else if s[k..k + |pat|] == pat then Some(k)
    else IndexFrom(s, pat, k + 1)
  }

  /** Python `s.find(pat)`, with None for -1. */
  function IndexOf(s: string, pat: string): Option<nat> {
    IndexFrom(s, pat, 0)
  }

  /** Python `pat in s` on strings. */
  predicate Contains(s: string, pat: string) {
    IndexOf(s, pat).Some?
  }

  /** `IndexOf` finds exactly the first occurrence. */
  lemma IndexOfIsFirst(s: string, pat: string, i: nat)
    requires OccursAt(s, pat, i)
    requires forall j: nat :: j < i ==> !OccursAt(s, pat, j)
    ensures IndexOf(s, pat) == Some(i)
  {
  }

  /** No occurrence of `pat` lies inside a prefix that ends before the first one. */
  lemma NoOccurrenceBeforeFirst(s: string, pat: string, i: nat)
    requires pat != []
    requires IndexOf(s, pat) == Some(i)
    ensures !Contains(s[..i], pat)
  {
    var t := s[..i];
    forall j: nat ensures !OccursAt(t, pat, j) {
      if j + |pat| <= |t| {
        assert j < i && !OccursAt(s, pat, j);
        assert t[j..j + |pat|] == s[j..j + |pat|];
      }
    }
  }

  /** A slice of a text without `pat` has no `pat` either. */
  lemma SliceKeepsAbsence(s: string, pat: string, a: nat, b: nat)
    requires a <= b <= |s| && !Contains(s, pat)
    ensures !Contains(s[a..b], pat)
  {
    var t := s[a..b];
    assert IndexFrom(s, pat, 0).None?;
    forall j: nat ensures !OccursAt(t, pat, j) {
      if j + |pat| <= |t| {
        var q: nat := a + j;
        assert !OccursAt(s, pat, q);
        assert t[j..j + |pat|] == s[q..q + |pat|];
      }
    }
  }

  /** Python `s.split(sep)` for a non-empty separator: the pieces between
      successive occurrences of `sep`, scanning left to right. */
  function Split(s: string, sep: string): (parts: seq<string>)
    requires sep != []
    ensures |parts| >= 1
    ensures Contains(s, sep) <==> |parts| >= 2
    ensures forall k :: 0 <= k < |parts| ==> !Contains(parts[k], sep)
    decreases |s|
  {
    match IndexOf(s, sep)
    case None => [s]
    case Some(i) =>
      NoOccurrenceBeforeFirst(s, sep, i);
      [s[..i]] + Split(s[i + |sep|..], sep)
  }

  /** Python `sep.join(parts)`. */
  function Join(parts: seq<string>, sep: string): string
    decreases |parts|
  {
    if |parts| == 0 then ""
    else if |parts| == 1 then parts[0]
    else parts[0] + sep + Join(parts[1..], sep)
  }

  /** Joining the pieces of a split puts back the original string. */
  lemma {:induction false} JoinSplit(s: string, sep: string)
    requires sep != []
    ensures Join(Split(s, sep), sep) == s
    decreases |s|
  {
    match IndexOf(s, sep)
    case None =>
    case Some(i) =>
      var rest := s[i + |sep|..];
      JoinSplit(rest, sep);
      assert s[i..i + |sep|] == sep;
      calc {
        Join(Split(s, sep), sep);
        Join([s[..i]] + Split(rest, sep), sep);
        { assert ([s[..i]] + Split(rest, sep))[1..] == Split(rest, sep); }
        s[..i] + sep + Join(Split(rest, sep), sep);
        s[..i] + s[i..i + |sep|] + rest;
        { assert s == s[..i] + s[i..i + |sep|] + rest; }
        s;
      }
  }

  /** A string without `c` holds no occurrence of the one-character string `[c]`. */
  lemma NotContainsChar(p: string, c: char)
    requires c !in p
    ensures !Contains(p, [c])
  {
    forall j: nat ensures !OccursAt(p, [c], j) {
      if j + 1 <= |p| {
        assert p[j..j + 1] == [p[j]];
      }
    }
  }

  /** For a one-character pattern, Python's substring test is membership. */
  lemma ContainsCharIff(s: string, c: char)
    ensures Contains(s, [c]) <==> c in s
  {
    if c in s {
      var j :| 0 <= j < |s| && s[j] == c;
      assert s[j..j + 1] == [c];
      assert OccursAt(s, [c], j);
    } else {
      NotContainsChar(s, c);
    }
  }

  /** The first occurrence of a one-character pattern holds that character
      and none occurs before it. */
  lemma FirstCharIndex(s: string, c: char, i: nat)
    requires IndexOf(s, [c]) == Some(i)
    ensures i < |s| && s[i] == c && c !in s[..i]
  {
    assert s[i..i + 1] == [c];
    if c in s[..i] {
      var j :| 0 <= j < i && s[..i][j] == c;
      assert s[j..j + 1] == [c];
      assert OccursAt(s, [c], j);
    }
  }

  /** Splitting a join on a one-character separator that occurs in no piece
      gives the pieces back. */
  lemma {:induction false} SplitJoin(parts: seq<string>, c: char)
    requires |parts| >= 1
    requires forall k :: 0 <= k < |parts| ==> c !in parts[k]
    ensures Split(Join(parts, [c]), [c]) == parts
    decreases |parts|
  {
    var p := parts[0];
    if |parts| == 1 {
      NotContainsChar(p, c);
    } else {
      var rest := Join(parts[1..], [c]);
      SplitAtChar(p, c, rest);
      SplitJoin(parts[1..], c);
      assert parts == [p] + parts[1..];
    }
  }

  /** Splitting at a character that follows a piece without it puts that
      piece first and splits the rest on its own. */
  lemma SplitAtChar(p: string, c: char, rest: string)
    requires c !in p
    ensures Split(p + [c] + rest, [c]) == [p] + Split(rest, [c])
  {
    var s := p + [c] + rest;
    assert OccursAt(s, [c], |p|) by { assert s[|p|..|p| + 1] == [c]; }
    forall j: nat | j < |p| ensures !OccursAt(s, [c], j) {
      assert s[j] == p[j];
    }
    IndexOfIsFirst(s, [c], |p|);
    assert s[..|p|] == p;
    assert s[|p| + 1..] == rest;
  }

  /** Python `str.isspace()` for one character. */
  predicate IsSpace(c: char) {
    c == ' ' || ('\t' <= c <= '\r') || ('\U{1C}' <= c <= '\U{1F}') ||
    c == '\U{85}' || c == '\U{A0}' || c == '\U{1680}' || ('\U{2000}' <= c <= '\U{200A}') ||
    c == '\U{2028}' || c == '\U{2029}' || c == '\U{202F}' || c == '\U{205F}' || c == '\U{3000}'
  }

  predicate AllSpace(s: string) {
    forall i :: 0 <= i < |s| ==> IsSpace(s[i])
  }

  function StripLeading(s: string): (r: string)
    ensures |r| <= |s| && r == s[|s| - |r|..] && AllSpace(s[..|s| - |r|])
    ensures r == [] || !IsSpace(r[0])
    decreases |s|
  {
    if s != [] && IsSpace(s[0]) then
      var r := StripLeading(s[1..]);
      assert s[|s| - |r|..] == s[1..][|s| - 1 - |r|..];
      assert s[..|s| - |r|] == [s[0]] + s[1..][..|s| - 1 - |r|];
      r
    else s
  }

  function StripTrailing(s: string): (r: string)
    ensures |r| <= |s| && r == s[..|r|] && AllSpace(s[|r|..])
    ensures r == [] || !IsSpace(r[|r| - 1])
    decreases |s|
  {
    if s != [] && IsSpace(s[|s| - 1]) then
      var r := StripTrailing(s[..|s| - 1]);
      assert s[..|r|] == s[..|s| - 1][..|r|];
      assert s[|r|..] == s[..|s| - 1][|r|..] + [s[|s| - 1]];
      r
    else s
  }

  /** Python `s.strip()`: `s` without the whitespace at both ends. */
  function Strip(s: string): (r: string)
    ensures r == [] || (!IsSpace(r[0]) && !IsSpace(r[|r| - 1]))
  {
    StripTrailing(StripLeading(s))
  }

  /** What `Strip` leaves is a slice of `s` with only whitespace around
      it. */
  lemma StripIsSlice(s: string)
    ensures exists a, b :: 0 <= a <= b <= |s| && Strip(s) == s[a..b] && AllSpace(s[..a]) && AllSpace(s[b..])
  {
    var t := StripLeading(s);
    var r := StripTrailing(t);
    var a := |s| - |t|;
    var b := a + |r|;
    assert r == s[a..b] by {
      assert t == s[a..];
    }
    assert s[b..] == t[|r|..];
    assert 0 <= a <= b <= |s| && r == s[a..b] && AllSpace(s[..a]) && AllSpace(s[b..]);
  }

  /** Stripping cannot create an occurrence of a pattern. */
  lemma StripKeepsAbsence(s: string, pat: string)
    requires !Contains(s, pat)
    ensures !Contains(Strip(s), pat)
  {
    StripIsSlice(s);
    var a, b :| 0 <= a <= b <= |s| && Strip(s) == s[a..b] && AllSpace(s[..a]) && AllSpace(s[b..]);
    SliceKeepsAbsence(s, pat, a, b);
  }

  /** Python `c.lower()` restricted to ASCII letters. */
  function LowerChar(c: char): char {
    if 'A' <= c <= 'Z' then (c as int + 32) as char else c
  }

  /** Python `s.lower()` restricted to ASCII letters. */
  function Lower(s: string): (r: string)
    ensures |r| == |s| && forall i :: 0 <= i < |s| ==> r[i] == LowerChar(s[i])
  {
    seq(|s|, i requires 0 <= i < |s| => LowerChar(s[i]))
  }

  /** Lower-casing twice is lower-casing once. */
  lemma LowerIdempotent(s: string)
    ensures Lower(Lower(s)) == Lower(s)
  {
  }

  /** The lower-cased text holds no ASCII capital. */
  lemma LowerHasNoCapital(s: string)
    ensures forall i :: 0 <= i < |Lower(s)| ==> !('A' <= Lower(s)[i] <= 'Z')
  {
  }

  /** A capital letter never occurs in lower-cased text, so a pattern holding
      one is never found there. */
  lemma CapitalNeverInLower(s: string, pat: string, k: nat)
    requires k < |pat| && 'A' <= pat[k] <= 'Z'
    ensures !Contains(Lower(s), pat)
  {
    var t := Lower(s);
    forall j: nat ensures !OccursAt(t, pat, j) {
      if j + |pat| <= |t| {
        assert t[j..j + |pat|][k] == t[j + k];
      }
    }
  }

  predicate IsDigit(c: char) {
    '0' <= c <= '9'
  }

  /** The decimal digit character for `d`. */
  function DigitChar(d: nat): (c: char)
    requires d < 10
    ensures IsDigit(c) && c as int - '0' as int == d
  {
    (48 + d) as char
  }

  /** Python `str(n)` for a natural number: its decimal digits, without
      leading zeros. */
  function NatToString(n: nat): (r: string)
    ensures |r| >= 1 && forall i :: 0 <= i < |r| ==> IsDigit(r[i])
    ensures |r| > 1 ==> r[0] != '0'
    decreases n
  {
    if n < 10 then [DigitChar(n)] else NatToString(n / 10) + [DigitChar(n % 10)]
  }

  function DigitValue(c: char): nat
    requires IsDigit(c)
  {
    c as int - '0' as int
  }

  /** The number a string of decimal digits denotes. */
  function DecimalValue(s: string): nat
    requires forall i :: 0 <= i < |s| ==> IsDigit(s[i])
    decreases |s|
  {
    if s == [] then 0 else 10 * DecimalValue(s[..|s| - 1]) + DigitValue(s[|s| - 1])
  }

  /** Reading back the digits `str(n)` writes gives `n`. */
  lemma {:induction false} DecimalValueOfNatToString(n: nat)
    ensures DecimalValue(NatToString(n)) == n
    decreases n
  {
    if n >= 10 {
      DecimalValueOfNatToString(n / 10);
      var s := NatToString(n);
      assert s[..|s| - 1] == NatToString(n / 10);
    }
  }

  /** Python `str(i)` for any integer. */
  function IntToString(i: int): (r: string)
    ensures |r| >= 1
    ensures i < 0 <==> r[0] == '-'
  {
    if i < 0 then "-" + NatToString(-i) else NatToString(i)
  }

  /** Different integers print differently. */
  lemma IntToStringInjective(a: int, b: int)
    requires IntToString(a) == IntToString(b)
    ensures a == b
  {
    if a < 0 {
      assert IntToString(a)[1..] == NatToString(-a);
      assert IntToString(b)[1..] == NatToString(-b);
      DecimalValueOfNatToString(-a);
      DecimalValueOfNatToString(-b);
    } else {
      DecimalValueOfNatToString(a);
      DecimalValueOfNatToString(b);
    }
  }
}
