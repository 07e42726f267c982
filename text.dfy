/** The Python string built-ins the services rely on: `isspace`, `strip`, `rstrip(c)`, `str(int)`,
    substring search (`in`) and `str.join`. */
module Text {

  /** Python's `str.isspace()` on one character: tab through carriage return, the file, group, record
      and unit separators, space, next-line, no-break space and the Unicode space separators. */
  predicate IsSpace(c: char) {
    || c == ' '
    || ('\t' <= c <= '\r')
    || ('\U{001C}' <= c <= '\U{001F}')
    || c == '\U{0085}' || c == '\U{00A0}' || c == '\U{1680}'
    || ('\U{2000}' <= c <= '\U{200A}')
    || c == '\U{2028}' || c == '\U{2029}' || c == '\U{202F}' || c == '\U{205F}' || c == '\U{3000}'
  }

  /** No character of `s` is whitespace. */
  predicate SpaceFree(s: string) {
    forall i :: 0 <= i < |s| ==> !IsSpace(s[i])
  }

  predicate StartsWith(s: string, prefix: string) {
    |prefix| <= |s| && s[..|prefix|] == prefix
  }

  predicate EndsWith(s: string, suffix: string) {
    |suffix| <= |s| && s[|s| - |suffix|..] == suffix
  }

  /** `sub` occurs in `s` at offset `i`. */
  predicate OccursAt(s: string, sub: string, i: int) {
    0 <= i <= |s| - |sub| && s[i..i + |sub|] == sub
  }

  /** Python's `sub in s`. */
  predicate Contains(s: string, sub: string) {
    exists i :: 0 <= i <= |s| - |sub| && OccursAt(s, sub, i)
  }

  lemma InfixContained(a: string, x: string, b: string)
    ensures Contains(a + x + b, x)
  {
    var s := a + x + b;
    assert s[|a|..|a| + |x|] == x;
    assert OccursAt(s, x, |a|);
  }

  lemma ContainsExtended(s: string, t: string, sub: string)
    requires Contains(s, sub)
    ensures Contains(s + t, sub)
  {
    var i :| 0 <= i <= |s| - |sub| && OccursAt(s, sub, i);
    assert (s + t)[i..i + |sub|] == sub;
    assert OccursAt(s + t, sub, i);
  }

  /** Python's `s[lo:hi].strip()`: drop whitespace from both ends of the range, one character at a
      time (see StripRangeIsSlice, StripRangeHasNoEdgeSpaces and StripRangeRemovesOnlySpaces). */
  function StripRange(s: string, lo: nat, hi: nat): (r: string)
    requires lo <= hi <= |s|
    ensures |r| <= hi - lo
    decreases hi - lo
  {
    if lo < hi && IsSpace(s[lo]) then StripRange(s, lo + 1, hi)
    else if lo < hi && IsSpace(s[hi - 1]) then StripRange(s, lo, hi - 1)
    else s[lo..hi]
  }

  /** Where the stripped text begins inside `s[lo..hi]`. */
  function StripOffset(s: string, lo: nat, hi: nat): (a: nat)
    requires lo <= hi <= |s|
    ensures lo <= a <= hi
    decreases hi - lo
  {
    if lo < hi && IsSpace(s[lo]) then StripOffset(s, lo + 1, hi)
    else if lo < hi && IsSpace(s[hi - 1]) then StripOffset(s, lo, hi - 1)
    else lo
  }

  /** The stripped range is the slice of `s` at StripOffset. */
  lemma {:induction false} StripRangeIsSlice(s: string, lo: nat, hi: nat)
    requires lo <= hi <= |s|
    ensures var r, a := StripRange(s, lo, hi), StripOffset(s, lo, hi);
      a + |r| <= hi && r == s[a..a + |r|]
    decreases hi - lo
  {
    if lo < hi && IsSpace(s[lo]) {
      StripRangeIsSlice(s, lo + 1, hi);
    } else if lo < hi && IsSpace(s[hi - 1]) {
      StripRangeIsSlice(s, lo, hi - 1);
    }
  }

  /** The stripped range has no whitespace at either end. */
  lemma {:induction false} StripRangeHasNoEdgeSpaces(s: string, lo: nat, hi: nat)
    requires lo <= hi <= |s|
    ensures var r := StripRange(s, lo, hi);
      r == [] || (!IsSpace(r[0]) && !IsSpace(r[|r| - 1]))
    decreases hi - lo
  {
    if lo < hi && IsSpace(s[lo]) {
      StripRangeHasNoEdgeSpaces(s, lo + 1, hi);
    } else if lo < hi && IsSpace(s[hi - 1]) {
      StripRangeHasNoEdgeSpaces(s, lo, hi - 1);
    }
  }

  /** What stripping removes on either side of the kept slice is whitespace. */
  lemma {:induction false} StripRangeRemovesOnlySpaces(s: string, lo: nat, hi: nat)
    requires lo <= hi <= |s|
    ensures var r, a := StripRange(s, lo, hi), StripOffset(s, lo, hi);
      && (forall i :: lo <= i < a ==> IsSpace(s[i]))
      && (forall i :: a + |r| <= i < hi ==> IsSpace(s[i]))
    decreases hi - lo
  {
    if lo < hi && IsSpace(s[lo]) {
      StripRangeRemovesOnlySpaces(s, lo + 1, hi);
    } else if lo < hi && IsSpace(s[hi - 1]) {
      StripRangeRemovesOnlySpaces(s, lo, hi - 1);
    }
  }

  /** Stripping a range of `s` is stripping the same range of any slice of `s` that holds it. */
  lemma {:induction false} StripRangeOfSlice(s: string, b: nat, e: nat, lo: nat, hi: nat)
    requires b <= lo <= hi <= e <= |s|
    ensures StripRange(s, lo, hi) == StripRange(s[b..e], lo - b, hi - b)
    decreases hi - lo
  {
    var t := s[b..e];
    if lo < hi {
      assert t[lo - b] == s[lo] && t[hi - 1 - b] == s[hi - 1];
    }
    if lo < hi && IsSpace(s[lo]) {
      StripRangeOfSlice(s, b, e, lo + 1, hi);
    } else if lo < hi && IsSpace(s[hi - 1]) {
      StripRangeOfSlice(s, b, e, lo, hi - 1);
    } else {
      forall i | 0 <= i < hi - lo
        ensures t[lo - b..hi - b][i] == s[lo..hi][i]
      {
        assert t[lo - b + i] == s[lo + i];
      }
    }
  }

  /** Python's `str.strip()` with no argument. */
  function Strip(s: string): (r: string)
    ensures |r| <= |s|
  {
    StripRange(s, 0, |s|)
  }

  /** A string with no whitespace at either end is its own strip. */
  lemma StripNoEdges(s: string)
    requires s == [] || (!IsSpace(s[0]) && !IsSpace(s[|s| - 1]))
    ensures Strip(s) == s
  {
    assert s[0..|s|] == s;
  }

  /** Stripping is idempotent. */
  lemma StripIdempotent(s: string)
    ensures Strip(Strip(s)) == Strip(s)
  {
    StripRangeHasNoEdgeSpaces(s, 0, |s|);
    StripNoEdges(Strip(s));
  }

  lemma StripSpaceFree(s: string)
    requires SpaceFree(s)
    ensures Strip(s) == s
  {
    StripNoEdges(s);
  }

  /** Python's `s.rstrip(c)` for a single character `c`. */
  function TrimTrailing(s: string, c: char): (r: string)
    ensures |r| <= |s| && r == s[..|r|]
    ensures r == [] || r[|r| - 1] != c
    ensures forall i :: |r| <= i < |s| ==> s[i] == c
  {
    if |s| > 0 && s[|s| - 1] == c then TrimTrailing(s[..|s| - 1], c) else s
  }

  function DigitChar(d: nat): (c: char)
    requires d < 10
    ensures '0' <= c <= '9'
  {
    (48 + d) as char
  }

  /** Python's `str(n)` for a non-negative integer: its decimal digits. */
  function NatToString(n: nat): (s: string)
    ensures |s| >= 1
    ensures (|s| == 1) == (n < 10)
    ensures forall i :: 0 <= i < |s| ==> '0' <= s[i] <= '9'
  {
    if n < 10 then [DigitChar(n)] else NatToString(n / 10) + [DigitChar(n % 10)]
  }

  /** Distinct numbers have distinct decimal renderings. */
  lemma {:induction false} NatToStringInjective(m: nat, n: nat)
    requires NatToString(m) == NatToString(n)
    ensures m == n
  {
    if m >= 10 && n >= 10 {
      var sm, sn := NatToString(m), NatToString(n);
      assert sm[|sm| - 1] == sn[|sn| - 1];
      assert m % 10 == n % 10;
      assert NatToString(m / 10) == sm[..|sm| - 1];
      assert NatToString(n / 10) == sn[..|sn| - 1];
      NatToStringInjective(m / 10, n / 10);
    }
  }

  /** Python's `sep.join(parts)`. */
  function Join(sep: string, parts: seq<string>): (r: string)
  {
    if |parts| == 0 then ""
    else if |parts| == 1 then parts[0]
    else Join(sep, parts[..|parts| - 1]) + sep + parts[|parts| - 1]
  }

  /** Every part occurs in the joined string. */
  lemma {:induction false} JoinContainsPart(sep: string, parts: seq<string>, k: nat)
    requires k < |parts|
    ensures Contains(Join(sep, parts), parts[k])
  {
    if |parts| == 1 {
      InfixContained("", parts[0], "");
      assert "" + parts[0] + "" == parts[0];
    } else if k == |parts| - 1 {
      InfixContained(Join(sep, parts[..|parts| - 1]) + sep, parts[k], "");
      assert Join(sep, parts[..|parts| - 1]) + sep + parts[k] + "" == Join(sep, parts);
    } else {
      var init := parts[..|parts| - 1];
      JoinContainsPart(sep, init, k);
      ContainsExtended(Join(sep, init), sep + parts[|parts| - 1], parts[k]);
      assert Join(sep, init) + (sep + parts[|parts| - 1]) == Join(sep, parts);
    }
  }
}
