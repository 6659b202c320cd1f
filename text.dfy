/** The Python string operations the repository relies on: `sep.join`,
    `str.split` on one character, `str.strip`, `in` on substrings,
    `str.split(token)[0]` and `str(i)` on naturals. */
module Text {
  import opened Documents

  // ---------------------------------------------------------------------
  // sep.join(parts)
  // ---------------------------------------------------------------------

  /** `sep.join(parts)`. */
  function Join(sep: string, parts: seq<string>): string
  {
    if |parts| == 0 then ""
    else if |parts| == 1 then parts[0]
    else parts[0] + sep + Join(sep, parts[1..])
  }

  /** Joining one more part appends the separator and that part. */
  lemma {:induction false} JoinAppend(sep: string, parts: seq<string>, last: string)
    requires |parts| > 0
    ensures Join(sep, parts + [last]) == Join(sep, parts) + sep + last
  {
    if |parts| > 1 {
      assert (parts + [last])[1..] == parts[1..] + [last];
      JoinAppend(sep, parts[1..], last);
    }
  }

  /** The joined text is every part in order with one separator between
      neighbours, so its length is the parts' lengths plus the separators. */
  function TotalLength(parts: seq<string>): nat
  {
    if |parts| == 0 then 0 else |parts[0]| + TotalLength(parts[1..])
  }

  lemma {:induction false} JoinLength(sep: string, parts: seq<string>)
    requires |parts| > 0
    ensures |Join(sep, parts)| == TotalLength(parts) + (|parts| - 1) * |sep|
  {
    if |parts| > 1 {
      JoinLength(sep, parts[1..]);
    }
  }

  /** The first part is a prefix of the joined text. */
  lemma {:induction false} JoinStartsWithFirst(sep: string, parts: seq<string>)
    requires |parts| > 0
    ensures |parts[0]| <= |Join(sep, parts)| && Join(sep, parts)[..|parts[0]|] == parts[0]
  {
  }

  // ---------------------------------------------------------------------
  // s.split(c) for a one-character separator
  // ---------------------------------------------------------------------

  /** `s.split(c)`: the pieces between occurrences of `c`, always at least one. */
  function Split(s: string, c: char): (parts: seq<string>)
    ensures |parts| >= 1
  {
    if |s| == 0 then [""]
    else
      var rest := Split(s[1..], c);
      if s[0] == c then [""] + rest
      else [[s[0]] + rest[0]] + rest[1..]
  }

  /** No piece contains the separator. */
  lemma {:induction false} SplitPiecesFree(s: string, c: char)
    ensures forall k :: 0 <= k < |Split(s, c)| ==> c !in Split(s, c)[k]
  {
    if |s| > 0 {
      SplitPiecesFree(s[1..], c);
      var rest := Split(s[1..], c);
      if s[0] != c {
        assert c !in rest[0];
        var parts := Split(s, c);
        forall k | 0 <= k < |parts| ensures c !in parts[k] {
          if k > 0 { assert parts[k] == rest[k]; }
        }
      }
    }
  }

  /** Splitting then joining with the same separator gives the text back. */
  lemma {:induction false} SplitJoin(s: string, c: char)
    ensures Join([c], Split(s, c)) == s
  {
    if |s| > 0 {
      SplitJoin(s[1..], c);
      var rest := Split(s[1..], c);
      if s[0] == c {
        assert Join([c], [""] + rest) == "" + [c] + Join([c], rest);
      } else {
        var parts := [[s[0]] + rest[0]] + rest[1..];
        if |rest| == 1 {
          assert parts == [[s[0]] + rest[0]];
        } else {
          assert parts[1..] == rest[1..];
          assert Join([c], parts) == [s[0]] + rest[0] + [c] + Join([c], rest[1..]);
        }
        assert s == [s[0]] + s[1..];
      }
    }
  }

  // ---------------------------------------------------------------------
  // s.strip(chars)
  // ---------------------------------------------------------------------

  /** The characters Python's `str.isspace()` accepts, which `str.strip()`
      with no argument removes. */
  const Whitespace: set<char> := {
    '\t', '\n', '\U{0B}', '\U{0C}', '\r', '\U{1C}', '\U{1D}', '\U{1E}', '\U{1F}', ' ',
    '\U{85}', '\U{A0}', '\U{1680}', '\U{2000}', '\U{2001}', '\U{2002}', '\U{2003}',
    '\U{2004}', '\U{2005}', '\U{2006}', '\U{2007}', '\U{2008}', '\U{2009}', '\U{200A}',
    '\U{2028}', '\U{2029}', '\U{202F}', '\U{205F}', '\U{3000}'
  }

  /** `s.lstrip(cs)`: the suffix left after the longest prefix of characters in `cs`. */
  function TrimStart(s: string, cs: set<char>): (r: string)
    ensures |r| <= |s| && r == s[|s| - |r|..]
    ensures forall i :: 0 <= i < |s| - |r| ==> s[i] in cs
    ensures |r| > 0 ==> r[0] !in cs
  {
    if |s| > 0 && s[0] in cs then TrimStart(s[1..], cs) else s
  }

  /** `s.rstrip(cs)`: the prefix left after the longest suffix of characters in `cs`. */
  function TrimEnd(s: string, cs: set<char>): (r: string)
    ensures |r| <= |s| && r == s[..|r|]
    ensures forall i :: |r| <= i < |s| ==> s[i] in cs
    ensures |r| > 0 ==> r[|r| - 1] !in cs
  {
    if |s| > 0 && s[|s| - 1] in cs then TrimEnd(s[..|s| - 1], cs) else s
  }

  /** `s.strip(cs)`: leading characters in `cs` are removed, then trailing ones. */
  function Strip(s: string, cs: set<char>): string
  {
    TrimEnd(TrimStart(s, cs), cs)
  }

  /** `s[lo..hi]` is `r`, everything outside it is in `cs`, and `r` neither
      starts nor ends with a character of `cs`. */
  predicate StrippedAt(s: string, cs: set<char>, r: string, lo: int, hi: int)
  {
    0 <= lo <= hi <= |s| && r == s[lo..hi]
    && (forall i :: 0 <= i < lo ==> s[i] in cs)
    && (forall i :: hi <= i < |s| ==> s[i] in cs)
    && (|r| > 0 ==> r[0] !in cs && r[|r| - 1] !in cs)
  }

  /** Strip returns a contiguous piece `s[lo..hi]` of its input that starts
      and ends outside `cs`, and all that it removed is in `cs`. */
  lemma StripBounds(s: string, cs: set<char>) returns (lo: int, hi: int)
    ensures StrippedAt(s, cs, Strip(s, cs), lo, hi)
  {
    var t := TrimStart(s, cs);
    var r := TrimEnd(t, cs);
    lo, hi := |s| - |t|, |s| - |t| + |r|;
    SuffixPrefix(s, lo, |r|);
    forall i | hi <= i < |s| ensures s[i] in cs {
      assert s[i] == t[i - lo];
    }
  }

  /** A prefix of a suffix is a slice, read at the same positions. */
  lemma SuffixPrefix(s: string, lo: nat, k: nat)
    requires lo + k <= |s|
    ensures s[lo..][..k] == s[lo..lo + k]
    ensures forall i :: lo <= i < |s| ==> s[lo..][i - lo] == s[i]
  {
  }

  /** Which characters count as "stripped" is exactly decided by `cs`:
      the result is empty iff every character of `s` is in `cs`. */
  lemma StripEmptyIff(s: string, cs: set<char>)
    ensures Strip(s, cs) == "" <==> forall i :: 0 <= i < |s| ==> s[i] in cs
  {
    var lo, hi := StripBounds(s, cs);
    var r := Strip(s, cs);
    if r != "" {
      assert s[lo] == r[0];
    }
  }

  /** Stripping twice with the same set changes nothing more. */
  lemma StripIdempotent(s: string, cs: set<char>)
    ensures Strip(Strip(s, cs), cs) == Strip(s, cs)
  {
    var r := Strip(s, cs);
    var lo, hi := StripBounds(s, cs);
    assert TrimStart(r, cs) == r;
    assert TrimEnd(r, cs) == r;
  }

  /** `r` occurs as a contiguous piece of `s`. */
  predicate IsSubstring(r: string, s: string)
  {
    exists lo, hi :: 0 <= lo <= hi <= |s| && r == s[lo..hi]
  }

  lemma StripIsSubstring(s: string, cs: set<char>)
    ensures IsSubstring(Strip(s, cs), s)
  {
    var lo, hi := StripBounds(s, cs);
  }

  lemma SubstringTransitive(a: string, b: string, c: string)
    requires IsSubstring(a, b) && IsSubstring(b, c)
    ensures IsSubstring(a, c)
  {
    var lo1, hi1 :| 0 <= lo1 <= hi1 <= |b| && a == b[lo1..hi1];
    var lo2, hi2 :| 0 <= lo2 <= hi2 <= |c| && b == c[lo2..hi2];
    forall k | 0 <= k < |a| ensures a[k] == c[lo2 + lo1 + k] {
      assert a[k] == b[lo1 + k];
    }
    assert a == c[lo2 + lo1..lo2 + hi1];
  }

  // ---------------------------------------------------------------------
  // token in s, s.split(token)[0]
  // ---------------------------------------------------------------------

  /** `t` occurs in `s` starting at position `k`. */
  predicate OccursAt(s: string, t: string, k: int)
  {
    0 <= k && k + |t| <= |s| && s[k..k + |t|] == t
  }

  /** Python's `t in s`. */
  ghost predicate Contains(s: string, t: string)
  {
    exists k :: OccursAt(s, t, k)
  }

  /** The first position at or after `from` where `t` occurs, if any. */
  function FindFrom(s: string, t: string, from: nat): (r: Option<nat>)
    requires from <= |s|
    ensures r.Some? ==> from <= r.value && OccursAt(s, t, r.value)
    ensures r.Some? ==> forall k :: from <= k < r.value ==> !OccursAt(s, t, k)
    ensures r.None? ==> forall k :: from <= k ==> !OccursAt(s, t, k)
    decreases |s| - from
  {
    if OccursAt(s, t, from) then Some(from)
    else if from == |s| then None
    else FindFrom(s, t, from + 1)
  }

  /** The position of the first occurrence of `t` in `s`, or None when `t in s` is false. */
  function FindFirst(s: string, t: string): (r: Option<nat>)
    ensures r.Some? <==> Contains(s, t)
    ensures r.Some? ==> OccursAt(s, t, r.value) && forall k :: 0 <= k < r.value ==> !OccursAt(s, t, k)
  {
    FindFrom(s, t, 0)
  }

  // ---------------------------------------------------------------------
  // str(n)
  // ---------------------------------------------------------------------

  function DigitChar(d: nat): (c: char)
    requires d < 10
  {
    "0123456789"[d]
  }

  /** `str(n)` for a natural number: its decimal digits, no leading zero. */
  function NatToString(n: nat): (s: string)
    ensures |s| >= 1
    ensures n >= 10 <==> |s| >= 2
  {
    if n < 10 then [DigitChar(n)] else NatToString(n / 10) + [DigitChar(n % 10)]
  }

  /** Distinct numbers have distinct decimal strings. */
  lemma {:induction false} NatToStringInjective(a: nat, b: nat)
    requires NatToString(a) == NatToString(b)
    ensures a == b
  {
    var sa, sb := NatToString(a), NatToString(b);
    if a >= 10 && b >= 10 {
      assert sa[|sa| - 1] == sb[|sb| - 1];
      assert DigitChar(a % 10) == DigitChar(b % 10);
      assert a % 10 == b % 10;
      assert NatToString(a / 10) == sa[..|sa| - 1] == sb[..|sb| - 1] == NatToString(b / 10);
      NatToStringInjective(a / 10, b / 10);
    } else if a < 10 && b < 10 {
      assert DigitChar(a) == DigitChar(b);
    }
  }
}
