/** String helpers with the semantics of Python's `str.find` / `str.replace` and
    JavaScript's `String.prototype.replaceAll` / `Array.prototype.join`. */
module Strings {
  /** True when `pat` occurs at position `i` of `s`. */
  predicate OccursAt(s: string, pat: string, i: int)
  {
    0 <= i && i + |pat| <= |s| && forall j :: 0 <= j < |pat| ==> s[i + j] == pat[j]
  }

  /** `s.find(pat)`: the first index where `pat` occurs, or -1. */
  function Find(s: string, pat: string): (r: int)
    ensures -1 <= r <= |s|
    ensures r == -1 <==> forall i :: 0 <= i <= |s| ==> !OccursAt(s, pat, i)
    ensures r >= 0 ==> OccursAt(s, pat, r) && forall i :: 0 <= i < r ==> !OccursAt(s, pat, i)
  {
    if |s| < |pat| then
      assert forall i :: 0 <= i <= |s| ==> !OccursAt(s, pat, i);
      -1
    else if OccursAt(s, pat, 0) then
      0
    else
      var k := Find(s[1..], pat);
      assert forall i :: 1 <= i <= |s| ==> (OccursAt(s, pat, i) <==> OccursAt(s[1..], pat, i - 1));
      if k == -1 then -1 else assert OccursAt(s, pat, k + 1); k + 1
  }

  /** `s` contains `pat` somewhere (Python `s.find(pat) != -1`). */
  predicate Contains(s: string, pat: string)
  {
    Find(s, pat) != -1
  }

  /** Every non-overlapping occurrence of `pat`, scanning left to right, replaced by `rep`
      (Python `str.replace`, JavaScript `replaceAll` with a string pattern). */
  function ReplaceAll(s: string, pat: string, rep: string): (r: string)
    requires |pat| > 0
    decreases |s|
  {
    if |s| < |pat| then s
    else if OccursAt(s, pat, 0) then rep + ReplaceAll(s[|pat|..], pat, rep)
    else [s[0]] + ReplaceAll(s[1..], pat, rep)
  }

  /** A string without `pat` is left unchanged by `ReplaceAll`. */
  lemma {:induction false} ReplaceAllAbsent(s: string, pat: string, rep: string)
    requires |pat| > 0 && !Contains(s, pat)
    ensures ReplaceAll(s, pat, rep) == s
    decreases |s|
  {
    if |s| >= |pat| {
      assert !OccursAt(s, pat, 0);
      assert !Contains(s[1..], pat) by {
        assert forall i :: 1 <= i <= |s| ==> (OccursAt(s, pat, i) <==> OccursAt(s[1..], pat, i - 1));
      }
      ReplaceAllAbsent(s[1..], pat, rep);
      assert s == [s[0]] + s[1..];
    }
  }

  /** Replacing a one-character pattern never changes the length when the replacement
      is one character too (used for the space-to-underscore rename). */
  lemma {:induction false} ReplaceAllSameLength(s: string, pat: string, rep: string)
    requires |pat| == 1 && |rep| == 1
    ensures |ReplaceAll(s, pat, rep)| == |s|
    decreases |s|
  {
    if |s| >= 1 {
      ReplaceAllSameLength(s[1..], pat, rep);
    }
  }

  /** Replacing one character by another leaves no occurrence of it behind. */
  lemma {:induction false} ReplaceAllCharRemovesAll(s: string, c: char, d: char)
    requires c != d
    ensures forall i :: 0 <= i < |ReplaceAll(s, [c], [d])| ==> ReplaceAll(s, [c], [d])[i] != c
    decreases |s|
  {
    if |s| >= 1 {
      ReplaceAllCharRemovesAll(s[1..], c, d);
    }
  }

  /** `parts.join(sep)`. */
  function Join(parts: seq<string>, sep: string): (r: string)
    ensures parts == [] ==> r == ""
    ensures |parts| == 1 ==> r == parts[0]
  {
    if |parts| == 0 then ""
    else if |parts| == 1 then parts[0]
    else parts[0] + sep + Join(parts[1..], sep)
  }

  /** Decimal digits of a natural number, as `String(n)` prints it. */
  function NatToString(n: nat): (r: string)
    ensures |r| > 0
    ensures forall i :: 0 <= i < |r| ==> '0' <= r[i] <= '9'
    decreases n
  {
    if n < 10 then [Digit(n)] else NatToString(n / 10) + [Digit(n % 10)]
  }

  function Digit(d: nat): (c: char)
    requires d < 10
    ensures '0' <= c <= '9'
  {
    ['0', '1', '2', '3', '4', '5', '6', '7', '8', '9'][d]
  }
}
