/**
  PHP's `trim()` with its default character list, as the reservation handler applies it to the
  new-customer fields before checking them for emptiness. Like PHP's own implementation, it scans
  for the first and the last character to keep and returns the slice between them.
 */
module PhpText {

  /** The characters `trim()` strips by default: space, tab, line feed, carriage return, NUL and vertical tab. */
  predicate IsTrimmable(c: char) {
    c == ' ' || c == '\t' || c == '\n' || c == '\r' || c == '\0' || c == '\U{000B}'
  }

  /** A string made only of trimmable characters (the empty string included). */
  predicate IsBlank(s: string) {
    forall i :: 0 <= i < |s| ==> IsTrimmable(s[i])
  }

  /** The positions `lo` up to `hi` of `s` hold only trimmable characters. */
  predicate BlankSpan(s: string, lo: int, hi: int)
    requires 0 <= lo <= hi <= |s|
  {
    forall i :: lo <= i < hi ==> IsTrimmable(s[i])
  }

  /** The first position at or after `lo` that is not trimmable (`|s|` if there is none). */
  function KeptStart(s: string, lo: nat): (i: nat)
    requires lo <= |s|
    ensures lo <= i <= |s| && BlankSpan(s, lo, i)
    ensures i == |s| || !IsTrimmable(s[i])
    decreases |s| - lo
  {
    if lo < |s| && IsTrimmable(s[lo]) then KeptStart(s, lo + 1) else lo
  }

  /** The end of the kept text: the position after the last non-trimmable character in `lo..hi` (`lo` if none). */
  function KeptEnd(s: string, lo: nat, hi: nat): (j: nat)
    requires lo <= hi <= |s|
    ensures lo <= j <= hi && BlankSpan(s, j, hi)
    ensures j == lo || !IsTrimmable(s[j - 1])
    decreases hi - lo
  {
    if lo < hi && IsTrimmable(s[hi - 1]) then KeptEnd(s, lo, hi - 1) else hi
  }

  /** `trim($s)`: a slice of `s` with a blank prefix and a blank suffix cut off, neither of whose ends is trimmable. */
  function Trim(s: string): (r: string)
    ensures |r| <= |s|
    ensures r == [] || (!IsTrimmable(r[0]) && !IsTrimmable(r[|r| - 1]))
    ensures r == [] <==> IsBlank(s)
    ensures exists i :: 0 <= i <= |s| - |r| && r == s[i..i + |r|] && BlankSpan(s, 0, i) && BlankSpan(s, i + |r|, |s|)
  {
    var i := KeptStart(s, 0);
    var j := KeptEnd(s, i, |s|);
    assert IsBlank(s) ==> i == |s|;
    assert i == j ==> IsBlank(s);
    s[i..j]
  }

  /** Any blank stretch from `lo` that ends at a kept character (or at the end) is where `KeptStart` stops. */
  lemma KeptStartUnique(s: string, lo: nat, i: nat)
    requires lo <= i <= |s| && BlankSpan(s, lo, i) && (i == |s| || !IsTrimmable(s[i]))
    ensures KeptStart(s, lo) == i
  {
  }

  /** Any blank stretch up to `hi` that starts after a kept character (or at `lo`) is where `KeptEnd` stops. */
  lemma KeptEndUnique(s: string, lo: nat, hi: nat, j: nat)
    requires lo <= j <= hi <= |s| && BlankSpan(s, j, hi) && (j == lo || !IsTrimmable(s[j - 1]))
    ensures KeptEnd(s, lo, hi) == j
  {
  }

  /** Trimming twice is trimming once. */
  lemma TrimIdempotent(s: string)
    ensures Trim(Trim(s)) == Trim(s)
  {
    var t := Trim(s);
    KeptStartUnique(t, 0, 0);
    KeptEndUnique(t, 0, |t|, |t|);
    assert t[0..|t|] == t;
  }

  /** Surrounding `s` with blank text on either side does not change `trim($s)`. */
  lemma TrimIgnoresPadding(a: string, s: string, b: string)
    requires IsBlank(a) && IsBlank(b)
    ensures Trim(a + s + b) == Trim(s)
  {
    if IsBlank(s) {
      PaddedBlank(a, s, b);
    } else {
      TrimPaddedKept(a, s, b, KeptStart(s, 0), KeptEnd(s, KeptStart(s, 0), |s|));
    }
  }

  /** For a string that is not blank, the padded string keeps the same characters as `s`. */
  lemma TrimPaddedKept(a: string, s: string, b: string, i: nat, j: nat)
    requires IsBlank(a) && IsBlank(b) && !IsBlank(s)
    requires i == KeptStart(s, 0) && j == KeptEnd(s, i, |s|)
    ensures Trim(a + s + b) == s[i..j] == Trim(s)
  {
    var x := a + s + b;
    PaddedStart(a, s, b, i);
    PaddedEnd(a, s, b, i, j);
    forall k | 0 <= k < j - i ensures x[|a| + i..|a| + j][k] == s[i..j][k] {
      PaddedIndex(a, s, b, |a| + i + k);
    }
    TrimKept(x, |a| + i, |a| + j);
    TrimKept(s, i, j);
  }

  /** `trim` keeps exactly the text between `KeptStart` and `KeptEnd`. */
  lemma TrimKept(s: string, i: nat, j: nat)
    requires i == KeptStart(s, 0) && j == KeptEnd(s, i, |s|)
    ensures Trim(s) == s[i..j]
  {
  }

  /** Position `k` of `a + s + b`, told by the part it falls in. */
  lemma PaddedIndex(a: string, s: string, b: string, k: int)
    requires 0 <= k < |a + s + b|
    ensures k < |a| ==> (a + s + b)[k] == a[k]
    ensures |a| <= k < |a| + |s| ==> (a + s + b)[k] == s[k - |a|]
    ensures |a| + |s| <= k ==> (a + s + b)[k] == b[k - |a| - |s|]
  {
  }

  /** Blank text around a blank string is blank. */
  lemma PaddedBlank(a: string, s: string, b: string)
    requires IsBlank(a) && IsBlank(s) && IsBlank(b)
    ensures IsBlank(a + s + b)
  {
    forall k | 0 <= k < |a + s + b| ensures IsTrimmable((a + s + b)[k]) {
      PaddedIndex(a, s, b, k);
    }
  }

  /** The first kept character of the padded string is the first kept character of `s`, shifted past `a`. */
  lemma PaddedStart(a: string, s: string, b: string, i: nat)
    requires IsBlank(a) && i < |s| && i == KeptStart(s, 0)
    ensures KeptStart(a + s + b, 0) == |a| + i
  {
    var x := a + s + b;
    forall k | 0 <= k < |a| + i ensures IsTrimmable(x[k]) {
      PaddedIndex(a, s, b, k);
    }
    PaddedIndex(a, s, b, |a| + i);
    KeptStartUnique(x, 0, |a| + i);
  }

  /** The end of the kept text of the padded string is that of `s`, shifted past `a`. */
  lemma PaddedEnd(a: string, s: string, b: string, i: nat, j: nat)
    requires IsBlank(b) && i <= |s| && j == KeptEnd(s, i, |s|)
    ensures KeptEnd(a + s + b, |a| + i, |a + s + b|) == |a| + j
  {
    var x := a + s + b;
    forall k | |a| + j <= k < |x| ensures IsTrimmable(x[k]) {
      PaddedIndex(a, s, b, k);
    }
    if j > i {
      PaddedIndex(a, s, b, |a| + j - 1);
    }
    KeptEndUnique(x, |a| + i, |x|, |a| + j);
  }
}
