/** The two pieces of Python semantics the tracker's index arithmetic rests on:
    `int(x)` on a float, which truncates toward zero, and slicing `s[start:stop]`
    with step 1, where a negative bound counts from the end, out-of-range
    bounds are clamped and `start >= stop` gives an empty slice. */
module PySemantics {

  /** Python's `int(x)` for a float `x`: truncation toward zero. */
  function Trunc(x: real): (n: int)
    ensures x >= 0.0 ==> n as real <= x < n as real + 1.0
    ensures x < 0.0 ==> n as real - 1.0 < x <= n as real
  {
    if x >= 0.0 then x.Floor else -((-x).Floor)
  }

  /** Truncation of a whole number is that number, and truncation is odd. */
  lemma {:induction false} TruncProperties(x: real, k: int)
    ensures Trunc(k as real) == k
    ensures Trunc(-x) == -Trunc(x)
  {
  }

  /** How a slice bound of a sequence of length `len` is adjusted when the
      step is 1: a negative bound counts from the end; what is still out of
      range is clamped to [0, len]. */
  function AdjustIndex(i: int, len: nat): (r: nat)
    ensures r <= len
    ensures 0 <= i <= len ==> r == i
    ensures -(len as int) <= i < 0 ==> r == len + i
    ensures i < -(len as int) ==> r == 0
    ensures i > len ==> r == len
  {
    if i < 0 then (if len + i < 0 then 0 else len + i)
    else if i > len then len
    else i
  }

  /** The number of elements `s[start:stop]` has when `|s| == len`. */
  function SliceLen(len: nat, start: int, stop: int): (n: nat)
    ensures n <= len
    ensures n == 0 <==> AdjustIndex(stop, len) <= AdjustIndex(start, len)
  {
    var lo, hi := AdjustIndex(start, len), AdjustIndex(stop, len);
    if lo < hi then hi - lo else 0
  }

  /** Python's `s[start:stop]`. */
  function Slice<T>(s: seq<T>, start: int, stop: int): (r: seq<T>)
    ensures |r| == SliceLen(|s|, start, stop)
    ensures forall k :: 0 <= k < |r| ==> AdjustIndex(start, |s|) + k < |s| && r[k] == s[AdjustIndex(start, |s|) + k]
  {
    var lo, hi := AdjustIndex(start, |s|), AdjustIndex(stop, |s|);
    if lo < hi then s[lo..hi] else []
  }

  /** With in-range bounds a Python slice is the plain subsequence; a negative
      start `-k` takes the last `k` elements; a start at or past the stop
      gives nothing. */
  lemma {:induction false} SliceCases<T>(s: seq<T>, start: int, stop: int, k: nat)
    ensures 0 <= start <= stop <= |s| ==> Slice(s, start, stop) == s[start..stop]
    ensures 0 < k <= |s| ==> Slice(s, -(k as int), |s|) == s[|s| - k..]
    ensures 0 <= stop <= start ==> Slice(s, start, stop) == []
  {
  }

  /** A negative start counts back from the end. When it lands at or past a
      non-negative stop, the slice is empty, although `start < stop`. */
  lemma {:induction false} NegativeStartEmpty(len: nat, start: int, stop: int)
    requires -(len as int) <= start < 0 <= stop <= len + start
    ensures start < stop && SliceLen(len, start, stop) == 0
  {
    assert AdjustIndex(start, len) == len + start;
    assert AdjustIndex(stop, len) == stop;
  }
}
