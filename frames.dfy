/** The frame list of a recording: the numeric key read from each file name
    with the pattern `([0-9]+)\.png` (-1 when the pattern does not occur),
    the list sorted by that key, the time step of every frame (0 for the
    first, then the differences of consecutive timestamps, or a fixed frame
    period), and the pairing of frames with their time steps. */
module FrameList {
  import opened Optional
  import opened Weights

  predicate IsDigit(c: char)
  {
    '0' <= c <= '9'
  }

  predicate AllDigits(s: string)
  {
    forall i :: 0 <= i < |s| ==> IsDigit(s[i])
  }

  /** Python's `int()` of a string of decimal digits. */
  function DigitsValue(ds: string): (n: nat)
    requires AllDigits(ds)
  {
    if ds == [] then 0 else DigitsValue(ds[..|ds| - 1]) * 10 + (ds[|ds| - 1] as int - '0' as int)
  }

  /** Where the run of digits that starts at `p` ends. */
  function RunEnd(s: string, p: nat): (q: nat)
    requires p <= |s|
    ensures p <= q <= |s|
    ensures forall k :: p <= k < q ==> IsDigit(s[k])
    ensures q == |s| || !IsDigit(s[q])
    decreases |s| - p
  {
    if p < |s| && IsDigit(s[p]) then RunEnd(s, p + 1) else p
  }

  /** The regular expression `([0-9]+)\.png` matches at `p` with the group
      `s[p..e]`: one or more digits, then the text ".png". */
  ghost predicate RegexMatch(s: string, p: nat, e: nat)
  {
    p < e && e + 4 <= |s| && AllDigits(s[p..e]) && s[e..e + 4] == ".png"
  }

  /** The pattern matches at `p`: the whole digit run starting there is
      followed by ".png". */
  predicate MatchAt(s: string, p: nat)
    requires p <= |s|
  {
    var q := RunEnd(s, p);
    p < q && q + 4 <= |s| && s[q..q + 4] == ".png"
  }

  /** Backtracking cannot help the greedy digit run: a digit is never the
      "." that must follow the group, so the pattern matches at `p` exactly
      when it matches with the whole run as its group, and that is its only
      match there. */
  lemma {:induction false} MatchAtIsRegexMatch(s: string, p: nat, e: nat)
    requires p <= |s|
    ensures MatchAt(s, p) ==> RegexMatch(s, p, RunEnd(s, p))
    ensures RegexMatch(s, p, e) ==> MatchAt(s, p) && e == RunEnd(s, p)
  {
    var q := RunEnd(s, p);
    if RegexMatch(s, p, e) {
      forall k | p <= k < e
        ensures IsDigit(s[k])
      {
        assert s[k] == s[p..e][k - p];
      }
      assert s[e] == s[e..e + 4][0];
    }
    if MatchAt(s, p) {
      forall k | 0 <= k < q - p
        ensures IsDigit(s[p..q][k])
      {
        assert s[p..q][k] == s[p + k];
      }
    }
  }

  /** The leftmost position at or after `from` where the pattern matches. */
  function Search(s: string, from: nat): (r: Option<nat>)
    requires from <= |s|
    ensures r.Some? ==> from <= r.value <= |s| && MatchAt(s, r.value) &&
                        forall k :: from <= k < r.value ==> !MatchAt(s, k)
    ensures r.None? ==> forall k :: from <= k <= |s| ==> !MatchAt(s, k)
    decreases |s| - from
  {
    if MatchAt(s, from) then Some(from)
    else if from == |s| then None
    else Search(s, from + 1)
  }

  /** `extract_number`: the value of the group of the leftmost match of
      `([0-9]+)\.png` in `name`, or -1 when there is none. */
  function ExtractNumber(name: string): (n: int)
    ensures n >= -1
    ensures n == -1 <==> forall p :: 0 <= p <= |name| ==> !MatchAt(name, p)
    ensures n >= 0 ==> exists p :: 0 <= p <= |name| && MatchAt(name, p) &&
                                   (forall k :: 0 <= k < p ==> !MatchAt(name, k)) &&
                                   n == DigitsValue(name[p..RunEnd(name, p)])
  {
    match Search(name, 0)
    case None => -1
    case Some(p) =>
      var q := RunEnd(name, p);
      assert forall k :: 0 <= k < q - p ==> name[p..q][k] == name[p + k];
      DigitsValue(name[p..q])
  }

  /** `text` occurs in `s` at position `i`. */
  predicate OccursAt(s: string, text: string, i: nat)
  {
    i + |text| <= |s| && s[i..i + |text|] == text
  }

  /** `text` does not occur in `s`. */
  ghost predicate Free(s: string, text: string)
  {
    forall i: nat :: !OccursAt(s, text, i)
  }

  /** A frame named `prefix + digits + ".png"`, whose prefix neither ends in a
      digit nor contains ".png", gets its digits' value as key. */
  lemma {:induction false} ExtractNumberOfFrameName(prefix: string, ds: string)
    requires ds != [] && AllDigits(ds)
    requires prefix == [] || !IsDigit(prefix[|prefix| - 1])
    requires Free(prefix, ".png")
    ensures ExtractNumber(prefix + ds + ".png") == DigitsValue(ds)
  {
    var s := prefix + ds + ".png";
    var m := |prefix|;
    var q0 := m + |ds|;
    FrameNameShape(prefix, ds, ".png");
    ConcatPieces(prefix, ds, ".png");
    assert s[q0..q0 + 4] == ".png";
    assert MatchAt(s, m);
    assert s[m] == ds[0];
    forall p | 0 <= p < m
      ensures !MatchAt(s, p)
    {
      NoMatchInPrefix(s, prefix, p);
    }
    ExtractNumberAt(s, m);
  }

  /** The key is read from the leftmost match. */
  lemma {:induction false} ExtractNumberAt(s: string, m: nat)
    requires m <= |s| && MatchAt(s, m)
    requires forall p :: 0 <= p < m ==> !MatchAt(s, p)
    ensures ExtractNumber(s) == DigitsValue(s[m..RunEnd(s, m)])
  {
    assert Search(s, 0) == Some(m);
  }

  /** Where the digit run that starts right after the prefix ends. */
  lemma {:induction false} FrameNameShape(prefix: string, ds: string, tail: string)
    requires AllDigits(ds) && (tail == [] || !IsDigit(tail[0]))
    ensures RunEnd(prefix + ds + tail, |prefix|) == |prefix| + |ds|
  {
    var s := prefix + ds + tail;
    var m := |prefix|;
    var e := m + |ds|;
    forall k | m <= k < e
      ensures IsDigit(s[k])
    {
      assert s[k] == ds[k - m];
    }
    if tail != [] {
      assert s[e] == tail[0];
    }
    RunEndAt(s, m, e);
  }

  lemma {:induction false} ConcatPieces<T>(a: seq<T>, b: seq<T>, c: seq<T>)
    ensures var s := a + b + c;
            s[..|a|] == a && s[|a|..|a| + |b|] == b && s[|a| + |b|..] == c
  {
  }

  /** A start inside a prefix that neither contains ".png" nor ends in a
      digit, and that is followed by a digit, cannot match. */
  lemma {:induction false} NoMatchInPrefix(s: string, prefix: string, p: nat)
    requires p < |prefix| < |s| && s[..|prefix|] == prefix
    requires !IsDigit(prefix[|prefix| - 1]) && Free(prefix, ".png")
    requires IsDigit(s[|prefix|])
    ensures !MatchAt(s, p)
  {
    var m := |prefix|;
    var q := RunEnd(s, p);
    assert s[m - 1] == prefix[m - 1];
    if q + 4 <= m {
      assert s[q..q + 4] == s[..m][q..q + 4];
      assert !OccursAt(prefix, ".png", q);
    } else if q + 4 <= |s| {
      assert s[q..q + 4][m - q] == s[m];
    }
  }

  lemma {:induction false} RunEndAt(s: string, p: nat, q: nat)
    requires p <= q <= |s|
    requires forall k :: p <= k < q ==> IsDigit(s[k])
    requires q == |s| || !IsDigit(s[q])
    ensures RunEnd(s, p) == q
    decreases q - p
  {
    if p < q {
      RunEndAt(s, p + 1, q);
    }
  }

  /** Items in ascending order of their keys. */
  predicate SortedBy<T>(items: seq<T>, key: T -> int)
  {
    forall i, j :: 0 <= i < j < |items| ==> key(items[i]) <= key(items[j])
  }

  /** `x` placed into a sorted list after every item whose key is not larger
      than its own. */
  function InsertBy<T>(x: T, sorted: seq<T>, key: T -> int): (r: seq<T>)
    requires SortedBy(sorted, key)
    ensures SortedBy(r, key)
    ensures multiset(r) == multiset(sorted) + multiset{x}
  {
    if sorted == [] then [x]
    else if key(x) <= key(sorted[0]) then [x] + sorted
    else
      var rest := InsertBy(x, sorted[1..], key);
      assert sorted == [sorted[0]] + sorted[1..];
      LowerBoundKept(sorted[0], x, sorted[1..], rest, key);
      [sorted[0]] + rest
  }

  /** Putting `head`, whose key bounds those of `x` and `tail` from below,
      in front of a rearrangement of `tail` with `x` keeps the order. */
  lemma {:induction false} LowerBoundKept<T>(head: T, x: T, tail: seq<T>, rest: seq<T>, key: T -> int)
    requires SortedBy([head] + tail, key) && SortedBy(rest, key)
    requires key(head) <= key(x)
    requires multiset(rest) == multiset(tail) + multiset{x}
    ensures SortedBy([head] + rest, key)
  {
    forall j | 0 <= j < |rest|
      ensures key(head) <= key(rest[j])
    {
      assert rest[j] in multiset(rest);
      if rest[j] != x {
        assert rest[j] in multiset(tail);
        var k :| 0 <= k < |tail| && tail[k] == rest[j];
        assert ([head] + tail)[0] == head && ([head] + tail)[k + 1] == tail[k];
      }
    }
    var r := [head] + rest;
    forall i, j | 0 <= i < j < |r|
      ensures key(r[i]) <= key(r[j])
    {
      assert r[j] == rest[j - 1];
      if i > 0 {
        assert r[i] == rest[i - 1];
      }
    }
  }

  /** `sorted(items, key=key)`: the same items, in ascending order of their
      keys. */
  function SortBy<T>(items: seq<T>, key: T -> int): (r: seq<T>)
    ensures SortedBy(r, key)
    ensures multiset(r) == multiset(items)
  {
    if items == [] then []
    else
      assert items == [items[0]] + items[1..];
      InsertBy(items[0], SortBy(items[1..], key), key)
  }

  /** The frame list, `sorted(framelist, key=extract_number)`: the same
      names, in ascending order of their numbers. */
  function SortFrames(names: seq<string>): (r: seq<string>)
    ensures multiset(r) == multiset(names)
    ensures forall i, j :: 0 <= i < j < |r| ==> ExtractNumber(r[i]) <= ExtractNumber(r[j])
  {
    SortBy(names, ExtractNumber)
  }

  /** `np.insert(np.diff(timestamps), 0, 0.0)`: 0 for the first frame, then
      the time elapsed since the previous frame. */
  function FrameDts(ts: seq<real>): (dt: seq<real>)
    ensures |dt| == if ts == [] then 1 else |ts|
    ensures dt[0] == 0.0
    ensures forall i :: 1 <= i < |ts| ==> dt[i] == ts[i] - ts[i - 1]
  {
    if ts == [] then [0.0]
    else [0.0] + seq(|ts| - 1, i requires 0 <= i < |ts| - 1 => ts[i + 1] - ts[i])
  }

  /** The time steps add back up to the timestamps: the first timestamp plus
      the steps of frames `0..i` is timestamp `i`. */
  lemma {:induction false} DtsRecoverTimestamps(ts: seq<real>, i: nat)
    requires i < |ts|
    ensures ts[0] + Sum(FrameDts(ts)[..i + 1]) == ts[i]
  {
    var dt := FrameDts(ts);
    if i == 0 {
      assert dt[..1] == [0.0];
      assert Sum([0.0]) == Sum([]) + 0.0;
    } else {
      DtsRecoverTimestamps(ts, i - 1);
      SumPrefixStep(dt, i);
    }
  }

  /** The time step of every frame: a frame period that is set and non-zero
      is used for all `nFrames` frames; otherwise (`None` or 0.0, both false
      in Python) the steps come from the timestamps. */
  function DtList(nFrames: nat, framePeriod: Option<real>, ts: seq<real>): (dt: seq<real>)
    ensures framePeriod.Some? && framePeriod.value != 0.0 ==>
              |dt| == nFrames && forall i :: 0 <= i < nFrames ==> dt[i] == framePeriod.value
    ensures framePeriod.None? || framePeriod.value == 0.0 ==> dt == FrameDts(ts)
  {
    if framePeriod.None? || framePeriod.value == 0.0 then FrameDts(ts)
    else seq(nFrames, _ => framePeriod.value)
  }

  function Min(a: nat, b: nat): nat
  {
    if a < b then a else b
  }

  /** `list(zip(framelist, dt))`: frames paired with their steps, as far as
      both lists go. */
  function ImageDtList(frames: seq<string>, dts: seq<real>): (r: seq<(string, real)>)
    ensures |r| == Min(|frames|, |dts|)
    ensures forall i :: 0 <= i < |r| ==> r[i].0 == frames[i] && r[i].1 == dts[i]
  {
    if frames == [] || dts == [] then []
    else [(frames[0], dts[0])] + ImageDtList(frames[1..], dts[1..])
  }

  /** Which frames get a time step: with a frame period every frame is paired
      with it; with one timestamp per frame every frame is paired and the
      first with step 0; missing timestamps drop the last frames. */
  lemma {:induction false} FramePairing(frames: seq<string>, framePeriod: Option<real>, ts: seq<real>)
    ensures framePeriod.Some? && framePeriod.value != 0.0 ==>
              var r := ImageDtList(frames, DtList(|frames|, framePeriod, ts));
              |r| == |frames| && forall i :: 0 <= i < |r| ==> r[i].1 == framePeriod.value
    ensures (framePeriod.None? || framePeriod.value == 0.0) && |ts| == |frames| > 0 ==>
              var r := ImageDtList(frames, DtList(|frames|, framePeriod, ts));
              |r| == |frames| && r[0].1 == 0.0
    ensures (framePeriod.None? || framePeriod.value == 0.0) && 0 < |ts| < |frames| ==>
              |ImageDtList(frames, DtList(|frames|, framePeriod, ts))| == |ts|
  {
  }
}
