/** The name under which a processed frame is stored: the digits that the
    regular expression `([0-9]*).png` captures from the frame's file name,
    padded with leading zeros to four digits, as `image<digits>.png` in the
    output folder. A frame name the expression does not match aborts the run. */
module StoreName {
  import opened Optional
  import opened FrameList

  /** The `.png` part of the expression: an unescaped `.` matches any single
      character except a line break, followed by the text "png". */
  predicate DotPngAt(s: string, e: nat)
  {
    e + 4 <= |s| && s[e] != '\n' && s[e + 1..e + 4] == "png"
  }

  /** `([0-9]*).png` matches starting at `p` with the group `s[p..e]`. */
  ghost predicate PatternMatch(s: string, p: nat, e: nat)
  {
    p <= e && e + 4 <= |s| && AllDigits(s[p..e]) && DotPngAt(s, e)
  }

  /** The match `re.search` reports: the leftmost start, and at that start
      the longest group, since `[0-9]*` is greedy and gives digits back only
      as far as needed. */
  ghost predicate Leftmost(s: string, p: nat, e: nat)
  {
    PatternMatch(s, p, e) &&
    (forall p': nat, e': nat :: p' < p ==> !PatternMatch(s, p', e')) &&
    (forall e': nat :: PatternMatch(s, p, e') ==> e' <= e)
  }

  /** Backtracking from the greedy end `e` of the digit run down to `p`: the
      largest end at which `.png` follows. */
  function GroupEnd(s: string, p: nat, e: nat): (g: Option<nat>)
    requires p <= e <= |s|
    ensures g.Some? ==> p <= g.value <= e && DotPngAt(s, g.value) &&
                        forall k :: g.value < k <= e ==> !DotPngAt(s, k)
    ensures g.None? ==> forall k :: p <= k <= e ==> !DotPngAt(s, k)
    decreases e - p
  {
    if DotPngAt(s, e) then Some(e)
    else if e == p then None
    else GroupEnd(s, p, e - 1)
  }

  /** Trying the starts `from`, `from + 1`, ... in turn. */
  function SearchFrom(s: string, from: nat): (r: Option<(nat, nat)>)
    requires from <= |s|
    ensures r.Some? ==> from <= r.value.0 <= |s| &&
                        GroupEnd(s, r.value.0, RunEnd(s, r.value.0)) == Some(r.value.1) &&
                        forall p :: from <= p < r.value.0 ==> GroupEnd(s, p, RunEnd(s, p)).None?
    ensures r.None? ==> forall p :: from <= p <= |s| ==> GroupEnd(s, p, RunEnd(s, p)).None?
    decreases |s| - from
  {
    match GroupEnd(s, from, RunEnd(s, from))
    case Some(e) => Some((from, e))
    case None => if from == |s| then None else SearchFrom(s, from + 1)
  }

  /** At a fixed start, backtracking from the end of the digit run finds the
      longest group with which the expression matches there, and finds none
      exactly when the expression does not match there. */
  lemma {:induction false} GroupEndIsLongest(s: string, p: nat)
    requires p <= |s|
    ensures GroupEnd(s, p, RunEnd(s, p)).Some? ==>
              var e := GroupEnd(s, p, RunEnd(s, p)).value;
              PatternMatch(s, p, e) && forall e': nat :: PatternMatch(s, p, e') ==> e' <= e
    ensures GroupEnd(s, p, RunEnd(s, p)).None? ==> forall e': nat :: !PatternMatch(s, p, e')
  {
    var q := RunEnd(s, p);
    forall e': nat | PatternMatch(s, p, e')
      ensures e' <= q && DotPngAt(s, e')
    {
    }
    if GroupEnd(s, p, q).Some? {
      var e := GroupEnd(s, p, q).value;
      forall k | 0 <= k < e - p
        ensures IsDigit(s[p..e][k])
      {
        assert s[p..e][k] == s[p + k];
      }
    }
  }

  /** `re.search('([0-9]*).png', path)`: the start and end of the group of
      the match, or `None` when the expression matches nowhere. */
  function Search(s: string): (r: Option<(nat, nat)>)
    ensures r.None? <==> forall p: nat, e: nat :: !PatternMatch(s, p, e)
    ensures r.Some? ==> Leftmost(s, r.value.0, r.value.1)
  {
    SearchIsLeftmost(s);
    SearchFrom(s, 0)
  }

  lemma {:induction false} SearchIsLeftmost(s: string)
    ensures SearchFrom(s, 0).None? <==> forall p: nat, e: nat :: !PatternMatch(s, p, e)
    ensures SearchFrom(s, 0).Some? ==> Leftmost(s, SearchFrom(s, 0).value.0, SearchFrom(s, 0).value.1)
  {
    var r := SearchFrom(s, 0);
    forall p: nat, e: nat | PatternMatch(s, p, e) && (r.None? || p < r.value.0)
      ensures false
    {
      GroupEndIsLongest(s, p);
    }
    if r.Some? {
      GroupEndIsLongest(s, r.value.0);
    }
  }

  /** `'0' * (4 - digits) + group`: the group with leading zeros up to four
      characters; Python repeats a string a negative number of times as the
      empty string, so a longer group is kept as it is. */
  function Padded(g: string): (z: string)
    ensures |z| == if |g| < 4 then 4 else |g|
    ensures z[|z| - |g|..] == g
    ensures forall i :: 0 <= i < |z| - |g| ==> z[i] == '0'
  {
    var zeros := seq(if |g| < 4 then 4 - |g| else 0, _ => '0');
    assert (zeros + g)[|zeros|..] == g;
    zeros + g
  }

  lemma {:induction false} ZerosValue(n: nat)
    ensures AllDigits(seq(n, _ => '0'))
    ensures DigitsValue(seq(n, _ => '0')) == 0
  {
    if n > 0 {
      assert seq(n, _ => '0')[..n - 1] == seq(n - 1, _ => '0');
      ZerosValue(n - 1);
    }
  }

  lemma {:induction false} LeadingZerosValue(n: nat, g: string)
    requires AllDigits(g)
    ensures AllDigits(seq(n, _ => '0') + g)
    ensures DigitsValue(seq(n, _ => '0') + g) == DigitsValue(g)
  {
    var zeros := seq(n, _ => '0');
    ZerosValue(n);
    if g == [] {
      assert zeros + g == zeros;
    } else {
      var front := g[..|g| - 1];
      assert (zeros + g)[..|zeros + g| - 1] == zeros + front;
      LeadingZerosValue(n, front);
    }
  }

  /** Padding keeps the frame number: the padded group is still a string of
      digits, at least four long, with the value of the group. */
  lemma {:induction false} PaddedValue(g: string)
    requires AllDigits(g)
    ensures AllDigits(Padded(g)) && |Padded(g)| >= 4
    ensures DigitsValue(Padded(g)) == DigitsValue(g)
  {
    LeadingZerosValue(if |g| < 4 then 4 - |g| else 0, g);
  }

  /** `store_name`: the output folder, "image", the padded group and ".png";
      `None` when the frame name does not match, where the run stops. */
  function StoreName(savePath: string, path: string): (r: Option<string>)
    ensures r.None? <==> forall p: nat, e: nat :: !PatternMatch(path, p, e)
    ensures r.Some? ==> exists p: nat, e: nat ::
              Leftmost(path, p, e) && r.value == savePath + "image" + Padded(path[p..e]) + ".png"
  {
    match Search(path)
    case None => None
    case Some((p, e)) => Some(savePath + "image" + Padded(path[p..e]) + ".png")
  }

  /** An output folder free of ".png" stays free of it with "image" appended. */
  lemma {:induction false} FreeWithImage(savePath: string)
    requires Free(savePath, ".png")
    ensures Free(savePath + "image", ".png")
  {
    var t := savePath + "image";
    forall i: nat
      ensures !OccursAt(t, ".png", i)
    {
      if i + 4 <= |savePath| {
        assert t[i..i + 4] == savePath[i..i + 4];
        assert !OccursAt(savePath, ".png", i);
      } else if i + 4 <= |t| {
        var j := i + 3 - |savePath|;
        if j == 3 {
          assert t[i..i + 4][0] == t[i] == 'i';
        } else {
          assert t[i..i + 4][3] == t[i + 3] == "image"[j] != 'g';
        }
      }
    }
  }

  /** The stored name keeps the frame number: `extract_number` reads the value
      of the captured digits back from it. */
  lemma {:induction false} StoredNameKeepsNumber(savePath: string, path: string)
    requires Free(savePath, ".png")
    requires StoreName(savePath, path).Some?
    ensures exists p: nat, e: nat :: Leftmost(path, p, e) &&
              ExtractNumber(StoreName(savePath, path).value) == DigitsValue(path[p..e])
  {
    var r := Search(path);
    var p, e := r.value.0, r.value.1;
    var g := path[p..e];
    forall k | 0 <= k < |g|
      ensures IsDigit(g[k])
    {
      assert g[k] == path[p..e][k];
    }
    PaddedValue(g);
    FreeWithImage(savePath);
    ExtractNumberOfFrameName(savePath + "image", Padded(g));
  }

  /** A start inside a folder that neither contains "png" nor ends in a
      digit, and that is followed by a character not in "png", cannot match. */
  lemma {:induction false} NoMatchInFolder(s: string, folder: string, p: nat)
    requires p < |folder| < |s| && s[..|folder|] == folder
    requires !IsDigit(folder[|folder| - 1]) && Free(folder, "png")
    requires s[|folder|] !in "png"
    ensures GroupEnd(s, p, RunEnd(s, p)).None?
  {
    var m := |folder|;
    var q := RunEnd(s, p);
    assert s[m - 1] == folder[m - 1];
    forall k | p <= k <= q
      ensures !DotPngAt(s, k)
    {
      if k + 4 <= m {
        assert s[k + 1..k + 4] == folder[k + 1..k + 4];
        assert !OccursAt(folder, "png", k + 1);
      } else if k + 4 <= |s| {
        assert s[k + 1..k + 4][m - k - 1] == s[m];
      }
    }
  }

  /** A frame stored as `folder + digits + ".png"`, where the folder neither
      contains "png" nor ends in a digit, is stored under its own digits. */
  lemma {:induction false} StoreNameOfFrameName(savePath: string, folder: string, ds: string)
    requires AllDigits(ds)
    requires folder == [] || !IsDigit(folder[|folder| - 1])
    requires Free(folder, "png")
    ensures StoreName(savePath, folder + ds + ".png") == Some(savePath + "image" + Padded(ds) + ".png")
  {
    var s := folder + ds + ".png";
    var m := |folder|;
    var q0 := m + |ds|;
    FrameNameShape(folder, ds, ".png");
    DotPngAtEnd(folder + ds);
    assert GroupEnd(s, m, q0) == Some(q0);
    NoMatchBeforeDigits(folder, ds);
    StoreNameAt(savePath, s, m, q0);
    assert s[m..q0] == ds by {
      ConcatPieces(folder, ds, ".png");
    }
  }

  /** No match of the pattern starts inside the folder part of a frame name. */
  lemma {:induction false} NoMatchBeforeDigits(folder: string, ds: string)
    requires AllDigits(ds)
    requires folder == [] || !IsDigit(folder[|folder| - 1])
    requires Free(folder, "png")
    ensures var s := folder + ds + ".png";
            forall p :: 0 <= p < |folder| ==> GroupEnd(s, p, RunEnd(s, p)).None?
  {
    var s := folder + ds + ".png";
    ConcatPieces(folder, ds, ".png");
    NotPngAfterFolder(folder, ds);
    forall p | 0 <= p < |folder|
      ensures GroupEnd(s, p, RunEnd(s, p)).None?
    {
      NoMatchInFolder(s, folder, p);
    }
  }

  lemma {:induction false} DotPngAtEnd(s: string)
    ensures DotPngAt(s + ".png", |s|)
  {
    assert (s + ".png")[|s|] == '.';
    assert (s + ".png")[|s| + 1..|s| + 4] == "png";
  }

  /** After the folder comes a digit or the "." of ".png", neither of which
      is a letter of "png". */
  lemma {:induction false} NotPngAfterFolder(folder: string, ds: string)
    requires AllDigits(ds)
    ensures (folder + ds + ".png")[|folder|] !in "png"
  {
    var s := folder + ds + ".png";
    if ds == [] {
      assert s[|folder|] == '.';
    } else {
      assert s[|folder|] == ds[0];
    }
  }

  /** The stored name comes from the first start at which backtracking
      succeeds. */
  lemma {:induction false} StoreNameAt(savePath: string, s: string, m: nat, e: nat)
    requires m <= |s| && GroupEnd(s, m, RunEnd(s, m)) == Some(e)
    requires forall p :: 0 <= p < m ==> GroupEnd(s, p, RunEnd(s, p)).None?
    ensures StoreName(savePath, s) == Some(savePath + "image" + Padded(s[m..e]) + ".png")
  {
    var r := SearchFrom(s, 0);
    assert r.Some? && r.value.0 == m && r.value.1 == e;
  }
}
