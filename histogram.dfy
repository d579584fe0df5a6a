/** Intensity histograms as numpy computes them with
    `np.histogram(values, bins=nBins, range=(0, 256))`: `nBins` equal-width
    bins whose edges are `256 * b / nBins`, one count per bin. */
module Histogram {
  import opened ImageCrop

  /** The bin an intensity falls in: the `b` with
      `256 * b / nBins <= v < 256 * (b + 1) / nBins`, computed exactly. */
  function BinOf(v: Pixel, nBins: nat): (b: nat)
    requires nBins > 0
    ensures b < nBins
    ensures b * 256 <= v * nBins < (b + 1) * 256
  {
    ScaledIntensityBelow(v, nBins);
    v * nBins / 256
  }

  lemma {:induction false} ScaledIntensityBelow(v: Pixel, n: nat)
    requires n > 0
    ensures v * n < 256 * n
    ensures (v * n / 256) * 256 <= v * n < (v * n / 256 + 1) * 256
  {
    var p := v * n;
    assert p == 256 * (p / 256) + p % 256;
  }

  function Zeros(n: nat): (h: seq<nat>)
  {
    seq(n, _ => 0)
  }

  /** The histogram of `px`: start from `n` empty bins and count each pixel in
      its bin, in order. */
  function Hist(px: seq<Pixel>, n: nat): (h: seq<nat>)
    requires n > 0
    ensures |h| == n
    decreases |px|
  {
    if px == [] then Zeros(n)
    else
      var h := Hist(px[..|px| - 1], n);
      var b := BinOf(px[|px| - 1], n);
      h[b := h[b] + 1]
  }

  /** The bin of every pixel, in pixel order. */
  function Bins(px: seq<Pixel>, n: nat): (bs: seq<nat>)
    requires n > 0
  {
    seq(|px|, i requires 0 <= i < |px| => BinOf(px[i], n))
  }

  /** The sum of all counts. */
  function Total(h: seq<nat>): nat
  {
    if h == [] then 0 else h[0] + Total(h[1..])
  }

  lemma {:induction false} TotalIncrement(h: seq<nat>, b: nat)
    requires b < |h|
    ensures Total(h[b := h[b] + 1]) == Total(h) + 1
  {
    if b > 0 {
      TotalIncrement(h[1..], b - 1);
      assert h[b := h[b] + 1][1..] == h[1..][b - 1 := h[b] + 1];
    }
  }

  lemma {:induction false} TotalZeros(n: nat)
    ensures Total(Zeros(n)) == 0
  {
    if n > 0 {
      assert Zeros(n)[1..] == Zeros(n - 1);
      TotalZeros(n - 1);
    }
  }

  /** Each count is the number of pixels whose intensity falls in that bin. */
  lemma {:induction false} HistCountsBinMembers(px: seq<Pixel>, n: nat)
    requires n > 0
    ensures forall b :: 0 <= b < n ==> Hist(px, n)[b] == multiset(Bins(px, n))[b]
  {
    if px != [] {
      var front := px[..|px| - 1];
      HistCountsBinMembers(front, n);
      assert Bins(px, n) == Bins(front, n) + [BinOf(px[|px| - 1], n)];
    }
  }

  /** The counts add up to the number of pixels: every pixel is counted once,
      so an empty crop gives an all-zero histogram. */
  lemma {:induction false} HistTotal(px: seq<Pixel>, n: nat)
    requires n > 0
    ensures Total(Hist(px, n)) == |px|
    ensures px == [] ==> Hist(px, n) == Zeros(n)
  {
    if px == [] {
      TotalZeros(n);
    } else {
      var front := px[..|px| - 1];
      HistTotal(front, n);
      TotalIncrement(Hist(front, n), BinOf(px[|px| - 1], n));
    }
  }
}
