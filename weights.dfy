/** The weight side of the particle filter: normalising densities into
    weights (`densities / densities.sum()`), the uniform initial weights, the
    cumulative sum of the weights, the "smallest index whose cumulative weight
    is at least u" rule, and the population a resampling pass produces. */
module Weights {
  import opened Optional

  /** The sum of a sequence, added left to right. */
  function Sum(s: seq<real>): real
  {
    if s == [] then 0.0 else Sum(s[..|s| - 1]) + s[|s| - 1]
  }

  predicate NonNegative(s: seq<real>)
  {
    forall i :: 0 <= i < |s| ==> s[i] >= 0.0
  }

  /** Extending a prefix by one element adds that element to its sum. */
  lemma {:induction false} SumPrefixStep(s: seq<real>, k: nat)
    requires k < |s|
    ensures Sum(s[..k + 1]) == Sum(s[..k]) + s[k]
  {
    assert s[..k + 1][..k] == s[..k];
  }

  lemma {:induction false} PrefixSumNonNegative(s: seq<real>, j: nat)
    requires NonNegative(s) && j <= |s|
    ensures 0.0 <= Sum(s[..j])
  {
    if j > 0 {
      PrefixSumNonNegative(s, j - 1);
      SumPrefixStep(s, j - 1);
    } else {
      assert s[..0] == [];
    }
  }

  /** Over non-negative entries, prefix sums grow with the prefix. */
  lemma {:induction false} PrefixSumsMonotone(s: seq<real>, i: nat, j: nat)
    requires NonNegative(s) && i <= j <= |s|
    ensures 0.0 <= Sum(s[..i]) <= Sum(s[..j])
    decreases j
  {
    if i < j {
      PrefixSumsMonotone(s, i, j - 1);
      SumPrefixStep(s, j - 1);
    } else {
      PrefixSumNonNegative(s, i);
    }
  }

  lemma {:induction false} ElementAtMostSum(s: seq<real>, i: nat)
    requires NonNegative(s) && i < |s|
    ensures 0.0 <= s[i] <= Sum(s)
  {
    assert s[..|s|] == s;
    PrefixSumsMonotone(s, i, i);
    PrefixSumsMonotone(s, i + 1, |s|);
    SumPrefixStep(s, i);
  }

  /** The initial weights `np.ones((1, n)) * 1 / n`. */
  function Uniform(n: nat): (w: seq<real>)
    requires n > 0
    ensures |w| == n && NonNegative(w)
  {
    seq(n, _ => 1.0 / n as real)
  }

  lemma {:induction false} SumConstant(n: nat, c: real)
    ensures Sum(seq(n, _ => c)) == n as real * c
  {
    if n > 0 {
      assert seq(n, _ => c)[..n - 1] == seq(n - 1, _ => c);
      SumConstant(n - 1, c);
    }
  }

  lemma {:induction false} SumOfZeros(s: seq<real>)
    requires forall i :: 0 <= i < |s| ==> s[i] == 0.0
    ensures Sum(s) == 0.0
  {
    if s != [] {
      SumOfZeros(s[..|s| - 1]);
    }
  }

  /** The initial weights form a distribution. */
  lemma {:induction false} UniformSumsToOne(n: nat)
    requires n > 0
    ensures Sum(Uniform(n)) == 1.0
  {
    SumConstant(n, 1.0 / n as real);
  }

  /** Every entry divided by `total`. */
  function Divided(d: seq<real>, total: real): (w: seq<real>)
    requires total != 0.0
    ensures |w| == |d|
  {
    seq(|d|, i requires 0 <= i < |d| => d[i] / total)
  }

  /** `densities / densities.sum()`: each weight is its density's share of
      the total. There is no guard for a zero total. */
  function Normalized(d: seq<real>): (w: seq<real>)
    requires Sum(d) != 0.0
    ensures |w| == |d|
    ensures forall i :: 0 <= i < |d| ==> w[i] * Sum(d) == d[i]
  {
    Divided(d, Sum(d))
  }

  lemma {:induction false} DivideSum(a: real, b: real, t: real)
    requires t != 0.0
    ensures (a + b) / t == a / t + b / t
  {
  }

  lemma {:induction false} DivideSelf(t: real)
    requires t != 0.0
    ensures t / t == 1.0
  {
  }

  lemma {:induction false} ShareAtMostOne(a: real, t: real)
    requires 0.0 <= a <= t && t > 0.0
    ensures 0.0 <= a / t <= 1.0
  {
  }

  lemma {:induction false} SumDivided(d: seq<real>, total: real)
    requires total != 0.0
    ensures Sum(Divided(d, total)) == Sum(d) / total
  {
    if d != [] {
      var front := d[..|d| - 1];
      assert Divided(d, total)[..|d| - 1] == Divided(front, total);
      SumDivided(front, total);
      DivideSum(Sum(front), d[|d| - 1], total);
    }
  }

  /** Normalised non-negative densities with a positive total are a
      probability distribution: each weight lies in [0, 1] and they sum to 1. */
  lemma {:induction false} NormalizedIsDistribution(d: seq<real>)
    requires NonNegative(d) && Sum(d) > 0.0
    ensures NonNegative(Normalized(d))
    ensures forall i :: 0 <= i < |d| ==> Normalized(d)[i] <= 1.0
    ensures Sum(Normalized(d)) == 1.0
  {
    SumDivided(d, Sum(d));
    DivideSelf(Sum(d));
    forall i | 0 <= i < |d|
      ensures 0.0 <= Normalized(d)[i] <= 1.0
    {
      ElementAtMostSum(d, i);
      ShareAtMostOne(d[i], Sum(d));
    }
  }

  /** `np.cumsum(w)`: entry `i` is the sum of the first `i + 1` weights. */
  function CumSum(w: seq<real>): (c: seq<real>)
    ensures |c| == |w|
    ensures forall i :: 0 <= i < |w| ==> c[i] == Sum(w[..i + 1])
  {
    if w == [] then []
    else
      CumSumStep(w);
      CumSum(w[..|w| - 1]) + [Sum(w)]
  }

  lemma {:induction false} CumSumStep(w: seq<real>)
    requires w != []
    ensures forall j :: 0 <= j < |w| ==> Sum(w[..|w| - 1][..j]) == Sum(w[..j])
    ensures w[..|w|] == w
  {
    forall j | 0 <= j < |w|
      ensures Sum(w[..|w| - 1][..j]) == Sum(w[..j])
    {
      assert w[..|w| - 1][..j] == w[..j];
    }
  }

  /** `(u <= cumsum).nonzero()`'s first index, if there is one: the smallest
      index whose cumulative weight is at least `u`. */
  function FirstAtLeast(c: seq<real>, u: real): (r: Option<nat>)
    ensures r.Some? ==> r.value < |c| && u <= c[r.value] && forall k :: 0 <= k < r.value ==> c[k] < u
    ensures r.None? <==> forall k :: 0 <= k < |c| ==> c[k] < u
  {
    if c == [] then None
    else if u <= c[0] then Some(0)
    else match FirstAtLeast(c[1..], u)
      case None => None
      case Some(j) => Some(j + 1)
  }

  /** The ancestor a draw `u` selects: the first index whose cumulative weight
      is at least `u`, and index 0 when there is none. */
  function AncestorIndex(c: seq<real>, u: real): (j: nat)
    ensures |c| > 0 ==> j < |c|
    ensures (exists k :: 0 <= k < |c| && u <= c[k]) ==> u <= c[j] && forall k :: 0 <= k < j ==> c[k] < u
    ensures (forall k :: 0 <= k < |c| ==> c[k] < u) ==> j == 0
  {
    match FirstAtLeast(c, u)
    case Some(j) => j
    case None => 0
  }

  /** The weights as the tracker holds them: numbers, or NaN in every entry.
      One NaN among the densities makes their sum NaN, and dividing by that
      sum makes every weight NaN. */
  datatype Betas = Finite(values: seq<real>) | AllNaN

  /** The ancestor draw `u` selects. Under finite weights it is the first
      index whose cumulative weight reaches `u`, or 0. Under NaN weights every
      comparison `u <= cumsum[k]` is false, so `nonzero` finds nothing and the
      fallback index 0 is taken. */
  function Ancestor(b: Betas, u: real): nat
  {
    match b
    case Finite(w) => AncestorIndex(CumSum(w), u)
    case AllNaN => 0
  }

  /** One resampling pass: slot `i` receives a copy of the prior particle that
      draw `us[i]` selects under the weights. The choices read the prior
      population only, never a slot already overwritten. */
  function Resampled<T>(prior: seq<T>, b: Betas, us: seq<real>): (r: seq<T>)
    requires b.Finite? ==> |b.values| == |prior|
    requires |us| > 0 ==> |prior| > 0
    ensures |r| == |us|
    ensures forall i :: 0 <= i < |us| ==> r[i] in prior
  {
    seq(|us|, i requires 0 <= i < |us| => prior[Ancestor(b, us[i])])
  }

  /** With NaN weights every slot receives the first prior particle, whatever
      the draws. */
  lemma {:induction false} NaNResampleCollapses<T>(prior: seq<T>, us: seq<real>)
    requires |prior| > 0
    ensures Resampled(prior, AllNaN, us) == seq(|us|, _ => prior[0])
  {
    forall i | 0 <= i < |us|
      ensures Resampled(prior, AllNaN, us)[i] == prior[0]
    {
      assert Ancestor(AllNaN, us[i]) == 0;
    }
  }

  /** For non-negative weights, a draw in `(0, Sum(w)]` selects an ancestor
      whose bucket `(Sum(w[..a]), Sum(w[..a+1])]` contains the draw. */
  lemma {:induction false} AncestorInBucket(w: seq<real>, u: real)
    requires NonNegative(w) && 0.0 < u <= Sum(w)
    ensures AncestorIndex(CumSum(w), u) < |w|
    ensures var a := AncestorIndex(CumSum(w), u); Sum(w[..a]) < u <= Sum(w[..a + 1])
  {
    assert w != [];
    var c := CumSum(w);
    TotalIsLastCumSum(w);
    var a := AncestorIndex(c, u);
    assert u <= c[a];
    AncestorBounds(w, c, u, a);
  }

  /** The last cumulative weight is the total. */
  lemma {:induction false} TotalIsLastCumSum(w: seq<real>)
    requires w != []
    ensures CumSum(w)[|w| - 1] == Sum(w)
  {
    assert w[..|w|] == w;
  }

  lemma {:induction false} AncestorBounds(w: seq<real>, c: seq<real>, u: real, a: nat)
    requires c == CumSum(w) && a < |w|
    requires u <= c[a] && forall k :: 0 <= k < a ==> c[k] < u
    requires a == 0 ==> 0.0 < u
    ensures Sum(w[..a]) < u <= Sum(w[..a + 1])
  {
    if a > 0 {
      assert c[a - 1] < u;
    } else {
      assert w[..0] == [];
    }
  }

  /** A draw inside ancestor `j`'s bucket selects `j`. */
  lemma {:induction false} BucketSelects(w: seq<real>, u: real, j: nat)
    requires NonNegative(w) && j < |w|
    requires Sum(w[..j]) < u <= Sum(w[..j + 1])
    ensures AncestorIndex(CumSum(w), u) == j
  {
    var c := CumSum(w);
    forall k | 0 <= k < j
      ensures c[k] < u
    {
      PrefixSumsMonotone(w, k + 1, j);
    }
    assert u <= c[j];
  }

  /** For non-negative weights and a draw `0 < u <= Sum(w)`, the selected
      ancestor is `j` exactly when `u` falls in `j`'s bucket
      `(Sum(w[..j]), Sum(w[..j+1])]`, an interval of length `w[j]`; a draw past
      the total falls back to index 0. */
  lemma {:induction false} AncestorBucket(w: seq<real>, u: real, j: nat)
    requires NonNegative(w) && j < |w|
    ensures 0.0 < u <= Sum(w) ==>
              (AncestorIndex(CumSum(w), u) == j <==> Sum(w[..j]) < u <= Sum(w[..j + 1]))
    ensures Sum(w[..j + 1]) - Sum(w[..j]) == w[j]
    ensures u > Sum(w) ==> AncestorIndex(CumSum(w), u) == 0
  {
    SumPrefixStep(w, j);
    if 0.0 < u <= Sum(w) {
      AncestorInBucket(w, u);
      if Sum(w[..j]) < u <= Sum(w[..j + 1]) {
        BucketSelects(w, u, j);
      }
    }
    if u > Sum(w) {
      PastTotalSelectsFirst(w, u);
    }
  }

  /** A weight of 0 gives an empty bucket: no draw in `(0, Sum(w)]` selects
      that ancestor. */
  lemma {:induction false} ZeroWeightNeverSelected(w: seq<real>, u: real, i: nat)
    requires NonNegative(w) && i < |w| && w[i] == 0.0
    requires 0.0 < u <= Sum(w)
    ensures Ancestor(Finite(w), u) != i
  {
    AncestorBucket(w, u, i);
  }

  /** A draw larger than the total weight reaches no cumulative weight, so
      the fallback index 0 is taken. */
  lemma {:induction false} PastTotalSelectsFirst(w: seq<real>, u: real)
    requires NonNegative(w) && u > Sum(w)
    ensures AncestorIndex(CumSum(w), u) == 0
  {
    var c := CumSum(w);
    assert w[..|w|] == w;
    forall k | 0 <= k < |w|
      ensures c[k] < u
    {
      PrefixSumsMonotone(w, k + 1, |w|);
    }
  }

  /** All weight on index `k`. */
  function OneHot(n: nat, k: nat): (w: seq<real>)
    requires k < n
    ensures |w| == n && NonNegative(w)
  {
    seq(n, i requires 0 <= i < n => if i == k then 1.0 else 0.0)
  }

  lemma {:induction false} OneHotPrefix(n: nat, k: nat, j: nat)
    requires k < n && j <= n
    ensures Sum(OneHot(n, k)[..j]) == if j <= k then 0.0 else 1.0
  {
    if j > 0 {
      OneHotPrefix(n, k, j - 1);
      SumPrefixStep(OneHot(n, k), j - 1);
    } else {
      assert OneHot(n, k)[..0] == [];
    }
  }

  /** When all weight sits on particle `k` and every draw is positive (and at
      most 1), every slot of the resampled population is a copy of particle
      `k`, and the population keeps its size. */
  lemma {:induction false} ConcentratedResample<T>(prior: seq<T>, k: nat, us: seq<real>)
    requires k < |prior|
    requires forall i :: 0 <= i < |us| ==> 0.0 < us[i] <= 1.0
    ensures Resampled(prior, Finite(OneHot(|prior|, k)), us) == seq(|us|, _ => prior[k])
  {
    var w := OneHot(|prior|, k);
    OneHotPrefix(|prior|, k, |prior|);
    assert w[..|w|] == w;
    OneHotPrefix(|prior|, k, k);
    OneHotPrefix(|prior|, k, k + 1);
    forall i | 0 <= i < |us|
      ensures Ancestor(Finite(w), us[i]) == k
    {
      AncestorBucket(w, us[i], k);
    }
  }
}
