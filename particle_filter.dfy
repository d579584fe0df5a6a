/** The particle-filter mode of the tracker: a population of `nParticles`
    states kept in an array (the columns of the 4 x N state matrix), their
    weights, the box and intensity histogram of the frame region under each
    particle, and the MMSE estimate with its box. Once per frame the tracker
    propagates the population, measures each particle, turns the measurements
    into weights, resamples and recomputes the estimate, all in place.

    Randomness and the likelihood are parameters: `draws` stand for the
    standard-normal matrices, `us` for the uniform draws of resampling, and
    `density` for the Gaussian density of the Hellinger distance between a
    particle's histogram and the target histogram. */
module ParticleFilter {
  import opened PySemantics
  import opened ImageCrop
  import opened Histogram
  import opened Particles
  import opened Weights

  /** The histogram of the frame region under a box, cut as
      `gray[int(y0):int(y1), int(x0):int(x1)]`. Every cut pixel is counted
      once, so the counts add up to the size of the cut; a box off the frame
      gives an all-zero histogram. */
  function BoxHistogram(g: Gray, b: Box, nBins: nat): (h: seq<nat>)
    requires Rectangular(g) && nBins > 0
    ensures |h| == nBins
    ensures Total(h) == SliceLen(|g|, Trunc(b.y0), Trunc(b.y1)) * SliceLen(Width(g), Trunc(b.x0), Trunc(b.x1))
  {
    var px := Ravel(Crop(g, Trunc(b.y0), Trunc(b.y1), Trunc(b.x0), Trunc(b.x1)));
    CropPixelCount(g, Trunc(b.y0), Trunc(b.y1), Trunc(b.x0), Trunc(b.x1));
    HistTotal(px, nBins);
    Hist(px, nBins)
  }

  /** The selected rectangle `(r0, r1, r2, r3)` as a box: its corners. */
  function SelectionBox(r0: real, r1: real, r2: real, r3: real): Box
  {
    Box(r0, r1, r0 + r2, r1 + r3)
  }

  /** A box that cuts at least one row and one column has a non-empty
      histogram. */
  lemma {:induction false} CutBoxNonEmpty(g: Gray, b: Box, nBins: nat)
    requires Rectangular(g) && nBins > 0
    requires SliceLen(|g|, Trunc(b.y0), Trunc(b.y1)) > 0
    requires SliceLen(Width(g), Trunc(b.x0), Trunc(b.x1)) > 0
    ensures Total(BoxHistogram(g, b, nBins)) > 0
  {
    PositiveProduct(SliceLen(|g|, Trunc(b.y0), Trunc(b.y1)), SliceLen(Width(g), Trunc(b.x0), Trunc(b.x1)));
  }

  lemma {:induction false} PositiveProduct(m: nat, n: nat)
    requires m > 0 && n > 0
    ensures m * n > 0
  {
    assert m * n == (m - 1) * n + n;
  }

  /** A particle sitting exactly on the ROI midpoint sees exactly the target
      region: its box has the truncated corners of the selection, so its
      histogram is the target histogram. */
  lemma {:induction false} MidpointParticleSeesTarget(g: Gray, r0: real, r1: real, r2: real, r3: real, nBins: nat, vx: real, vy: real)
    requires Rectangular(g) && nBins > 0
    ensures var roi := RoiFromSelection(r0, r1, r2, r3);
            BoxHistogram(g, BoxAround(Vec4(roi.midX, roi.midY, vx, vy), roi), nBins)
            == BoxHistogram(g, SelectionBox(r0, r1, r2, r3), nBins)
  {
    var roi := RoiFromSelection(r0, r1, r2, r3);
    var b := BoxAround(Vec4(roi.midX, roi.midY, vx, vy), roi);
    MidpointBoxCorners(r0, r1, r2, r3, vx, vy);
    TruncProperties(0.0, Trunc(r0));
    TruncProperties(0.0, Trunc(r0 + r2));
    TruncProperties(0.0, Trunc(r1));
    TruncProperties(0.0, Trunc(r1 + r3));
    SameCutSameHistogram(g, b, SelectionBox(r0, r1, r2, r3), nBins);
  }

  lemma {:induction false} MidpointBoxCorners(r0: real, r1: real, r2: real, r3: real, vx: real, vy: real)
    ensures var roi := RoiFromSelection(r0, r1, r2, r3);
            var b := BoxAround(Vec4(roi.midX, roi.midY, vx, vy), roi);
            b.x0 == Trunc(r0) as real && b.x1 == Trunc(r0 + r2) as real &&
            b.y0 == Trunc(r1) as real && b.y1 == Trunc(r1 + r3) as real
  {
  }

  /** Boxes whose corners truncate alike cut the same region. */
  lemma {:induction false} SameCutSameHistogram(g: Gray, a: Box, b: Box, nBins: nat)
    requires Rectangular(g) && nBins > 0
    requires Trunc(a.x0) == Trunc(b.x0) && Trunc(a.x1) == Trunc(b.x1)
    requires Trunc(a.y0) == Trunc(b.y0) && Trunc(a.y1) == Trunc(b.y1)
    ensures BoxHistogram(g, a, nBins) == BoxHistogram(g, b, nBins)
  {
  }

  /** The density of every particle's measurement. */
  function Densities(hs: seq<seq<nat>>, density: seq<nat> -> real): (d: seq<real>)
    ensures |d| == |hs|
  {
    seq(|hs|, i requires 0 <= i < |hs| => density(hs[i]))
  }

  lemma {:induction false} PositiveSum(d: seq<real>)
    requires |d| > 0 && forall i :: 0 <= i < |d| ==> d[i] > 0.0
    ensures Sum(d) > 0.0 && NonNegative(d)
  {
    if |d| > 1 {
      PositiveSum(d[..|d| - 1]);
    }
  }

  /** A non-empty histogram compared with a non-empty target has a finite
      Hellinger distance, and a Gaussian density there is positive. So when
      every particle's histogram is non-empty, the total is positive and the
      weights form a distribution. */
  lemma {:induction false} PositiveDensitiesGiveDistribution(hs: seq<seq<nat>>, density: seq<nat> -> real)
    requires |hs| > 0 && forall h :: Total(h) > 0 ==> density(h) > 0.0
    requires forall i :: 0 <= i < |hs| ==> Total(hs[i]) > 0
    ensures Sum(Densities(hs, density)) > 0.0
    ensures NonNegative(Normalized(Densities(hs, density)))
    ensures Sum(Normalized(Densities(hs, density))) == 1.0
  {
    var d := Densities(hs, density);
    forall i | 0 <= i < |d|
      ensures d[i] > 0.0
    {
      assert Total(hs[i]) > 0;
    }
    PositiveSum(d);
    NormalizedIsDistribution(d);
  }

  /** `compute_particle_betas` for particles measured as `hs` against the
      target histogram `target`. `compute_hellinger_distance` divides each
      histogram by its own total, so an all-zero histogram, measured or
      target, gives 0/0: its distance and density are NaN, so is the total
      of the densities, and so is every weight. Otherwise each weight is its
      density's share of the total. */
  function ParticleBetas(hs: seq<seq<nat>>, target: seq<nat>, density: seq<nat> -> real): (b: Betas)
    requires |hs| > 0 && forall h :: Total(h) > 0 ==> density(h) > 0.0
    ensures b.AllNaN? <==> Total(target) == 0 || exists i :: 0 <= i < |hs| && Total(hs[i]) == 0
    ensures b.Finite? ==> |b.values| == |hs| && NonNegative(b.values) && Sum(b.values) == 1.0
  {
    if Total(target) == 0 || exists i :: 0 <= i < |hs| && Total(hs[i]) == 0 then AllNaN
    else
      PositiveDensitiesGiveDistribution(hs, density);
      Finite(Normalized(Densities(hs, density)))
  }

  /** Where the betas are numbers, each is its particle's density as a share
      of the total density. */
  lemma {:induction false} ParticleBetasShares(hs: seq<seq<nat>>, target: seq<nat>, density: seq<nat> -> real, i: nat)
    requires |hs| > 0 && forall h :: Total(h) > 0 ==> density(h) > 0.0
    requires i < |hs| && ParticleBetas(hs, target, density).Finite?
    ensures ParticleBetas(hs, target, density).values[i] * Sum(Densities(hs, density)) == density(hs[i])
  {
    var d := Densities(hs, density);
    assert ParticleBetas(hs, target, density).values == Normalized(d);
    assert d[i] == density(hs[i]);
  }

  /** A box that starts above the top edge (or left of the left edge) by
      less than the frame's extent, and ends inside the frame, cuts nothing:
      its negative start counts back from the far end of the frame. */
  lemma {:induction false} StraddlingBoxSeesNothing(g: Gray, b: Box, nBins: nat)
    requires Rectangular(g) && nBins > 0
    requires (-(|g| as int) <= Trunc(b.y0) < 0 <= Trunc(b.y1) <= |g| + Trunc(b.y0)) ||
             (-(Width(g) as int) <= Trunc(b.x0) < 0 <= Trunc(b.x1) <= Width(g) + Trunc(b.x0))
    ensures Total(BoxHistogram(g, b, nBins)) == 0
  {
    if -(|g| as int) <= Trunc(b.y0) < 0 <= Trunc(b.y1) <= |g| + Trunc(b.y0) {
      NegativeStartEmpty(|g|, Trunc(b.y0), Trunc(b.y1));
    } else {
      NegativeStartEmpty(Width(g), Trunc(b.x0), Trunc(b.x1));
    }
  }

  /** With NaN weights the resampled population is copies of the first prior
      particle, and so is its mean. */
  lemma {:induction false} CollapsedEstimate(prior: seq<Vec4>, us: seq<real>)
    requires |prior| > 0 && |us| > 0
    ensures Resampled(prior, AllNaN, us) == seq(|us|, _ => prior[0])
    ensures Mean(Resampled(prior, AllNaN, us)) == prior[0]
  {
    NaNResampleCollapses(prior, us);
    MeanOfCopies(prior[0], |us|);
  }

  /** As written, one particle whose box straddles the top edge of the frame
      is enough: every weight is NaN, resampling fills the population with
      particle 0, and particle 0's state becomes the estimate. */
  lemma {:induction false} EdgeParticleCollapses(g: Gray, ps: seq<Vec4>, roi: Roi, nBins: nat, target: seq<nat>,
                                                 density: seq<nat> -> real, us: seq<real>, k: nat)
    requires Rectangular(g) && nBins > 0 && k < |ps| && |us| > 0
    requires forall h :: Total(h) > 0 ==> density(h) > 0.0
    requires -(|g| as int) <= Trunc(BoxAround(ps[k], roi).y0) < 0
    requires 0 <= Trunc(BoxAround(ps[k], roi).y1) <= |g| + Trunc(BoxAround(ps[k], roi).y0)
    ensures var hs := seq(|ps|, i requires 0 <= i < |ps| => BoxHistogram(g, BoxAround(ps[i], roi), nBins));
            ParticleBetas(hs, target, density) == AllNaN &&
            Mean(Resampled(ps, ParticleBetas(hs, target, density), us)) == ps[0]
  {
    var hs := seq(|ps|, i requires 0 <= i < |ps| => BoxHistogram(g, BoxAround(ps[i], roi), nBins));
    StraddlingBoxSeesNothing(g, BoxAround(ps[k], roi), nBins);
    assert Total(hs[k]) == 0;
    CollapsedEstimate(ps, us);
  }

  /** A particle at y = 21.8 with a ROI 50 pixels wide has the rows
      `[-3:46]`, a box that straddles the top edge of any frame at least 49
      rows high. */
  lemma {:induction false} EdgeBoxExample(vx: real, vy: real)
    ensures var b := BoxAround(Vec4(125.0, 21.8, vx, vy), Roi(50, 50, 125.0, 21.8));
            Trunc(b.y0) == -3 && Trunc(b.y1) == 46
  {
    var b := BoxAround(Vec4(125.0, 21.8, vx, vy), Roi(50, 50, 125.0, 21.8));
    assert b.y0 == -3.2 && b.y1 == 46.8;
  }

  /** The densities with the degradation the tracker is meant to have: a
      particle whose histogram is empty, or every particle when the target is
      empty, gets density 0 instead of NaN. */
  function GuardedDensities(hs: seq<seq<nat>>, target: seq<nat>, density: seq<nat> -> real): (d: seq<real>)
    requires forall h :: Total(h) > 0 ==> density(h) > 0.0
    ensures |d| == |hs| && NonNegative(d)
    ensures forall i :: 0 <= i < |hs| ==> (d[i] > 0.0 <==> Total(target) > 0 && Total(hs[i]) > 0)
  {
    seq(|hs|, i requires 0 <= i < |hs| => if Total(target) > 0 && Total(hs[i]) > 0 then density(hs[i]) else 0.0)
  }

  /** When the target or every particle histogram is empty, every guarded
      density is 0, and so is their total. */
  lemma {:induction false} UnmeasurableDensitiesVanish(hs: seq<seq<nat>>, target: seq<nat>, density: seq<nat> -> real)
    requires forall h :: Total(h) > 0 ==> density(h) > 0.0
    ensures Total(target) == 0 || (forall i :: 0 <= i < |hs| ==> Total(hs[i]) == 0) ==>
              Sum(GuardedDensities(hs, target, density)) == 0.0
  {
    var d := GuardedDensities(hs, target, density);
    if Total(target) == 0 || (forall i :: 0 <= i < |hs| ==> Total(hs[i]) == 0) {
      forall i | 0 <= i < |d|
        ensures d[i] == 0.0
      {
        assert !(d[i] > 0.0);
      }
      SumOfZeros(d);
    }
  }

  /** `compute_particle_betas` corrected: the guarded densities normalised,
      and uniform weights when no particle can be measured. The weights are
      always a distribution. */
  function GuardedBetas(hs: seq<seq<nat>>, target: seq<nat>, density: seq<nat> -> real): (w: seq<real>)
    requires |hs| > 0 && forall h :: Total(h) > 0 ==> density(h) > 0.0
    ensures |w| == |hs| && NonNegative(w) && Sum(w) == 1.0
    ensures Total(target) == 0 || (forall i :: 0 <= i < |hs| ==> Total(hs[i]) == 0) ==> w == Uniform(|hs|)
  {
    var d := GuardedDensities(hs, target, density);
    UnmeasurableDensitiesVanish(hs, target, density);
    if Sum(d) > 0.0 then
      NormalizedIsDistribution(d);
      Normalized(d)
    else
      UniformSumsToOne(|hs|);
      Uniform(|hs|)
  }

  /** Wherever the code's weights are numbers, the corrected weights are the
      same numbers. */
  lemma {:induction false} GuardedBetasAgree(hs: seq<seq<nat>>, target: seq<nat>, density: seq<nat> -> real)
    requires |hs| > 0 && forall h :: Total(h) > 0 ==> density(h) > 0.0
    ensures ParticleBetas(hs, target, density).Finite? ==>
              GuardedBetas(hs, target, density) == ParticleBetas(hs, target, density).values
  {
    if ParticleBetas(hs, target, density).Finite? {
      assert GuardedDensities(hs, target, density) == Densities(hs, density);
      PositiveDensitiesGiveDistribution(hs, density);
    }
  }

  /** With the corrected weights, once one particle can be measured, a
      particle whose box cuts nothing has weight 0, and no draw in (0, 1]
      selects it. */
  lemma {:induction false} GuardedBetasSkipEmptyCrops(hs: seq<seq<nat>>, target: seq<nat>, density: seq<nat> -> real,
                                                      i: nat, j: nat, u: real)
    requires |hs| > 0 && forall h :: Total(h) > 0 ==> density(h) > 0.0
    requires i < |hs| && j < |hs| && Total(target) > 0 && Total(hs[i]) == 0 && Total(hs[j]) > 0
    requires 0.0 < u <= 1.0
    ensures GuardedBetas(hs, target, density)[i] == 0.0
    ensures Ancestor(Finite(GuardedBetas(hs, target, density)), u) != i
  {
    GuardedBetasZeroOnEmpty(hs, target, density, i, j);
    ZeroWeightNeverSelected(GuardedBetas(hs, target, density), u, i);
  }

  lemma {:induction false} GuardedBetasZeroOnEmpty(hs: seq<seq<nat>>, target: seq<nat>, density: seq<nat> -> real,
                                                   i: nat, j: nat)
    requires |hs| > 0 && forall h :: Total(h) > 0 ==> density(h) > 0.0
    requires i < |hs| && j < |hs| && Total(target) > 0 && Total(hs[i]) == 0 && Total(hs[j]) > 0
    ensures GuardedBetas(hs, target, density)[i] == 0.0
  {
    var d := GuardedDensities(hs, target, density);
    assert d[i] == 0.0 && d[j] > 0.0;
    ElementAtMostSum(d, j);
    var w := Normalized(d);
    ZeroShare(w[i], Sum(d));
    assert GuardedBetas(hs, target, density) == w;
  }

  lemma {:induction false} ZeroShare(x: real, t: real)
    requires t > 0.0 && x * t == 0.0
    ensures x == 0.0
  {
  }

  /** If all weight sits on particle `k`, resampling with positive draws
      leaves `n` copies of it, and the estimate is that particle. */
  lemma {:induction false} ConcentratedEstimate(prior: seq<Vec4>, k: nat, us: seq<real>)
    requires k < |prior| && |us| > 0
    requires forall i :: 0 <= i < |us| ==> 0.0 < us[i] <= 1.0
    ensures Mean(Resampled(prior, Finite(OneHot(|prior|, k)), us)) == prior[k]
  {
    ConcentratedResample(prior, k, us);
    MeanOfCopies(prior[k], |us|);
  }

  class MotionTracker {
    const nParticles: nat
    const nBins: nat
    /** `P0_init = diag(sigma_init_pos, sigma_init_pos, sigma_init_vel, sigma_init_vel)` */
    const initSpread: Scale
    /** `V_process_noise = diag(pos, pos, vel, vel)` */
    const processNoise: Scale
    const roi: Roi
    /** The histogram of the selected region of the first frame. */
    const targetHist: seq<nat>

    /** `current_state`: particle `i` is column `i` of the state matrix. */
    var state: array<Vec4>
    /** `particle_betas` */
    var betas: Betas
    /** `particle_boxes`: box `i` is column `i`. */
    var boxes: array<Box>
    /** `particle_histograms`: histogram `i` is column `i`. */
    var histograms: array<seq<nat>>
    /** `mmse_estimate` and `mmse_estimate_box` */
    var estimate: Vec4
    var estimateBox: Box

    ghost predicate Valid()
      reads this
    {
      nParticles > 0 && nBins > 0 && |targetHist| == nBins &&
      state.Length == nParticles && boxes.Length == nParticles &&
      histograms.Length == nParticles && (betas.Finite? ==> |betas.values| == nParticles)
    }

    /** Builds the tracker from the first frame and a selected rectangle:
        the two noise scales, the ROI, the target histogram, and then the
        initial particles around the ROI midpoint with uniform weights and
        the initial estimate. */
    constructor (gray: Gray, r0: real, r1: real, r2: real, r3: real, nParticles: nat,
                 sigmaInitPos: real, sigmaInitVel: real, processNoisePos: real, processNoiseVel: real,
                 nBins: nat, draws: seq<Vec4>)
      requires Rectangular(gray) && nParticles > 0 && nBins > 0 && |draws| == nParticles
      requires SliceLen(|gray|, Trunc(r1), Trunc(r1 + r3)) > 0
      requires SliceLen(Width(gray), Trunc(r0), Trunc(r0 + r2)) > 0
      ensures Valid() && fresh(state) && fresh(boxes) && fresh(histograms)
      ensures this.nParticles == nParticles && this.nBins == nBins
      ensures initSpread == Scale(sigmaInitPos, sigmaInitVel)
      ensures processNoise == Scale(processNoisePos, processNoiseVel)
      ensures roi == RoiFromSelection(r0, r1, r2, r3)
      ensures targetHist == BoxHistogram(gray, SelectionBox(r0, r1, r2, r3), nBins) && Total(targetHist) > 0
      ensures state[..] == InitialPopulation(roi, initSpread, draws)
      ensures betas == Finite(Uniform(nParticles)) && Sum(betas.values) == 1.0
      ensures forall i :: 0 <= i < nParticles ==> boxes[i] == Box(0.0, 0.0, 0.0, 0.0)
      ensures forall i :: 0 <= i < nParticles ==> histograms[i] == Zeros(nBins)
      ensures estimate == Mean(state[..]) && estimateBox == BoxAround(estimate, roi)
    {
      this.nParticles := nParticles;
      this.nBins := nBins;
      initSpread := Scale(sigmaInitPos, sigmaInitVel);
      processNoise := Scale(processNoisePos, processNoiseVel);
      var region := RoiFromSelection(r0, r1, r2, r3);
      roi := region;
      targetHist := BoxHistogram(gray, SelectionBox(r0, r1, r2, r3), nBins);
      CutBoxNonEmpty(gray, SelectionBox(r0, r1, r2, r3), nBins);
      var initial := InitialPopulation(region, Scale(sigmaInitPos, sigmaInitVel), draws);
      state := new Vec4[nParticles](i requires 0 <= i < nParticles => initial[i]);
      boxes := new Box[nParticles](_ => Box(0.0, 0.0, 0.0, 0.0));
      histograms := new seq<nat>[nParticles](_ => Zeros(nBins));
      betas := Finite(Uniform(nParticles));
      UniformSumsToOne(nParticles);
      new;
      assert state[..] == initial;
      ComputeMmseEstimate();
    }

    /** `propagate_particles`: the state matrix becomes `A(dt) . state +
        V_process_noise . draws`; the population keeps its size and nothing
        is clamped. */
    method PropagateParticles(dt: real, draws: seq<Vec4>)
      requires Valid() && |draws| == nParticles
      modifies this`state
      ensures Valid() && fresh(state)
      ensures state[..] == PropagatedPopulation(old(state[..]), dt, processNoise, draws)
    {
      var next := PropagatedPopulation(state[..], dt, processNoise, draws);
      state := new Vec4[nParticles](i requires 0 <= i < nParticles => next[i]);
      assert state[..] == next;
    }

    /** `update_particles_histograms`: for each particle, its box around its
        state and the histogram of the frame under that box. */
    method UpdateParticlesHistograms(gray: Gray)
      requires Valid() && Rectangular(gray)
      modifies boxes, histograms
      ensures Valid()
      ensures forall i :: 0 <= i < nParticles ==>
                boxes[i] == BoxAround(state[i], roi) && histograms[i] == BoxHistogram(gray, boxes[i], nBins)
    {
      for i := 0 to nParticles
        invariant forall k :: 0 <= k < i ==>
                    boxes[k] == BoxAround(state[k], roi) && histograms[k] == BoxHistogram(gray, boxes[k], nBins)
      {
        boxes[i] := BoxAround(state[i], roi);
        histograms[i] := BoxHistogram(gray, boxes[i], nBins);
      }
    }

    /** `compute_particle_betas`: each weight is the particle's density
        divided by the sum of all densities, and they form a distribution;
        an empty target or particle histogram makes every weight NaN. */
    method ComputeParticleBetas(density: seq<nat> -> real)
      requires Valid() && forall h :: Total(h) > 0 ==> density(h) > 0.0
      modifies this`betas
      ensures Valid()
      ensures betas == ParticleBetas(histograms[..], targetHist, density)
      ensures betas.AllNaN? <==> Total(targetHist) == 0 || exists i :: 0 <= i < nParticles && Total(histograms[i]) == 0
      ensures betas.Finite? ==> NonNegative(betas.values) && Sum(betas.values) == 1.0
    {
      betas := ParticleBetas(histograms[..], targetHist, density);
    }

    /** `resample_particles`: slot `i` receives a full copy of the particle
        that uniform draw `us[i]` selects from a snapshot of the population
        taken before any slot is overwritten. */
    method ResampleParticles(us: seq<real>)
      requires Valid() && |us| == nParticles
      modifies state
      ensures Valid()
      ensures state[..] == Resampled(old(state[..]), betas, us)
    {
      var prior := state[..];
      var cumsum := if betas.Finite? then CumSum(betas.values) else [];
      for i := 0 to nParticles
        invariant forall k :: 0 <= k < i ==> state[k] == prior[Ancestor(betas, us[k])]
      {
        var index := if betas.Finite? then AncestorIndex(cumsum, us[i]) else 0;
        state[i] := prior[index];
      }
    }

    /** `compute_MMSE_estimate`: the componentwise mean of the particles, and
        the ROI-sized box centred on it. */
    method ComputeMmseEstimate()
      requires Valid()
      modifies this`estimate, this`estimateBox
      ensures Valid()
      ensures estimate == Mean(state[..]) && estimateBox == BoxAround(estimate, roi)
    {
      estimate := Mean(state[..]);
      estimateBox := BoxAround(estimate, roi);
    }

    /** `update_particles`: measure, weigh, resample, estimate. */
    method UpdateParticles(gray: Gray, density: seq<nat> -> real, us: seq<real>)
      requires Valid() && Rectangular(gray) && |us| == nParticles
      requires forall h :: Total(h) > 0 ==> density(h) > 0.0
      modifies boxes, histograms, this`betas, state, this`estimate, this`estimateBox
      ensures Valid()
      ensures forall i :: 0 <= i < nParticles ==>
                boxes[i] == BoxAround(old(state[i]), roi) && histograms[i] == BoxHistogram(gray, boxes[i], nBins)
      ensures betas == ParticleBetas(histograms[..], targetHist, density)
      ensures betas.Finite? ==> Sum(betas.values) == 1.0
      ensures state[..] == Resampled(old(state[..]), betas, us)
      ensures estimate == Mean(state[..]) && estimateBox == BoxAround(estimate, roi)
      ensures betas.AllNaN? ==> estimate == old(state[0])
    {
      ghost var prior := state[..];
      UpdateParticlesHistograms(gray);
      ComputeParticleBetas(density);
      ResampleParticles(us);
      ComputeMmseEstimate();
      if betas.AllNaN? {
        CollapsedEstimate(prior, us);
      }
    }

    /** One frame of the tracking loop: propagate by `dt`, then update. */
    method TrackFrame(dt: real, draws: seq<Vec4>, gray: Gray, density: seq<nat> -> real, us: seq<real>)
      requires Valid() && Rectangular(gray) && |draws| == nParticles && |us| == nParticles
      requires forall h :: Total(h) > 0 ==> density(h) > 0.0
      modifies this`state, boxes, histograms, this`betas, this`estimate, this`estimateBox
      ensures Valid()
      ensures var moved := PropagatedPopulation(old(state[..]), dt, processNoise, draws);
              (forall i :: 0 <= i < nParticles ==>
                 boxes[i] == BoxAround(moved[i], roi) && histograms[i] == BoxHistogram(gray, boxes[i], nBins)) &&
              state[..] == Resampled(moved, betas, us)
      ensures betas == ParticleBetas(histograms[..], targetHist, density)
      ensures betas.Finite? ==> Sum(betas.values) == 1.0
      ensures estimate == Mean(state[..]) && estimateBox == BoxAround(estimate, roi)
      ensures betas.AllNaN? ==> estimate == PropagatedPopulation(old(state[..]), dt, processNoise, draws)[0]
    {
      ghost var moved := PropagatedPopulation(state[..], dt, processNoise, draws);
      PropagateParticles(dt, draws);
      assert state[..] == moved;
      UpdateParticles(gray, density, us);
    }
  }
}
