/** The per-particle arithmetic of the particle filter: the 4-component state
    `(x, y, vx, vy)` of one particle (one column of the tracker's 4 x N state
    matrix), the diagonal noise scales, the constant-velocity transition
    `A(dt)`, the region of interest, the box drawn around a state, and the
    population mean used as the MMSE estimate. */
module Particles {
  import opened PySemantics

  /** A column of a 4-row matrix: a particle state `(x, y, vx, vy)`, or the
      four standard-normal draws `(z0, z1, z2, z3)` applied to one particle. */
  datatype Vec4 = Vec4(x: real, y: real, vx: real, vy: real)

  /** The diagonal matrix `diag(pos, pos, vel, vel)` (both `P0_init` and
      `V_process_noise` have this shape): a scale applied to the draws. */
  datatype Scale = Scale(pos: real, vel: real)

  /** A box `(x0, y0, x1, y1)`: corners as the tracker stores them. */
  datatype Box = Box(x0: real, y0: real, x1: real, y1: real)

  /** The region of interest as the tracker keeps it. `height` is the extent
      of the selection along x and `width` its extent along y (the names are
      the source's own); `midX`, `midY` is the selection's midpoint. */
  datatype Roi = Roi(height: int, width: int, midX: real, midY: real)

  const Zero := Vec4(0.0, 0.0, 0.0, 0.0)

  function Add(a: Vec4, b: Vec4): Vec4
  {
    Vec4(a.x + b.x, a.y + b.y, a.vx + b.vx, a.vy + b.vy)
  }

  function Times(c: real, a: Vec4): Vec4
  {
    Vec4(c * a.x, c * a.y, c * a.vx, c * a.vy)
  }

  /** `diag(pos, pos, vel, vel) . z` */
  function Diag(s: Scale, z: Vec4): Vec4
  {
    Vec4(s.pos * z.x, s.pos * z.y, s.vel * z.vx, s.vel * z.vy)
  }

  /** `A(dt) . p`, where `A(dt)` is the 4 x 4 identity with `A[0,2] = A[1,3] = dt`. */
  function Transition(dt: real, p: Vec4): Vec4
  {
    Vec4(p.x + dt * p.vx, p.y + dt * p.vy, p.vx, p.vy)
  }

  /** The region of interest derived from a selected rectangle `(r0, r1, r2, r3)`
      = (left, top, extent along x, extent along y): each edge is truncated with
      `int()`, and the midpoint is halfway between the truncated edges. */
  function RoiFromSelection(r0: real, r1: real, r2: real, r3: real): (roi: Roi)
    ensures roi.height == Trunc(r0 + r2) - Trunc(r0)
    ensures roi.width == Trunc(r1 + r3) - Trunc(r1)
    ensures roi.midX == (Trunc(r0) + Trunc(r0 + r2)) as real / 2.0
    ensures roi.midY == (Trunc(r1) + Trunc(r1 + r3)) as real / 2.0
  {
    var height := Trunc(r0 + r2) - Trunc(r0);
    var width := Trunc(r1 + r3) - Trunc(r1);
    Roi(height, width, Trunc(r0) as real + height as real / 2.0, Trunc(r1) as real + width as real / 2.0)
  }

  /** The state a particle starts in: the ROI midpoint at rest, plus the
      initial spread applied to its draws. */
  function InitialParticle(roi: Roi, spread: Scale, z: Vec4): Vec4
  {
    Add(Vec4(roi.midX, roi.midY, 0.0, 0.0), Diag(spread, z))
  }

  /** One propagation step: `A(dt) . p + diag(noise) . z`. */
  function Propagated(p: Vec4, dt: real, noise: Scale, z: Vec4): Vec4
  {
    Add(Transition(dt, p), Diag(noise, z))
  }

  /** The box of the ROI's size centred on a state: `height` along x, `width`
      along y. */
  function BoxAround(p: Vec4, roi: Roi): (b: Box)
    ensures b.x1 - b.x0 == roi.height as real && b.y1 - b.y0 == roi.width as real
    ensures (b.x0 + b.x1) / 2.0 == p.x && (b.y0 + b.y1) / 2.0 == p.y
  {
    Box(p.x - roi.height as real / 2.0, p.y - roi.width as real / 2.0,
        p.x + roi.height as real / 2.0, p.y + roi.width as real / 2.0)
  }

  /** The columns of the initial state matrix, one per draw. */
  function InitialPopulation(roi: Roi, spread: Scale, zs: seq<Vec4>): (ps: seq<Vec4>)
    ensures |ps| == |zs|
  {
    seq(|zs|, i requires 0 <= i < |zs| => InitialParticle(roi, spread, zs[i]))
  }

  /** Particle `i` starts at the ROI midpoint at rest, moved by its draws
      scaled with the initial spread. */
  lemma {:induction false} InitialPopulationComponents(roi: Roi, spread: Scale, zs: seq<Vec4>, i: nat)
    requires i < |zs|
    ensures InitialPopulation(roi, spread, zs)[i] ==
              Vec4(roi.midX + spread.pos * zs[i].x, roi.midY + spread.pos * zs[i].y,
                   spread.vel * zs[i].vx, spread.vel * zs[i].vy)
  {
    var p := InitialParticle(roi, spread, zs[i]);
    assert p.vx == 0.0 + spread.vel * zs[i].vx && p.vy == 0.0 + spread.vel * zs[i].vy;
  }

  /** The state matrix after one propagation step, particle by particle. */
  function PropagatedPopulation(ps: seq<Vec4>, dt: real, noise: Scale, zs: seq<Vec4>): (qs: seq<Vec4>)
    requires |zs| == |ps|
    ensures |qs| == |ps|
  {
    seq(|ps|, i requires 0 <= i < |ps| => Propagated(ps[i], dt, noise, zs[i]))
  }

  /** Particle `i` moves by `dt` along its velocity, and every component gets
      its draw scaled with the process noise; nothing is clamped. */
  lemma {:induction false} PropagatedPopulationComponents(ps: seq<Vec4>, dt: real, noise: Scale, zs: seq<Vec4>, i: nat)
    requires |zs| == |ps| && i < |ps|
    ensures PropagatedPopulation(ps, dt, noise, zs)[i] ==
              Vec4(ps[i].x + dt * ps[i].vx + noise.pos * zs[i].x,
                   ps[i].y + dt * ps[i].vy + noise.pos * zs[i].y,
                   ps[i].vx + noise.vel * zs[i].vx,
                   ps[i].vy + noise.vel * zs[i].vy)
  {
    var t := Transition(dt, ps[i]);
    var d := Diag(noise, zs[i]);
    assert PropagatedPopulation(ps, dt, noise, zs)[i] == Add(t, d);
    assert t.x + d.x == ps[i].x + dt * ps[i].vx + noise.pos * zs[i].x;
    assert t.y + d.y == ps[i].y + dt * ps[i].vy + noise.pos * zs[i].y;
  }

  /** Componentwise sum of the columns. */
  function SumVec(ps: seq<Vec4>): Vec4
  {
    if ps == [] then Zero else Add(ps[0], SumVec(ps[1..]))
  }

  /** The componentwise arithmetic mean of the columns (`mean(axis=1)`). */
  function Mean(ps: seq<Vec4>): (m: Vec4)
    requires |ps| > 0
    ensures Times(|ps| as real, m) == SumVec(ps)
  {
    Times(1.0 / |ps| as real, SumVec(ps))
  }

  /** Without noise, propagating by `dt1` then by `dt2` is propagating by
      `dt1 + dt2`: positions advance along the unchanged velocity. */
  lemma {:induction false} PropagationComposes(p: Vec4, dt1: real, dt2: real, noise: Scale)
    ensures Propagated(Propagated(p, dt1, noise, Zero), dt2, noise, Zero) == Propagated(p, dt1 + dt2, noise, Zero)
    ensures Propagated(p, dt1, noise, Zero) == Vec4(p.x + dt1 * p.vx, p.y + dt1 * p.vy, p.vx, p.vy)
  {
  }

  lemma {:induction false} SumOfCopies(p: Vec4, n: nat)
    ensures SumVec(seq(n, _ => p)) == Times(n as real, p)
  {
    if n > 0 {
      assert seq(n, _ => p)[1..] == seq(n - 1, _ => p);
      SumOfCopies(p, n - 1);
    }
  }

  /** A population of `n` copies of one state has that state as its mean. */
  lemma {:induction false} MeanOfCopies(p: Vec4, n: nat)
    requires n > 0
    ensures Mean(seq(n, _ => p)) == p
  {
    SumOfCopies(p, n);
  }

  lemma {:induction false} TimesAdd(c: real, a: Vec4, b: Vec4)
    ensures Times(c, Add(a, b)) == Add(Times(c, a), Times(c, b))
  {
    assert c * (a.x + b.x) == c * a.x + c * b.x;
    assert c * (a.y + b.y) == c * a.y + c * b.y;
    assert c * (a.vx + b.vx) == c * a.vx + c * b.vx;
    assert c * (a.vy + b.vy) == c * a.vy + c * b.vy;
  }

  lemma {:induction false} TimesSucc(n: real, a: Vec4)
    ensures Times(n + 1.0, a) == Add(a, Times(n, a))
  {
    assert (n + 1.0) * a.x == a.x + n * a.x;
    assert (n + 1.0) * a.y == a.y + n * a.y;
    assert (n + 1.0) * a.vx == a.vx + n * a.vx;
    assert (n + 1.0) * a.vy == a.vy + n * a.vy;
  }

  lemma {:induction false} TimesInverse(n: real, a: Vec4)
    requires n != 0.0
    ensures Times(1.0 / n, Times(n, a)) == a
  {
    var c := 1.0 / n;
    assert c * n == 1.0;
    assert c * (n * a.x) == (c * n) * a.x;
    assert c * (n * a.y) == (c * n) * a.y;
    assert c * (n * a.vx) == (c * n) * a.vx;
    assert c * (n * a.vy) == (c * n) * a.vy;
  }

  lemma {:induction false} TransitionAdd(dt: real, a: Vec4, b: Vec4)
    ensures Transition(dt, Add(a, b)) == Add(Transition(dt, a), Transition(dt, b))
  {
    var lhs := Transition(dt, Add(a, b));
    var rhs := Add(Transition(dt, a), Transition(dt, b));
    assert dt * (a.vx + b.vx) == dt * a.vx + dt * b.vx;
    assert dt * (a.vy + b.vy) == dt * a.vy + dt * b.vy;
    assert lhs.x == rhs.x && lhs.y == rhs.y;
    assert lhs.vx == rhs.vx && lhs.vy == rhs.vy;
  }

  lemma {:induction false} TransitionTimes(dt: real, a: Vec4, c: real)
    ensures Transition(dt, Times(c, a)) == Times(c, Transition(dt, a))
  {
    assert dt * (c * a.vx) == c * (dt * a.vx);
    assert dt * (c * a.vy) == c * (dt * a.vy);
    assert c * (a.x + dt * a.vx) == c * a.x + c * (dt * a.vx);
    assert c * (a.y + dt * a.vy) == c * a.y + c * (dt * a.vy);
  }

  lemma {:induction false} DiagAdd(s: Scale, a: Vec4, b: Vec4)
    ensures Diag(s, Add(a, b)) == Add(Diag(s, a), Diag(s, b))
  {
    assert s.pos * (a.x + b.x) == s.pos * a.x + s.pos * b.x;
    assert s.pos * (a.y + b.y) == s.pos * a.y + s.pos * b.y;
    assert s.vel * (a.vx + b.vx) == s.vel * a.vx + s.vel * b.vx;
    assert s.vel * (a.vy + b.vy) == s.vel * a.vy + s.vel * b.vy;
  }

  lemma {:induction false} DiagTimes(s: Scale, a: Vec4, c: real)
    ensures Diag(s, Times(c, a)) == Times(c, Diag(s, a))
  {
    assert s.pos * (c * a.x) == c * (s.pos * a.x);
    assert s.pos * (c * a.y) == c * (s.pos * a.y);
    assert s.vel * (c * a.vx) == c * (s.vel * a.vx);
    assert s.vel * (c * a.vy) == c * (s.vel * a.vy);
  }

  lemma {:induction false} SumPropagated(ps: seq<Vec4>, dt: real, noise: Scale, zs: seq<Vec4>)
    requires |zs| == |ps|
    ensures SumVec(PropagatedPopulation(ps, dt, noise, zs)) == Propagated(SumVec(ps), dt, noise, SumVec(zs))
  {
    if ps != [] {
      assert PropagatedPopulation(ps, dt, noise, zs)[1..] == PropagatedPopulation(ps[1..], dt, noise, zs[1..]);
      SumPropagated(ps[1..], dt, noise, zs[1..]);
      TransitionAdd(dt, ps[0], SumVec(ps[1..]));
      DiagAdd(noise, zs[0], SumVec(zs[1..]));
    }
  }

  /** The estimate commutes with the motion model: the mean of the propagated
      population is the mean state propagated with the mean draw. */
  lemma {:induction false} MeanPropagated(ps: seq<Vec4>, dt: real, noise: Scale, zs: seq<Vec4>)
    requires |zs| == |ps| > 0
    ensures Mean(PropagatedPopulation(ps, dt, noise, zs)) == Propagated(Mean(ps), dt, noise, Mean(zs))
  {
    var c := 1.0 / |ps| as real;
    SumPropagated(ps, dt, noise, zs);
    TimesAdd(c, Transition(dt, SumVec(ps)), Diag(noise, SumVec(zs)));
    TransitionTimes(dt, SumVec(ps), c);
    DiagTimes(noise, SumVec(zs), c);
  }

  lemma {:induction false} SumInitial(roi: Roi, spread: Scale, zs: seq<Vec4>)
    ensures SumVec(InitialPopulation(roi, spread, zs))
         == Add(Times(|zs| as real, Vec4(roi.midX, roi.midY, 0.0, 0.0)), Diag(spread, SumVec(zs)))
  {
    if zs != [] {
      var n := |zs| as real;
      var m := Vec4(roi.midX, roi.midY, 0.0, 0.0);
      assert InitialPopulation(roi, spread, zs)[1..] == InitialPopulation(roi, spread, zs[1..]);
      SumInitial(roi, spread, zs[1..]);
      DiagAdd(spread, zs[0], SumVec(zs[1..]));
      assert |zs[1..]| as real + 1.0 == n;
      TimesSucc(|zs[1..]| as real, m);
    }
  }

  /** The initial population is centred on the ROI midpoint at rest, offset by
      the spread applied to the mean draw: with zero-mean draws its estimate
      is exactly `(midX, midY, 0, 0)`. */
  lemma {:induction false} MeanInitial(roi: Roi, spread: Scale, zs: seq<Vec4>)
    requires |zs| > 0
    ensures Mean(InitialPopulation(roi, spread, zs)) == InitialParticle(roi, spread, Mean(zs))
    ensures Mean(zs) == Zero ==> Mean(InitialPopulation(roi, spread, zs)) == Vec4(roi.midX, roi.midY, 0.0, 0.0)
  {
    var n := |zs| as real;
    var c := 1.0 / n;
    var m := Vec4(roi.midX, roi.midY, 0.0, 0.0);
    SumInitial(roi, spread, zs);
    TimesAdd(c, Times(n, m), Diag(spread, SumVec(zs)));
    DiagTimes(spread, SumVec(zs), c);
    TimesInverse(n, m);
  }
}
