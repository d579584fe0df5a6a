/** The circle-detection mode of the tracker, after the detector has run:
    choosing one of the candidate circles, recording the ball's position and
    radius for the frame, and converting its pixel displacement since the
    previous frame into a velocity in cm/s using the known ball diameter.
    The candidates are given; the detector itself is not part of this model. */
module Hough {

  /** Diameter of the ball in centimetres. */
  const PingpongDiameterCm: real := 4.0

  /** A detected circle: centre and radius in pixels. */
  datatype Circle = Circle(x: real, y: real, r: real)

  datatype Point = Point(x: real, y: real)

  function Abs(a: real): real
  {
    if a < 0.0 then -a else a
  }

  function Center(c: Circle): Point
  {
    Point(c.x, c.y)
  }

  /** Centimetres per pixel when the ball shows with radius `radius` pixels. */
  function CmPerPixel(radius: real): (k: real)
    requires radius > 0.0
    ensures k * 2.0 * radius == PingpongDiameterCm
  {
    PingpongDiameterCm / (2.0 * radius)
  }

  /** `(new - prev) / dt * cm_per_pixel` per coordinate: the displacement
      converted to centimetres, per unit of time. */
  function Velocity(newPos: Point, prev: Point, dt: real, radius: real): (v: Point)
    requires dt != 0.0 && radius > 0.0
    ensures v.x * dt == (newPos.x - prev.x) * CmPerPixel(radius)
    ensures v.y * dt == (newPos.y - prev.y) * CmPerPixel(radius)
  {
    var k := CmPerPixel(radius);
    var vx := (newPos.x - prev.x) / dt;
    var vy := (newPos.y - prev.y) / dt;
    assert vx * dt == newPos.x - prev.x && vy * dt == newPos.y - prev.y;
    assert (vx * k) * dt == (vx * dt) * k;
    assert (vy * k) * dt == (vy * dt) * k;
    Point(vx * k, vy * k)
  }

  /** The velocity reproduces the new position: travelling for `dt` at the
      velocity, converted back to pixels, leads from `prev` to `newPos`. */
  lemma {:induction false} VelocityRoundTrip(newPos: Point, prev: Point, dt: real, radius: real)
    requires dt != 0.0 && radius > 0.0
    ensures prev.x + Velocity(newPos, prev, dt, radius).x * dt / CmPerPixel(radius) == newPos.x
    ensures prev.y + Velocity(newPos, prev, dt, radius).y * dt / CmPerPixel(radius) == newPos.y
  {
    var v := Velocity(newPos, prev, dt, radius);
    var k := CmPerPixel(radius);
    assert k > 0.0;
    assert v.x * dt / k == (newPos.x - prev.x) * k / k;
    assert v.y * dt / k == (newPos.y - prev.y) * k / k;
  }

  /** The candidate loop of `track_ball_hough` as written: `min_distance`
      starts at -1 and is never updated, so the test `min_distance < 0`
      passes for every candidate and each one overwrites the previous
      choice; the last candidate wins whatever its radius. */
  method SelectCandidate(circles: seq<Circle>, targetRadius: real, start: Point, startRadius: real)
    returns (pos: Point, radius: real)
    requires |circles| > 0
    ensures pos == Center(circles[|circles| - 1]) && radius == circles[|circles| - 1].r
  {
    var minDistance := -1.0;
    pos, radius := start, startRadius;
    for i := 0 to |circles|
      invariant i > 0 ==> pos == Center(circles[i - 1]) && radius == circles[i - 1].r
    {
      var circle := circles[i];
      if minDistance < 0.0 || Abs(circle.r - targetRadius) < minDistance {
        pos := Center(circle);
        radius := circle.r;
      }
    }
  }

  /** The index of the first candidate whose radius is closest to the
      target radius: what the loop selects once `min_distance` is updated
      on every accepted candidate. */
  function ClosestCandidate(circles: seq<Circle>, targetRadius: real): (k: nat)
    requires |circles| > 0
    ensures k < |circles|
    ensures forall j :: 0 <= j < |circles| ==>
              Abs(circles[k].r - targetRadius) <= Abs(circles[j].r - targetRadius)
    ensures forall j :: 0 <= j < k ==>
              Abs(circles[j].r - targetRadius) > Abs(circles[k].r - targetRadius)
  {
    if |circles| == 1 then 0
    else
      var k := ClosestCandidate(circles[..|circles| - 1], targetRadius);
      var last := |circles| - 1;
      if Abs(circles[last].r - targetRadius) < Abs(circles[k].r - targetRadius) then last else k
  }

  /** The candidate loop with `min_distance` kept up to date: it selects the
      first candidate closest to the target radius. */
  method SelectClosestCandidate(circles: seq<Circle>, targetRadius: real, start: Point, startRadius: real)
    returns (pos: Point, radius: real)
    requires |circles| > 0
    ensures pos == Center(circles[ClosestCandidate(circles, targetRadius)])
    ensures radius == circles[ClosestCandidate(circles, targetRadius)].r
  {
    var minDistance := -1.0;
    ghost var chosen := 0;
    pos, radius := start, startRadius;
    for i := 0 to |circles|
      invariant i == 0 <==> minDistance < 0.0
      invariant chosen < |circles|
      invariant i > 0 ==> chosen < i && pos == Center(circles[chosen]) && radius == circles[chosen].r
      invariant i > 0 ==> minDistance == Abs(circles[chosen].r - targetRadius)
      invariant forall j :: 0 <= j < i ==> minDistance <= Abs(circles[j].r - targetRadius)
      invariant forall j :: 0 <= j < chosen ==> minDistance < Abs(circles[j].r - targetRadius)
    {
      var circle := circles[i];
      if minDistance < 0.0 || Abs(circle.r - targetRadius) < minDistance {
        pos := Center(circle);
        radius := circle.r;
        minDistance := Abs(circle.r - targetRadius);
        chosen := i;
      }
    }
    FirstClosestIsUnique(circles, targetRadius, chosen);
  }

  /** Only one index is a first closest candidate: it is the one
      `ClosestCandidate` returns. */
  lemma {:induction false} FirstClosestIsUnique(circles: seq<Circle>, targetRadius: real, k: nat)
    requires k < |circles|
    requires forall j :: 0 <= j < |circles| ==> Abs(circles[k].r - targetRadius) <= Abs(circles[j].r - targetRadius)
    requires forall j :: 0 <= j < k ==> Abs(circles[k].r - targetRadius) < Abs(circles[j].r - targetRadius)
    ensures k == ClosestCandidate(circles, targetRadius)
  {
  }

  /** As written, the selection can pick a candidate that is not the closest:
      with target radius 26 and candidates of radius 26 and 31, in that
      order, the loop keeps the second. */
  lemma {:induction false} LastCandidateNotClosest()
    ensures var cs := [Circle(100.0, 80.0, 26.0), Circle(140.0, 60.0, 31.0)];
            ClosestCandidate(cs, 26.0) == 0 &&
            cs[|cs| - 1].r == 31.0 &&
            Abs(cs[|cs| - 1].r - 26.0) > Abs(cs[0].r - 26.0)
  {
  }

  /** The per-frame trajectory buffers of the circle-detection mode. */
  class HoughTracker {
    /** `frame_count`: -1 before the first frame. */
    var frameCount: int
    /** `ball_center`, `ball_radius`, `ball_center_vel`: one entry per frame. */
    const ballCenter: array<Point>
    const ballRadius: array<real>
    const ballCenterVel: array<Point>

    ghost predicate Valid()
      reads this
    {
      frameCount >= -1 && ballCenter != ballCenterVel &&
      ballRadius.Length == ballCenter.Length && ballCenterVel.Length == ballCenter.Length
    }

    /** Buffers for `framesToProcess` frames, all zero. */
    constructor (framesToProcess: nat)
      ensures Valid() && frameCount == -1
      ensures fresh(ballCenter) && fresh(ballRadius) && fresh(ballCenterVel)
      ensures ballCenter.Length == framesToProcess
      ensures forall i :: 0 <= i < framesToProcess ==>
                ballCenter[i] == Point(0.0, 0.0) && ballRadius[i] == 0.0 && ballCenterVel[i] == Point(0.0, 0.0)
    {
      frameCount := -1;
      ballCenter := new Point[framesToProcess](_ => Point(0.0, 0.0));
      ballRadius := new real[framesToProcess](_ => 0.0);
      ballCenterVel := new Point[framesToProcess](_ => Point(0.0, 0.0));
    }

    /** `track_ball_hough` after detection, for the candidates `circles` the
        detector returned (empty when it found none). The frame counter always
        advances. With no candidate nothing else changes: the entries of the
        frame keep their zeros. Otherwise the frame's radius is the chosen
        candidate's; from the second frame on, a non-positive radius leaves
        `cm_per_pixel` as `None` and the velocity arithmetic raises (`raised`),
        before the frame's position is stored; else the velocity is the
        displacement from the previous frame's position, and the chosen
        centre becomes the frame's position. */
    method TrackBallHough(circles: seq<Circle>, targetRadius: real, dt: real) returns (raised: bool)
      requires Valid()
      requires |circles| > 0 ==> frameCount + 1 < ballCenter.Length
      requires |circles| > 0 && frameCount >= 0 && circles[|circles| - 1].r > 0.0 ==> dt != 0.0
      modifies this`frameCount, ballCenter, ballRadius, ballCenterVel
      ensures Valid() && frameCount == old(frameCount) + 1
      ensures circles == [] ==>
                !raised && ballCenter[..] == old(ballCenter[..]) &&
                ballRadius[..] == old(ballRadius[..]) && ballCenterVel[..] == old(ballCenterVel[..])
      ensures circles != [] ==>
                var chosen := circles[|circles| - 1];
                var f := frameCount;
                raised == (f > 0 && chosen.r <= 0.0) &&
                ballRadius[..] == old(ballRadius[..])[f := chosen.r] &&
                (raised ==> ballCenter[..] == old(ballCenter[..]) && ballCenterVel[..] == old(ballCenterVel[..])) &&
                (!raised ==> ballCenter[..] == old(ballCenter[..])[f := Center(chosen)]) &&
                (!raised && f > 0 ==>
                   ballCenterVel[..] == old(ballCenterVel[..])[f := Velocity(Center(chosen), old(ballCenter[f - 1]), dt, chosen.r)]) &&
                (f == 0 ==> ballCenterVel[..] == old(ballCenterVel[..]))
    {
      frameCount := frameCount + 1;
      raised := false;
      if |circles| > 0 {
        var newPos := Point(0.0, 0.0);
        if frameCount > 0 {
          newPos := ballCenter[frameCount - 1];
        }
        var radius;
        newPos, radius := SelectCandidate(circles, targetRadius, newPos, ballRadius[frameCount]);
        ballRadius[frameCount] := radius;
        if frameCount > 0 {
          if ballRadius[frameCount] > 0.0 {
            ballCenterVel[frameCount] := Velocity(newPos, ballCenter[frameCount - 1], dt, ballRadius[frameCount]);
          } else {
            raised := true;
            return;
          }
        }
        ballCenter[frameCount] := newPos;
      }
    }
  }
}
