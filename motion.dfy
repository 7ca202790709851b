/**
 * The per-frame camera update of RoboSim: elapsed time since the previous
 * frame, movement along the yaw-relative basis, the arena-bound policy that
 * decides which movement terms each axis takes, the jogging bob, and the
 * integration of yaw and pitch.
 *
 * `sinDeg` and `cosDeg` stand for `Math.sin(degToRad(d))` and
 * `Math.cos(degToRad(d))`; they are parameters, so nothing here depends on
 * what the trigonometric functions compute.
 */
module Motion {
  import opened Controls

  /** Camera position, orientation (degrees) and jogging-bob angle. */
  datatype Pose = Pose(x: real, y: real, z: real, yaw: real, pitch: real, joggingAngle: real)

  /** Half-width of the band inside which both movement terms are applied. */
  const InnerEdge: real := 9.8
  /** Half-width of the band used by the single-term correction. */
  const OuterEdge: real := 9.9

  predicate InInnerBand(p: real) {
    p < InnerEdge && p > -InnerEdge
  }

  /**
   * One axis of the arena-bound policy: `along` is the forward term and
   * `side` the strafe term, each subtracted from the coordinate. Strictly
   * inside the inner band both are applied; elsewhere at most one, chosen by
   * a fixed priority order and not by magnitude.
   */
  function AxisStep(p: real, along: real, side: real): (r: real)
    ensures InInnerBand(p) ==> r == p - along - side
    ensures !InInnerBand(p) ==> r == p || r == p - along || r == p - side
    ensures !InInnerBand(p) && p < OuterEdge && along < 0.0 ==> r == p - along
    ensures !InInnerBand(p) && p < OuterEdge && along >= 0.0 && side < 0.0 ==> r == p - side
    ensures (!InInnerBand(p) && !(p < OuterEdge && (along < 0.0 || side < 0.0))
             && p > -OuterEdge && along > 0.0) ==> r == p - along
    ensures (!InInnerBand(p) && !(p < OuterEdge && (along < 0.0 || side < 0.0))
             && p > -OuterEdge && along <= 0.0 && side > 0.0) ==> r == p - side
    ensures (!InInnerBand(p) && !(p < OuterEdge && (along < 0.0 || side < 0.0))
             && !(p > -OuterEdge && (along > 0.0 || side > 0.0))) ==> r == p
    ensures p >= OuterEdge ==> r <= p
    ensures p <= -OuterEdge ==> r >= p
  {
    if InInnerBand(p) then p - along - side
    else if p < OuterEdge && along < 0.0 then p - along
    else if p < OuterEdge && side < 0.0 then p - side
    else if p > -OuterEdge && along > 0.0 then p - along
    else if p > -OuterEdge && side > 0.0 then p - side
    else p
  }

  /** Whether the frame moves the camera at all: some forward or strafe speed. */
  predicate Moving(rates: Rates) {
    rates.speed != 0.0 || rates.sideSpeed != 0.0
  }

  /**
   * The four movement terms of a frame: forward and strafe, on x and on z.
   * Strafing uses the direction 90 degrees to the left of the view.
   */
  datatype Offsets = Offsets(xAlong: real, xSide: real, zAlong: real, zSide: real)

  function Displacement(yaw: real, rates: Rates, elapsed: real, sinDeg: real -> real, cosDeg: real -> real): (d: Offsets)
    ensures rates.speed == 0.0 ==> d.xAlong == 0.0 && d.zAlong == 0.0
    ensures rates.sideSpeed == 0.0 ==> d.xSide == 0.0 && d.zSide == 0.0
  {
    Offsets(sinDeg(yaw) * rates.speed * elapsed, sinDeg(yaw - 90.0) * rates.sideSpeed * elapsed,
            cosDeg(yaw) * rates.speed * elapsed, cosDeg(yaw - 90.0) * rates.sideSpeed * elapsed)
  }

  /** One frame after the first, `elapsed` milliseconds after the previous one. */
  function Tick(pose: Pose, rates: Rates, elapsed: real, sinDeg: real -> real, cosDeg: real -> real): (q: Pose)
    ensures q.yaw == pose.yaw + rates.yawRate * elapsed
    ensures q.pitch == pose.pitch + rates.pitchRate * elapsed
    ensures !Moving(rates) ==> q.x == pose.x && q.y == pose.y && q.z == pose.z && q.joggingAngle == pose.joggingAngle
    ensures var d := Displacement(pose.yaw, rates, elapsed, sinDeg, cosDeg);
      Moving(rates) ==> q.x == AxisStep(pose.x, d.xAlong, d.xSide) && q.z == AxisStep(pose.z, d.zAlong, d.zSide)
    ensures q.joggingAngle != pose.joggingAngle || q.y != pose.y ==> Moving(rates) && InInnerBand(pose.x)
    ensures Moving(rates) && InInnerBand(pose.x) ==>
      q.joggingAngle == pose.joggingAngle + elapsed * 0.6 && q.y == sinDeg(q.joggingAngle) / 20.0 + 0.4
  {
    var d := Displacement(pose.yaw, rates, elapsed, sinDeg, cosDeg);
    var moved :=
      if !Moving(rates) then pose
      else if InInnerBand(pose.x) then
        var jog := pose.joggingAngle + elapsed * 0.6;
        pose.(x := AxisStep(pose.x, d.xAlong, d.xSide), z := AxisStep(pose.z, d.zAlong, d.zSide),
              joggingAngle := jog, y := sinDeg(jog) / 20.0 + 0.4)
      else
        pose.(x := AxisStep(pose.x, d.xAlong, d.xSide), z := AxisStep(pose.z, d.zAlong, d.zSide));
    moved.(yaw := pose.yaw + rates.yawRate * elapsed, pitch := pose.pitch + rates.pitchRate * elapsed)
  }

  /**
   * One call of the frame update at clock reading `timeNow`: the first call
   * (no previous timestamp, `lastTime == 0`) only records the time. The
   * result is the new pose and the new `lastTime`.
   */
  function Animate(pose: Pose, lastTime: int, timeNow: int, rates: Rates,
                   sinDeg: real -> real, cosDeg: real -> real): (r: (Pose, int))
    ensures r.1 == timeNow
    ensures lastTime == 0 ==> r.0 == pose
    ensures lastTime != 0 ==> r.0 == Tick(pose, rates, (timeNow - lastTime) as real, sinDeg, cosDeg)
    ensures lastTime != 0 ==>
      r.0.yaw == pose.yaw + rates.yawRate * (timeNow - lastTime) as real
      && r.0.pitch == pose.pitch + rates.pitchRate * (timeNow - lastTime) as real
    ensures lastTime != 0 && !Moving(rates) ==>
      r.0.x == pose.x && r.0.y == pose.y && r.0.z == pose.z && r.0.joggingAngle == pose.joggingAngle
  {
    if lastTime != 0 then (Tick(pose, rates, (timeNow - lastTime) as real, sinDeg, cosDeg), timeNow)
    else (pose, timeNow)
  }

  /** Consecutive frame updates at the clock readings `times`, with the rates unchanged. */
  function Run(pose: Pose, lastTime: int, times: seq<int>, rates: Rates,
               sinDeg: real -> real, cosDeg: real -> real): (Pose, int)
    decreases |times|
  {
    if times == [] then (pose, lastTime)
    else
      var (next, stamp) := Animate(pose, lastTime, times[0], rates, sinDeg, cosDeg);
      Run(next, stamp, times[1..], rates, sinDeg, cosDeg)
  }

  /** Without forward or strafe speed, no run of frames moves the camera or its bob. */
  lemma {:induction false} RunStill(pose: Pose, lastTime: int, times: seq<int>, rates: Rates,
                                    sinDeg: real -> real, cosDeg: real -> real)
    requires !Moving(rates)
    ensures var q := Run(pose, lastTime, times, rates, sinDeg, cosDeg).0;
      q.x == pose.x && q.y == pose.y && q.z == pose.z && q.joggingAngle == pose.joggingAngle
    decreases |times|
  {
    if times != [] {
      var (next, stamp) := Animate(pose, lastTime, times[0], rates, sinDeg, cosDeg);
      RunStill(next, stamp, times[1..], rates, sinDeg, cosDeg);
    }
  }

  /** With no movement, turning or pitching key held, a frame leaves the pose as it is. */
  lemma IdleFrame(pose: Pose, keys: KeyMap, elapsed: real, sinDeg: real -> real, cosDeg: real -> real)
    requires forall c :: c in PairKeys ==> !Held(keys, c)
    ensures Tick(pose, KeyRates(keys), elapsed, sinDeg, cosDeg) == pose
  {
    NoKeysNoRates(keys);
  }

  /**
   * Walking forward at yaw 0 for 16 ms well inside the arena: z decreases by
   * speed * 16 and x does not change.
   */
  lemma ForwardStep(pose: Pose, sinDeg: real -> real, cosDeg: real -> real)
    requires pose.yaw == 0.0 && sinDeg(0.0) == 0.0 && cosDeg(0.0) == 1.0
    requires InInnerBand(pose.x) && InInnerBand(pose.z)
    ensures var q := Tick(pose, Rates(0.0, 0.0, 0.0, 0.004), 16.0, sinDeg, cosDeg);
      q.z == pose.z - 0.064 && q.x == pose.x
  {
  }

  /**
   * Past the outer edge, movement that would carry the camera further out is
   * ignored on both terms: the coordinate sticks.
   */
  lemma StuckPastEdge(p: real, along: real, side: real)
    requires p >= OuterEdge && along <= 0.0 && side <= 0.0
    ensures AxisStep(p, along, side) == p
  {
  }

  /**
   * The policy is not a clamp: between the inner and the outer edge an
   * outward forward term wins over everything else and can carry the camera
   * past the outer edge.
   */
  lemma NearEdgeEscapes(p: real, along: real, side: real)
    requires InnerEdge <= p < OuterEdge && along < p - OuterEdge
    ensures AxisStep(p, along, side) == p - along > OuterEdge
  {
  }
}
