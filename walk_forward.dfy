/**
 * The walk optimization agent (`OptimizationBehaviorWalkForward`).
 *
 * Eleven runs (0..10). Each run beams the agent to a start pose chosen by the
 * run number, checks the beam (one free retry), then lets the agent walk
 * toward targets for 15 s after a 1 s wait. Phases (run % 5) 0, 3 and 4
 * zigzag or shuttle between waypoints and add the distance walked at each
 * waypoint reached; phases 1 and 2 follow a parabola and add distance while
 * the agent is inside an x-gate; run 10 chases random targets. After run 10 the
 * total divided by 11 is written once.
 *
 * The world model's time, ground truth, fallen predicate and `rand()` are
 * parameters of the tick, and the distance walked since the current `start`
 * is supplied with the fact that it is that Euclidean distance.
 */
module WalkForward {
  import opened Geometry
  import opened Simulator

  const InitWait: real := 1.0
  const DistToWalk: real := 3.5
  const CostOfFall: real := 5.0
  const BeamPenalty: real := 100.0
  /** The output is written when `run` reaches Runs. */
  const Runs: int := 11
  /** The run that chases random targets. */
  const RandomRun: int := 10
  /** Seconds after the wait at which a run ends, and at which the agent stops walking. */
  const RunLength: real := 15.0
  const StandAfter: real := 12.5
  /** A waypoint counts as reached within 0.2 m. */
  const ReachRadius: real := 0.2

  /** Where and facing which way a run starts. */
  datatype Pose = Pose(x: real, y: real, angle: real)

  function Phase(run: int): int
  {
    run % 5
  }

  /** `beam`: the start pose of a run, on a field whose half-lengths are given. */
  function BeamPose(run: int, halfFieldX: real, halfFieldY: real): (p: Pose)
    ensures p.angle == 0.0
  {
    if run != RandomRun then
      if Phase(run) == 0 then Pose(-halfFieldX + 7.0, -halfFieldY + 3.0, 0.0)
      else if Phase(run) == 1 then Pose(-6.0, 0.0, 0.0)
      else if Phase(run) == 2 then Pose(-1.0, 0.0, 0.0)
      else if Phase(run) == 3 then Pose(-halfFieldX + 7.0, -halfFieldY + 3.0, 0.0)
      else Pose(-halfFieldX + 3.0, 0.0, 0.0)
    else
      Pose(-10.0, 0.0, 0.0)
  }

  /** The start poses repeat every five runs (run 10 excepted), and phases 0 and 3 share one. */
  lemma StartPosesCycle(run: int, halfFieldX: real, halfFieldY: real)
    requires run != RandomRun && run + 5 != RandomRun
    ensures BeamPose(run + 5, halfFieldX, halfFieldY) == BeamPose(run, halfFieldX, halfFieldY)
    ensures Phase(run) == 3 ==> BeamPose(run, halfFieldX, halfFieldY) == BeamPose(0, halfFieldX, halfFieldY)
  {
  }

  /** `checkBeam`'s test: within 0.05 m of the start pose in the plane and within 5 degrees of its heading. */
  predicate BeamOk(run: int, me: Vec, angle: real, halfFieldX: real, halfFieldY: real)
  {
    var p := BeamPose(run, halfFieldX, halfFieldY);
    DistSq(Flat(me), Vec(p.x, p.y, 0.0)) <= 0.05 * 0.05 && Abs(angle - p.angle) <= 5.0
  }

  /** BeamOk is exactly the negation of the source's failure test on the Euclidean distance. */
  lemma BeamOkIffWithinTolerance(run: int, me: Vec, angle: real, halfFieldX: real, halfFieldY: real, distance: real)
    requires var p := BeamPose(run, halfFieldX, halfFieldY); IsDistance(distance, Flat(me), Vec(p.x, p.y, 0.0))
    ensures var p := BeamPose(run, halfFieldX, halfFieldY);
            BeamOk(run, me, angle, halfFieldX, halfFieldY) <==> !(distance > 0.05 || Abs(angle - p.angle) > 5.0)
  {
    var p := BeamPose(run, halfFieldX, halfFieldY);
    ThresholdBySquares(distance, Flat(me), Vec(p.x, p.y, 0.0), 0.05);
  }

  /** The forward parabola of phase 1 and its mirror image of phase 2. */
  function Parabola(x: real): real
  {
    0.2 * x * x - 2.0
  }

  function MirroredParabola(x: real): real
  {
    -(0.2 * (x + 6.0) * (x + 6.0) - 2.0)
  }

  /**
   * `getTarget` for every run but run 10: the next waypoint, from the run's
   * phase, the leg's start, the agent's position, the zigzag direction and
   * whether the agent is on the curve.
   */
  function PlannedTarget(run: int, start: Vec, me: Vec, direction: int, curve: bool): (t: Vec)
    requires run != RandomRun
    ensures t.z == 0.0
    ensures Phase(run) == 0 || Phase(run) == 3 ==> t.y == start.y + DistToWalk
    ensures Phase(run) == 0 && (direction == 1 || direction == -1) ==> Abs(t.x - start.x) == 0.8 * DistToWalk
    ensures Phase(run) == 3 && (direction == 1 || direction == -1) ==> Abs(t.x - start.x) == 1.5 * DistToWalk
    ensures Phase(run) == 0 ==> t.x - start.x == direction as real * 0.8 * DistToWalk
    ensures Phase(run) == 3 ==> t.x - start.x == direction as real * 1.5 * DistToWalk
    ensures Phase(run) == 4 ==> t.y == start.y && t.x == start.x + (if direction == -1 then DistToWalk else -DistToWalk)
    ensures Phase(run) == 1 && curve ==> t.x == me.x + 1.5 && t.y == Parabola(t.x)
    ensures Phase(run) == 2 && curve ==> t.x == me.x - 1.5 && t.y == MirroredParabola(t.x)
    ensures Phase(run) == 1 && !curve ==> t == Vec(12.0, start.y, 0.0)
    ensures Phase(run) == 2 && !curve ==> t == Vec(-15.0, 0.0, 0.0)
  {
    if Phase(run) == 0 then
      Vec(start.x + direction as real * 0.8 * DistToWalk, start.y + DistToWalk, 0.0)
    else if Phase(run) == 1 then
      if curve then Vec(me.x + 1.5, 0.2 * (me.x + 1.5) * (me.x + 1.5) - 2.0, 0.0)
      else Vec(12.0, start.y, 0.0)
    else if Phase(run) == 2 then
      if curve then Vec(me.x - 1.5, -(0.2 * (me.x - 1.5 + 6.0) * (me.x - 1.5 + 6.0) - 2.0), 0.0)
      else Vec(-15.0, 0.0, 0.0)
    else if Phase(run) == 3 then
      Vec(start.x + direction as real * DistToWalk * 1.5, start.y + DistToWalk, 0.0)
    else if direction == -1 then
      Vec(start.x + DistToWalk, start.y, 0.0)
    else
      Vec(start.x - DistToWalk, start.y, 0.0)
  }

  /** A coordinate difference is at most the distance it is part of. */
  lemma CoordinateWithin(a: Vec, b: Vec, r: real)
    requires r >= 0.0 && DistSq(a, b) <= r * r
    ensures Abs(a.x - b.x) <= r && Abs(a.y - b.y) <= r
  {
    var dx, dy := Abs(a.x - b.x), Abs(a.y - b.y);
    assert dx * dx == (a.x - b.x) * (a.x - b.x);
    assert dy * dy == (a.y - b.y) * (a.y - b.y);
    assert (a.z - b.z) * (a.z - b.z) >= 0.0;
    if dx > r {
      SquareGrows(r, dx);
    }
    if dy > r {
      SquareGrows(r, dy);
    }
  }

  /**
   * On the zigzag and shuttle phases (0, 3, 4), once a waypoint is reached the
   * leg restarts from the agent's position with the direction flipped, and the
   * next waypoint lies back within ReachRadius of the previous leg's start in x;
   * on phases 0 and 3 it is at least two legs (less the radius) further up the field.
   */
  lemma LegReturns(run: int, start: Vec, me: Vec, next: Vec, direction: int, curve: bool)
    requires run != RandomRun && (Phase(run) == 0 || Phase(run) == 3 || Phase(run) == 4)
    requires direction == 1 || direction == -1
    requires DistSq(Flat(me), PlannedTarget(run, start, me, direction, curve)) <= ReachRadius * ReachRadius
    ensures Abs(PlannedTarget(run, Flat(me), next, -direction, curve).x - start.x) <= ReachRadius
    ensures Phase(run) != 4 ==>
              PlannedTarget(run, Flat(me), next, -direction, curve).y >= start.y + 2.0 * DistToWalk - ReachRadius
  {
    var t := PlannedTarget(run, start, me, direction, curve);
    CoordinateWithin(Flat(me), t, ReachRadius);
    var t2 := PlannedTarget(run, Flat(me), next, -direction, curve);
    assert t2.x - start.x == me.x - t.x;
  }

  /** `(int) (1.5 * F)`, the range of the random offsets of run 10 (the field size is positive). */
  function RandomSpan(fieldLength: real): int
  {
    (1.5 * fieldLength).Floor
  }

  /**
   * `getTarget`'s random point for run 10 from two values of `rand()`: it lies
   * in the box from -F up to, but excluding, F/2 on each axis.
   */
  function RandomTarget(randX: nat, randY: nat, fieldX: real, fieldY: real): (t: Vec)
    requires RandomSpan(fieldX) > 0 && RandomSpan(fieldY) > 0
    ensures -fieldX <= t.x < fieldX / 2.0
    ensures -fieldY <= t.y < fieldY / 2.0
    ensures t.z == 0.0
  {
    Vec((randX % RandomSpan(fieldX)) as real - fieldX, (randY % RandomSpan(fieldY)) as real - fieldY, 0.0)
  }

  /** The leg's start as `init` sets it: the beam pose, its heading in the z slot. */
  function StartOf(p: Pose): Vec
  {
    Vec(p.x, p.y, p.angle)
  }

  class WalkHarness {
    /** HALF_FIELD_X, HALF_FIELD_Y, FIELD_X, FIELD_Y. */
    const halfFieldX: real
    const halfFieldY: real
    const fieldX: real
    const fieldY: real

    var run: int
    var startTime: real
    var beamChecked: bool
    var hasFallen: bool
    var falls: int
    /** Zigzag direction, -1 or 1. */
    var direction: int
    var curve: bool
    var flip: bool
    var standing: bool
    var totalWalkDist: real
    var targetStartTime: real
    /** Where the current leg started. */
    var start: Vec
    var oldTarget: Vec
    /** Base-behaviour flags that make the agent beam again. */
    var initialized: bool
    var initBeamed: bool
    var failedLastBeamCheck: bool
    var written: bool
    var commands: seq<Command>
    ghost var outputs: seq<real>

    /**
     * At most Runs runs are counted; the output is written at most once, only
     * after the last run, and holds the total divided by Runs.
     */
    ghost predicate Valid()
      reads this
    {
      0 <= run <= Runs &&
      (direction == 1 || direction == -1) &&
      falls >= 0 &&
      (written ==> run == Runs) &&
      outputs == (if written then [totalWalkDist / Runs as real] else [])
    }

    /** The field is large enough for run 10's random targets (`rand() % 0` is undefined). */
    predicate FieldSized()
    {
      RandomSpan(fieldX) > 0 && RandomSpan(fieldY) > 0
    }

    /** The state `init` leaves at time `now`. */
    predicate RunStarted(now: real)
      reads this
    {
      startTime == now && !initialized && !initBeamed && !curve && !hasFallen && falls == 0 &&
      flip && direction == -1 && !beamChecked && !standing && targetStartTime == now + InitWait &&
      start == StartOf(BeamPose(run, halfFieldX, halfFieldY))
    }

    constructor (now: real, halfFieldX: real, halfFieldY: real, fieldX: real, fieldY: real)
      requires RandomSpan(fieldX) > 0 && RandomSpan(fieldY) > 0
      ensures Valid() && FieldSized() && RunStarted(now)
      ensures this.halfFieldX == halfFieldX && this.halfFieldY == halfFieldY
      ensures this.fieldX == fieldX && this.fieldY == fieldY
      ensures run == 0 && totalWalkDist == 0.0 && !failedLastBeamCheck && !written
      ensures commands == [SetMonMessage(BeforeKickOff)]
    {
      this.halfFieldX, this.halfFieldY := halfFieldX, halfFieldY;
      this.fieldX, this.fieldY := fieldX, fieldY;
      run := 0;
      totalWalkDist := 0.0;
      direction := -1;
      oldTarget := Origin;
      failedLastBeamCheck := false;
      written := false;
      outputs := [];
      commands := [];
      new;
      Init(now);
    }

    /** `init`: start the current run at `now`; run number, total, retry flag and output are untouched. */
    method Init(now: real)
      modifies this`startTime, this`initialized, this`initBeamed, this`curve, this`hasFallen, this`falls,
               this`flip, this`direction, this`beamChecked, this`standing, this`targetStartTime, this`start,
               this`commands
      ensures RunStarted(now)
      ensures commands == old(commands) + [SetMonMessage(BeforeKickOff)]
    {
      start := StartOf(BeamPose(run, halfFieldX, halfFieldY));
      startTime := now;
      initialized := false;
      initBeamed := false;
      curve := false;
      hasFallen := false;
      falls := 0;
      flip := true;
      direction := -1;
      beamChecked := false;
      standing := false;
      targetStartTime := startTime + InitWait;
      commands := commands + [SetMonMessage(BeforeKickOff)];
    }

    /** `checkBeam`: test the beam; only a passing test marks the beam checked. */
    method CheckBeam(me: Vec, angle: real) returns (ok: bool)
      modifies this`beamChecked
      ensures ok == BeamOk(run, me, angle, halfFieldX, halfFieldY)
      ensures beamChecked == (old(beamChecked) || ok)
    {
      var p := BeamPose(run, halfFieldX, halfFieldY);
      var meTruth := Flat(me);
      if DistSq(meTruth, Vec(p.x, p.y, 0.0)) > 0.05 * 0.05 || Abs(angle - p.angle) > 5.0 {
        return false;
      }
      beamChecked := true;
      return true;
    }

    /**
     * `getTarget`: the planned waypoint, or on run 10 the remembered random
     * target, replaced by a fresh one (from `randX`, `randY`) when `flip` is set.
     */
    method GetTarget(me: Vec, randX: nat, randY: nat) returns (target: Vec)
      requires Valid() && FieldSized()
      modifies this`flip, this`oldTarget
      ensures run != RandomRun ==>
                target == PlannedTarget(run, start, me, direction, curve) &&
                flip == old(flip) && oldTarget == old(oldTarget)
      ensures run == RandomRun ==>
                !flip && oldTarget == target &&
                target == if old(flip) then RandomTarget(randX, randY, fieldX, fieldY) else old(oldTarget)
    {
      if run != RandomRun {
        target := PlannedTarget(run, start, me, direction, curve);
      } else if !flip {
        target := oldTarget;
      } else {
        target := RandomTarget(randX, randY, fieldX, fieldY);
        oldTarget := target;
        flip := false;
      }
    }

    /** `selectSkill`: stand while waiting or once told to stand, otherwise walk to the target. */
    method SelectSkill(now: real, me: Vec, randX: nat, randY: nat) returns (skill: Skill)
      requires Valid() && FieldSized()
      modifies this`flip, this`oldTarget
      ensures Valid()
      ensures now - startTime < InitWait || startTime < 0.0 || standing ==>
                skill == SkillStand && unchanged(this)
      ensures !(now - startTime < InitWait || startTime < 0.0 || standing) ==>
                skill.WalkTo? &&
                (run != RandomRun ==> skill.target == PlannedTarget(run, start, me, direction, curve) && unchanged(this)) &&
                (run == RandomRun ==>
                   skill.target == (if old(flip) then RandomTarget(randX, randY, fieldX, fieldY) else old(oldTarget)) &&
                   !flip && oldTarget == skill.target)
    {
      if now - startTime < InitWait || startTime < 0.0 || standing {
        return SkillStand;
      }
      var target := GetTarget(me, randX, randY);
      return WalkTo(target);
    }

    /** The distance supplied with a tick is the one from the agent to the leg's start. */
    predicate WalkedInput(walked: real, me: Vec)
      reads this
    {
      run != RandomRun && run != Runs ==>
        IsDistance(walked, Flat(me), if Phase(run) == 1 || Phase(run) == 2 then start else Flat(start))
    }

    /**
     * `updateFitness` for one tick: the simulation time, the agent's ground-truth
     * position and heading, whether it has fallen, the distance `walked` from the
     * leg's start, and two values of `rand()`.
     */
    method UpdateFitness(now: real, me: Vec, angle: real, isFallen: bool, walked: real)
      requires Valid() && WalkedInput(walked, me)
      modifies this
      ensures Valid()
      ensures old(run) == Runs ==>
                written &&
                unchanged(this`run, this`startTime, this`beamChecked, this`hasFallen, this`falls, this`direction,
                          this`curve, this`flip, this`standing, this`totalWalkDist, this`targetStartTime,
                          this`start, this`oldTarget, this`initialized, this`initBeamed,
                          this`failedLastBeamCheck, this`commands)
      ensures old(run) < Runs ==> written == old(written) && outputs == old(outputs)
      ensures run == old(run) || run == old(run) + 1
      ensures old(run) < Runs && old(startTime) < 0.0 ==>
                RunStarted(now) && run == old(run) && totalWalkDist == old(totalWalkDist) &&
                failedLastBeamCheck == old(failedLastBeamCheck) && oldTarget == old(oldTarget) &&
                commands == old(commands) + [SetMonMessage(BeforeKickOff)]
      ensures old(run) < Runs && old(startTime) >= 0.0 && now - old(startTime) < InitWait ==>
                unchanged(this)
      // failed beam check: a free retry the first time, then a penalty on every further failure in a row
      ensures old(run) < Runs && old(startTime) >= 0.0 && now - old(startTime) >= InitWait &&
              !old(beamChecked) && !BeamOk(old(run), me, angle, halfFieldX, halfFieldY) ==>
                RunStarted(now) && failedLastBeamCheck &&
                run == old(run) + (if old(failedLastBeamCheck) then 1 else 0) &&
                totalWalkDist == old(totalWalkDist) - (if old(failedLastBeamCheck) then BeamPenalty else 0.0) &&
                oldTarget == old(oldTarget) && commands == old(commands) + [SetMonMessage(BeforeKickOff)]
      // the run is under way: it ends, and the next one starts, RunLength after the wait
      ensures old(run) < Runs && old(startTime) >= 0.0 && now - old(startTime) >= InitWait &&
              (old(beamChecked) || BeamOk(old(run), me, angle, halfFieldX, halfFieldY)) ==>
                failedLastBeamCheck == (old(beamChecked) && old(failedLastBeamCheck)) &&
                (run == old(run) ==> beamChecked) &&
                Advanced(now, me, isFallen, walked,
                         if old(beamChecked) then old(commands) else old(commands) + [SetMonMessage(PlayOnClearBall)])
    {
      if run == Runs {
        if !written {
          outputs := outputs + [totalWalkDist / run as real];
          written := true;
        }
        return;
      }
      if startTime < 0.0 {
        Init(now);
        return;
      }
      if now - startTime < InitWait {
        return;
      }
      AfterWait(now, me, angle, isFallen, walked);
    }

    /** A tick after the wait: check the beam until it passes, then advance the run. */
    method AfterWait(now: real, me: Vec, angle: real, isFallen: bool, walked: real)
      requires Valid() && WalkedInput(walked, me) && run < Runs && startTime >= 0.0 && now - startTime >= InitWait
      modifies this
      ensures Valid()
      ensures written == old(written) && outputs == old(outputs)
      ensures run == old(run) || run == old(run) + 1
      // failed beam check: a free retry the first time, then a penalty on every further failure in a row
      ensures !old(beamChecked) && !BeamOk(old(run), me, angle, halfFieldX, halfFieldY) ==>
                RunStarted(now) && failedLastBeamCheck &&
                run == old(run) + (if old(failedLastBeamCheck) then 1 else 0) &&
                totalWalkDist == old(totalWalkDist) - (if old(failedLastBeamCheck) then BeamPenalty else 0.0) &&
                oldTarget == old(oldTarget) && commands == old(commands) + [SetMonMessage(BeforeKickOff)]
      // the run is under way: it ends, and the next one starts, RunLength after the wait
      ensures (old(beamChecked) || BeamOk(old(run), me, angle, halfFieldX, halfFieldY)) ==>
                failedLastBeamCheck == (old(beamChecked) && old(failedLastBeamCheck)) &&
                (run == old(run) ==> beamChecked) &&
                Advanced(now, me, isFallen, walked,
                         if old(beamChecked) then old(commands) else old(commands) + [SetMonMessage(PlayOnClearBall)])
    {
      if !beamChecked {
        var passed := VerifyBeam(now, me, angle);
        if !passed {
          return;
        }
      }
      Advance(now, me, isFallen, walked);
    }

    /**
     * The beam check of `updateFitness`, made after the wait until it passes.
     * The flag `failedLastBeamCheck` is set on every failure and cleared only by
     * a pass, so after one free retry every further failure in a row ends the
     * run with a penalty.
     */
    method VerifyBeam(now: real, me: Vec, angle: real) returns (passed: bool)
      requires Valid() && run < Runs && !beamChecked
      modifies this
      ensures Valid()
      ensures passed == BeamOk(old(run), me, angle, halfFieldX, halfFieldY)
      ensures written == old(written) && outputs == old(outputs)
      ensures !passed ==>
                RunStarted(now) && failedLastBeamCheck &&
                run == old(run) + (if old(failedLastBeamCheck) then 1 else 0) &&
                totalWalkDist == old(totalWalkDist) - (if old(failedLastBeamCheck) then BeamPenalty else 0.0) &&
                oldTarget == old(oldTarget) && commands == old(commands) + [SetMonMessage(BeforeKickOff)]
      ensures passed ==>
                beamChecked && !failedLastBeamCheck &&
                commands == old(commands) + [SetMonMessage(PlayOnClearBall)] &&
                unchanged(this`run, this`startTime, this`hasFallen, this`falls, this`direction, this`curve,
                          this`flip, this`standing, this`totalWalkDist, this`targetStartTime, this`start,
                          this`oldTarget, this`initialized, this`initBeamed)
    {
      var ok := CheckBeam(me, angle);
      if !ok {
        if failedLastBeamCheck {
          totalWalkDist := totalWalkDist - BeamPenalty;
          run := run + 1;
        }
        failedLastBeamCheck := true;
        Init(now);
        return false;
      }
      failedLastBeamCheck := false;
      commands := commands + [SetMonMessage(PlayOnClearBall)];
      return true;
    }

    /** On a zigzag or shuttle phase: the agent is within ReachRadius of the waypoint (and, on phases 0 and 3, still walking). */
    predicate AtWaypoint(me: Vec)
      reads this`run, this`start, this`direction, this`curve, this`standing
    {
      run != RandomRun && (Phase(run) == 0 || Phase(run) == 3 || Phase(run) == 4) &&
      DistSq(Flat(me), PlannedTarget(run, start, me, direction, curve)) <= ReachRadius * ReachRadius &&
      (Phase(run) == 4 || !standing)
    }

    /** On a curved phase: the agent is inside the phase's x-gate. */
    predicate InGate(me: Vec)
      reads this`run
    {
      run != RandomRun &&
      ((Phase(run) == 1 && -3.464 <= me.x < 3.4) || (Phase(run) == 2 && -8.9 < me.x <= -2.838))
    }

    /** On a curved phase: the agent, on the curve, is past the gate's far side. */
    predicate LeavesGate(me: Vec)
      reads this`run, this`curve
    {
      run != RandomRun && curve && ((Phase(run) == 1 && me.x >= 3.4) || (Phase(run) == 2 && me.x <= -8.9))
    }

    /** The distance this tick's step adds to the total. */
    function Gain(me: Vec, walked: real): real
      reads this`run, this`start, this`direction, this`curve, this`standing
    {
      if AtWaypoint(me) || InGate(me) || LeavesGate(me) then walked else 0.0
    }

    /**
     * Whether a fall is on record after this tick's step, entering it with
     * `fallen`: a reached waypoint clears it, and so does standing time on
     * phases 0 and 3.
     */
    predicate FallAfter(now: real, me: Vec, fallen: bool)
      reads this`run, this`start, this`direction, this`curve, this`standing, this`startTime
    {
      fallen && !AtWaypoint(me) &&
      !(run != RandomRun && (Phase(run) == 0 || Phase(run) == 3) && now - startTime >= InitWait + StandAfter)
    }

    /**
     * What one tick's step does to the run's course, entering it with fall flag
     * `fallen`: each phase's accumulation, zigzag flip, leg restart, gate
     * tracking and standing rule, and on run 10 the parity of `flip`.
     */
    twostate predicate Stepped(now: real, me: Vec, walked: real, fallen: bool)
      reads this
    {
      var reached := old(AtWaypoint(me));
      var crossed := old(InGate(me)) || old(LeavesGate(me));
      var planned := old(run) != RandomRun;
      var curved := planned && (Phase(old(run)) == 1 || Phase(old(run)) == 2);
      var late := now - old(startTime) >= InitWait + StandAfter;
      && totalWalkDist == old(totalWalkDist) + old(Gain(me, walked))
      && hasFallen == old(FallAfter(now, me, fallen))
      && direction == (if reached then -old(direction) else old(direction))
      && targetStartTime == (if reached then now else old(targetStartTime))
      && start == (if reached then Flat(me)
                   else if crossed then me
                   else if planned && !curved then Flat(old(start))
                   else old(start))
      && curve == (if curved then old(InGate(me)) || (old(curve) && !old(LeavesGate(me))) else old(curve))
      && standing == (old(standing) || (planned && Phase(old(run)) != 4 && late) ||
                      (curved && DistSq(Flat(me), PlannedTarget(old(run), start, me, old(direction), curve))
                                   < ReachRadius * ReachRadius))
      && flip == (if planned then old(flip) else (now - old(startTime)).Floor % 2 == 0)
    }

    /**
     * What a tick of a run under way does: the step's distance is added, and
     * once RunLength has passed after the wait CostOfFall is charged if a fall
     * is still on record after the step, the run is counted and the next one
     * starts; until then the step is all that changes (with the fall counted).
     * `log` is the command log before the tick's own commands.
     */
    twostate predicate Advanced(now: real, me: Vec, isFallen: bool, walked: real, log: seq<Command>)
      reads this
    {
      var ends := now - old(startTime) >= InitWait + RunLength;
      var fallen := old(hasFallen) || isFallen;
      && run == old(run) + (if ends then 1 else 0)
      && totalWalkDist == old(totalWalkDist) + old(Gain(me, walked))
                          - (if ends && old(FallAfter(now, me, fallen)) then CostOfFall else 0.0)
      && oldTarget == old(oldTarget)
      && (ends ==> RunStarted(now) && commands == log + [SetMonMessage(BeforeKickOff)])
      && (!ends ==>
            && Stepped(now, me, walked, fallen)
            && falls == old(falls) + (if isFallen then 1 else 0)
            && unchanged(this`startTime, this`initialized, this`initBeamed)
            && commands == log)
    }

    /** A tick of a run under way: its step, then the end-of-run check. */
    method Advance(now: real, me: Vec, isFallen: bool, walked: real)
      requires Valid() && run < Runs && now - startTime >= InitWait && WalkedInput(walked, me)
      modifies this
      ensures Valid()
      ensures failedLastBeamCheck == old(failedLastBeamCheck) && written == old(written) && outputs == old(outputs)
      ensures run == old(run) ==> beamChecked == old(beamChecked)
      ensures Advanced(now, me, isFallen, walked, old(commands))
    {
      Progress(now, me, isFallen, walked);
      EndRunIfDue(now, now - startTime);
    }

    /**
     * The tick once the beam is checked: latch and count a fall, then take the
     * current phase's step.
     */
    method Progress(now: real, me: Vec, isFallen: bool, walked: real)
      requires Valid() && run < Runs && now - startTime >= InitWait && WalkedInput(walked, me)
      modifies this`hasFallen, this`falls, this`totalWalkDist, this`direction, this`targetStartTime,
               this`start, this`standing, this`curve, this`flip
      ensures Valid()
      ensures falls == old(falls) + (if isFallen then 1 else 0)
      ensures Stepped(now, me, walked, old(hasFallen) || isFallen)
    {
      if isFallen {
        hasFallen := true;
        falls := falls + 1;
      }
      if run != RandomRun {
        if Phase(run) == 0 || Phase(run) == 3 {
          StraightStep(now, me, walked);
        } else if Phase(run) == 1 || Phase(run) == 2 {
          CurveStep(now, me, walked);
        } else {
          ShuttleStep(now, me, walked);
        }
      } else {
        RandomStep(now);
      }
    }

    /**
     * The close of every phase's branch: once RunLength has passed after the
     * wait, charge CostOfFall if the agent fell, count the run and start the next.
     */
    method EndRunIfDue(now: real, elapsed: real)
      requires Valid() && run < Runs
      modifies this`run, this`totalWalkDist, this`startTime, this`initialized, this`initBeamed, this`curve,
               this`hasFallen, this`falls, this`flip, this`direction, this`beamChecked, this`standing,
               this`targetStartTime, this`start, this`commands
      ensures Valid()
      ensures elapsed >= InitWait + RunLength ==>
                run == old(run) + 1 && RunStarted(now) &&
                totalWalkDist == old(totalWalkDist) - (if old(hasFallen) then CostOfFall else 0.0) &&
                commands == old(commands) + [SetMonMessage(BeforeKickOff)]
      ensures elapsed < InitWait + RunLength ==> unchanged(this)
    {
      if elapsed >= InitWait + RunLength {
        totalWalkDist := totalWalkDist - (if hasFallen then CostOfFall else 0.0);
        run := run + 1;
        Init(now);
      }
    }

    /**
     * Phases 0 and 3: reaching the waypoint (while still walking) adds the leg's
     * length, clears the fall flag, flips the zigzag and starts a new leg from
     * here. From StandAfter on the agent stands and the fall flag is cleared, so
     * by the time the run ends (RunLength > StandAfter) no fall is left to charge.
     */
    method StraightStep(now: real, me: Vec, walked: real)
      requires Valid() && run < RandomRun && (Phase(run) == 0 || Phase(run) == 3)
      requires IsDistance(walked, Flat(me), Flat(start))
      modifies this`totalWalkDist, this`hasFallen, this`direction, this`targetStartTime, this`start, this`standing
      ensures Valid()
      ensures Stepped(now, me, walked, old(hasFallen))
    {
      var meFlat := Flat(me);
      var target := PlannedTarget(run, start, me, direction, curve);
      var reached := DistSq(meFlat, target) <= ReachRadius * ReachRadius && !standing;
      start := Flat(start);
      if reached {
        totalWalkDist := totalWalkDist + walked;
        hasFallen := false;
        direction := -direction;
        targetStartTime := now;
        start := meFlat;
      }
      if now - startTime >= InitWait + StandAfter {
        hasFallen := false;
        standing := true;
      }
    }

    /**
     * Phases 1 and 2: inside the x-gate the distance from the last gate point is
     * added and the agent follows the curve; leaving the gate on the far side
     * adds the last stretch and leaves the curve. The agent stands from
     * StandAfter on or once it is near the (new) target.
     */
    method CurveStep(now: real, me: Vec, walked: real)
      requires Valid() && run < RandomRun && (Phase(run) == 1 || Phase(run) == 2)
      requires IsDistance(walked, Flat(me), start)
      modifies this`totalWalkDist, this`start, this`curve, this`standing
      ensures Valid()
      ensures Stepped(now, me, walked, old(hasFallen))
    {
      var meFlat := Flat(me);
      var inGate := if Phase(run) == 1 then -3.464 <= meFlat.x < 3.4 else -8.9 < meFlat.x <= -2.838;
      var beyond := if Phase(run) == 1 then meFlat.x >= 3.4 else meFlat.x <= -8.9;
      if inGate {
        totalWalkDist := totalWalkDist + walked;
        start := me;
        curve := true;
      } else if beyond && curve {
        totalWalkDist := totalWalkDist + walked;
        start := me;
        curve := false;
      }
      if now - startTime >= InitWait + StandAfter ||
         DistSq(meFlat, PlannedTarget(run, start, me, direction, curve)) < ReachRadius * ReachRadius {
        standing := true;
      }
    }

    /**
     * Phase 4: shuttle sideways between two waypoints, adding each leg's length;
     * reaching a waypoint clears the fall flag, so only a fall since the last
     * waypoint is charged when the run ends.
     */
    method ShuttleStep(now: real, me: Vec, walked: real)
      requires Valid() && run < RandomRun && Phase(run) == 4
      requires IsDistance(walked, Flat(me), Flat(start))
      modifies this`totalWalkDist, this`hasFallen, this`direction, this`targetStartTime, this`start
      ensures Valid()
      ensures Stepped(now, me, walked, old(hasFallen))
    {
      var meFlat := Flat(me);
      var target := PlannedTarget(run, start, me, direction, curve);
      var reached := DistSq(meFlat, target) <= ReachRadius * ReachRadius;
      start := Flat(start);
      if reached {
        totalWalkDist := totalWalkDist + walked;
        hasFallen := false;
        direction := -direction;
        targetStartTime := now;
        start := meFlat;
      }
    }

    /**
     * Run 10: `flip` follows the parity of the whole seconds elapsed, so a fresh
     * random target is drawn on even seconds.
     */
    method RandomStep(now: real)
      requires Valid() && run == RandomRun && now - startTime >= InitWait
      modifies this`flip
      ensures Valid()
      ensures flip <==> (now - startTime).Floor % 2 == 0
    {
      // the elapsed time is at least InitWait, so truncation and floor agree
      if (now - startTime).Floor % 2 == 0 {
        flip := true;
      } else {
        flip := false;
      }
    }
  }
}
