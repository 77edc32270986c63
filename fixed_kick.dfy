/**
 * The fixed-kick optimization agent (`OptimizationBehaviorFixedKick`).
 *
 * Each trial: the agent and ball are beamed, the harness waits InitWaitTime,
 * checks the beam (one free retry), kicks once, watches for a backward ball, a
 * fall and a premature play-on, and scores the trial once the ball is at rest
 * more than 15 s after the wait. Ten trials are run; their mean is written once.
 *
 * Everything the world model reports (time, ground truth, fallen, play mode)
 * is a parameter of the tick. The function-local statics `totalFitness`,
 * `failedLastBeamCheck` and `written` are fields, and the ghost field
 * `outputs` records every value written to the output file.
 */
module FixedKick {
  import opened Geometry
  import opened Simulator
  import opened Stillness

  const InitWaitTime: real := 3.0
  const Trials: int := 10
  /** Seconds after the wait before a trial may be scored. */
  const TrialLength: real := 15.0
  /** A ball this far behind the kick spot (x, metres) marks a backward kick. */
  const BackwardsX: real := -0.25
  /** Shortest kick (x, metres) that earns its distance. */
  const MinDistance: real := 0.1
  const FailedTrialScore: real := -100.0
  const BeamPenalty: real := 100.0
  const FallScore: real := -1.0

  /**
   * The beam check passes: the agent is within 0.1 of the beam spot in the
   * plane, the ball within 0.1 of the origin, and the heading within 3 degrees.
   */
  predicate BeamOk(me: Vec, ball: Vec, angle: real, beamX: real, beamY: real, beamAngle: real)
  {
    DistSq(Flat(me), Vec(beamX, beamY, 0.0)) <= 0.1 * 0.1 &&
    NormSq(ball) <= 0.1 * 0.1 &&
    Abs(angle - beamAngle) <= 3.0
  }

  /**
   * BeamOk is exactly the negation of the source's failure test on the
   * Euclidean distances `distance` (agent to beam spot) and `ballDistance`
   * (ball's magnitude).
   */
  lemma BeamOkIffWithinTolerance(me: Vec, ball: Vec, angle: real, beamX: real, beamY: real, beamAngle: real,
                                 distance: real, ballDistance: real)
    requires IsDistance(distance, Flat(me), Vec(beamX, beamY, 0.0))
    requires IsDistance(ballDistance, ball, Origin)
    ensures BeamOk(me, ball, angle, beamX, beamY, beamAngle) <==>
            !(distance > 0.1 || ballDistance > 0.1 || Abs(angle - beamAngle) > 3.0)
  {
    ThresholdBySquares(distance, Flat(me), Vec(beamX, beamY, 0.0), 0.1);
    ThresholdBySquares(ballDistance, ball, Origin, 0.1);
  }

  /**
   * The score of a completed trial: the ball's final x, unless the kick went
   * backwards, fell short of MinDistance or the agent ran into the ball first.
   */
  function TrialScore(ballX: real, backwards: bool, ranIntoBall: bool): (score: real)
    ensures score > MinDistance <==> !backwards && !ranIntoBall && ballX > MinDistance
    ensures score > MinDistance ==> score == ballX
    ensures score <= MinDistance ==> score == FailedTrialScore
  {
    if backwards || ballX <= MinDistance || ranIntoBall then FailedTrialScore else ballX
  }

  class KickHarness {
    /** Beam spot and heading, read from the named parameters at construction. */
    const beamX: real
    const beamY: real
    const beamAngle: real
    /** The statics of `isBallMoving`. */
    const motion: BallMotion

    var timeStart: real
    var hasKicked: bool
    var beamChecked: bool
    var backwards: bool
    var ranIntoBall: bool
    var fallen: bool
    /** Base-behaviour flags that make the agent beam again. */
    var initialized: bool
    var initBeamed: bool
    /** Trials counted so far. */
    var kick: int
    var totalFitness: real
    var failedLastBeamCheck: bool
    var written: bool
    var commands: seq<Command>
    ghost var outputs: seq<real>

    /**
     * At most Trials trials are counted; the output is written at most once,
     * only after the last trial, and holds the mean score. The `fallen` flag
     * is latched and cleared within the same tick, so it is never seen set.
     */
    ghost predicate Valid()
      reads this
    {
      0 <= kick <= Trials &&
      (written ==> kick == Trials) &&
      outputs == (if written then [totalFitness / Trials as real] else []) &&
      !fallen
    }

    /** The state `initKick` leaves at time `now`. */
    predicate TrialReset(now: real)
      reads this
    {
      timeStart == now && !hasKicked && !beamChecked && !backwards && !ranIntoBall &&
      !fallen && !initialized && !initBeamed
    }

    constructor (now: real, beamX: real, beamY: real, beamAngle: real)
      ensures Valid() && TrialReset(now) && fresh(motion) && motion.State() == Unprimed
      ensures this.beamX == beamX && this.beamY == beamY && this.beamAngle == beamAngle
      ensures kick == 0 && totalFitness == 0.0 && !failedLastBeamCheck && !written
      ensures commands == RestartCommands
    {
      this.beamX, this.beamY, this.beamAngle := beamX, beamY, beamAngle;
      motion := new BallMotion();
      kick := 0;
      totalFitness := 0.0;
      failedLastBeamCheck := false;
      written := false;
      outputs := [];
      commands := [];
      new;
      InitKick(now);
    }

    /** `initKick`: start a new trial at `now`; the counters are untouched. */
    method InitKick(now: real)
      modifies this
      ensures TrialReset(now)
      ensures kick == old(kick) && totalFitness == old(totalFitness)
      ensures failedLastBeamCheck == old(failedLastBeamCheck)
      ensures written == old(written) && outputs == old(outputs)
      ensures commands == old(commands) + RestartCommands
    {
      hasKicked := false;
      beamChecked := false;
      backwards := false;
      ranIntoBall := false;
      timeStart := now;
      initialized := false;
      initBeamed := false;
      fallen := false;
      commands := commands + RestartCommands;
    }

    /** `selectSkill`: stand, except for one kick per trial once the wait is over. */
    method SelectSkill(time: real) returns (skill: Skill)
      requires Valid()
      modifies this
      ensures Valid()
      ensures skill == SkillKickLeftLeg <==>
                old(timeStart) >= 0.0 && time - old(timeStart) > InitWaitTime && !old(hasKicked)
      ensures skill != SkillKickLeftLeg ==> skill == SkillStand
      ensures old(timeStart) < 0.0 ==>
                TrialReset(time) && commands == old(commands) + RestartCommands
      ensures old(timeStart) >= 0.0 ==>
                hasKicked == (old(hasKicked) || skill == SkillKickLeftLeg) &&
                unchanged(this`timeStart, this`beamChecked, this`backwards, this`ranIntoBall, this`fallen,
                          this`initialized, this`initBeamed, this`commands)
      ensures kick == old(kick) && totalFitness == old(totalFitness)
      ensures failedLastBeamCheck == old(failedLastBeamCheck)
      ensures written == old(written) && outputs == old(outputs)
    {
      if timeStart < 0.0 {
        InitKick(time);
        return SkillStand;
      }
      if time - timeStart <= InitWaitTime {
        return SkillStand;
      }
      if !hasKicked {
        hasKicked := true;
        return SkillKickLeftLeg;
      }
      return SkillStand;
    }

    /** `writeFitnessToOutputFile`: write `fitness` unless something was written already. */
    method WriteFitness(fitness: real)
      modifies this`written, this`outputs
      ensures written
      ensures outputs == if old(written) then old(outputs) else old(outputs) + [fitness]
    {
      if !written {
        outputs := outputs + [fitness];
        written := true;
      }
    }

    /**
     * `updateFitness` for one tick: the simulation time, the agent's ground-truth
     * position and heading (degrees), the ball's ground truth, whether the play
     * mode is PlayOn and whether the agent has fallen.
     */
    method UpdateFitness(time: real, me: Vec, angle: real, ball: Vec, playOn: bool, isFallen: bool)
      requires Valid()
      modifies this, motion
      ensures Valid()
      // after the last trial: the mean is written once and nothing else changes
      ensures old(kick) == Trials ==>
                written && unchanged(motion) &&
                unchanged(this`timeStart, this`hasKicked, this`beamChecked, this`backwards, this`ranIntoBall,
                          this`fallen, this`initialized, this`initBeamed, this`kick, this`totalFitness,
                          this`failedLastBeamCheck, this`commands)
      ensures old(kick) < Trials ==> written == old(written) && outputs == old(outputs)
      ensures kick == old(kick) || kick == old(kick) + 1
      // still settling: nothing changes
      ensures old(kick) < Trials && time - old(timeStart) <= InitWaitTime ==>
                unchanged(this) && unchanged(motion)
      // beam check failed: see CheckBeam; otherwise the trial goes on as WatchTrial says
      ensures old(kick) < Trials && time - old(timeStart) > InitWaitTime && !old(beamChecked) &&
              !BeamOk(me, ball, angle, beamX, beamY, beamAngle) ==>
                TrialReset(time) && unchanged(motion) &&
                failedLastBeamCheck == !old(failedLastBeamCheck) &&
                kick == old(kick) + (if old(failedLastBeamCheck) then 1 else 0) &&
                totalFitness == old(totalFitness) - (if old(failedLastBeamCheck) then BeamPenalty else 0.0) &&
                commands == old(commands) + RestartCommands
      // beam checked now or before: the trial is watched, after KickOff_Left on the tick the check passes
      ensures old(kick) < Trials && time - old(timeStart) > InitWaitTime &&
              (old(beamChecked) || BeamOk(me, ball, angle, beamX, beamY, beamAngle)) ==>
                failedLastBeamCheck == (old(beamChecked) && old(failedLastBeamCheck)) &&
                (kick == old(kick) ==> beamChecked) &&
                TrialWatched(time, ball, playOn, isFallen,
                             if old(beamChecked) then old(commands) else old(commands) + [SetMonMessage(KickOffLeft)])
    {
      if kick == Trials {
        WriteFitness(totalFitness / kick as real);
        return;
      }
      if time - timeStart <= InitWaitTime {
        return;
      }
      if !beamChecked {
        var passed := CheckBeam(time, me, angle, ball);
        if !passed {
          return;
        }
      }
      WatchTrial(time, ball, playOn, isFallen);
    }

    /** The beam check of `updateFitness`, made once per trial after the wait. */
    method CheckBeam(time: real, me: Vec, angle: real, ball: Vec) returns (passed: bool)
      requires Valid() && kick < Trials && !beamChecked
      modifies this
      ensures Valid()
      ensures passed == BeamOk(me, ball, angle, beamX, beamY, beamAngle)
      ensures written == old(written) && outputs == old(outputs)
      ensures !passed ==>
                TrialReset(time) &&
                failedLastBeamCheck == !old(failedLastBeamCheck) &&
                kick == old(kick) + (if old(failedLastBeamCheck) then 1 else 0) &&
                totalFitness == old(totalFitness) - (if old(failedLastBeamCheck) then BeamPenalty else 0.0) &&
                commands == old(commands) + RestartCommands
      ensures passed ==>
                beamChecked && !failedLastBeamCheck &&
                commands == old(commands) + [SetMonMessage(KickOffLeft)] &&
                unchanged(this`timeStart, this`hasKicked, this`backwards, this`ranIntoBall, this`fallen,
                          this`initialized, this`initBeamed, this`kick, this`totalFitness)
    {
      var meTruth := Flat(me);
      beamChecked := true;
      if !BeamOk(meTruth, ball, angle, beamX, beamY, beamAngle) {
        if failedLastBeamCheck {
          kick := kick + 1;
          totalFitness := totalFitness - BeamPenalty;
          failedLastBeamCheck := false;
        } else {
          failedLastBeamCheck := true;
        }
        InitKick(time);
        return false;
      }
      failedLastBeamCheck := false;
      commands := commands + [SetMonMessage(KickOffLeft)];
      return true;
    }

    /**
     * What watching a trial does on a tick past the wait once the beam is
     * checked, with `log` the command log it starts from. Before the kick only
     * play-on is latched (as running into the ball). After it, a fall counts the
     * trial at FallScore; otherwise, more than TrialLength after the wait, the
     * detector is consulted and a ball at rest counts the trial at TrialScore.
     * A counted trial restarts; an uncounted tick only latches a backward ball.
     */
    twostate predicate TrialWatched(time: real, ball: Vec, playOn: bool, isFallen: bool, log: seq<Command>)
      reads this, motion
    {
      var back := old(backwards) || ball.x < BackwardsX;
      var due := time - (old(timeStart) + InitWaitTime) > TrialLength;
      var settled := due && !Observe(old(motion.State()), time, ball).moving;
      && (!old(hasKicked) ==>
            ranIntoBall == (old(ranIntoBall) || playOn) && unchanged(motion) &&
            unchanged(this`timeStart, this`hasKicked, this`backwards, this`fallen,
                      this`initialized, this`initBeamed, this`kick, this`totalFitness) &&
            commands == log)
      && (old(hasKicked) && isFallen ==>
            TrialReset(time) && unchanged(motion) &&
            kick == old(kick) + 1 && totalFitness == old(totalFitness) + FallScore &&
            commands == log + RestartCommands)
      && (old(hasKicked) && !isFallen ==>
            && (due ==> motion.State() == Observe(old(motion.State()), time, ball).next)
            && (!due ==> unchanged(motion))
            && (settled ==>
                  TrialReset(time) && kick == old(kick) + 1 &&
                  totalFitness == old(totalFitness) + TrialScore(ball.x, back, old(ranIntoBall)) &&
                  commands == log + RestartCommands)
            && (!settled ==>
                  backwards == back &&
                  unchanged(this`timeStart, this`hasKicked, this`ranIntoBall, this`fallen,
                            this`initialized, this`initBeamed, this`kick, this`totalFitness) &&
                  commands == log))
    }

    /** The rest of `updateFitness` once the beam has been checked: latch the flags and score. */
    method WatchTrial(time: real, ball: Vec, playOn: bool, isFallen: bool)
      requires Valid() && kick < Trials
      modifies this, motion
      ensures Valid()
      ensures written == old(written) && outputs == old(outputs)
      ensures failedLastBeamCheck == old(failedLastBeamCheck)
      ensures TrialWatched(time, ball, playOn, isFallen, old(commands))
      // the beam check stands unless the trial restarts
      ensures kick == old(kick) ==> beamChecked == old(beamChecked)
    {
      if !hasKicked && playOn {
        ranIntoBall := true;
      }
      if !hasKicked {
        return;
      }
      if ball.x < BackwardsX {
        backwards := true;
      }
      if isFallen {
        fallen := true;
      }
      if isFallen {
        totalFitness := totalFitness + FallScore;
        kick := kick + 1;
        InitKick(time);
        return;
      }
      if time - (timeStart + InitWaitTime) > TrialLength {
        var moving := motion.IsBallMoving(time, ball);
        if !moving {
          var score := TrialScore(ball.x, backwards, ranIntoBall);
          totalFitness := totalFitness + score;
          kick := kick + 1;
          InitKick(time);
          return;
        }
      }
    }
  }
}
