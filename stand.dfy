/**
 * The stand-up optimization agent (`OptimizationBehaviorStand`).
 *
 * After a wait of InitWait seconds an upright agent is told to go down (the
 * sticky `done` flag); a run is meant to cost -10 if the agent is down and
 * `done`, and otherwise the time since the restart. Ten runs are meant to be
 * averaged and written once.
 *
 * As written, the beam check of `updateFitness` restarts the trial through
 * `initStand`, which clears `beamChecked` again, so the scoring code is never
 * reached: NeverScored holds from construction on and every operation keeps
 * it. The scoring branches are still modelled as the code has them.
 *
 * The world model's time and fallen predicate are parameters of each call.
 */
module Stand {
  import opened Simulator

  const InitWait: real := 2.0
  /** The output is written when `run` reaches Runs. */
  const Runs: int := 10
  /** The cost of a run that ends with the agent down. */
  const FallenCost: real := -10.0

  class StandHarness {
    var beamChecked: bool
    var totalCost: real
    /** The cost of the last run scored. */
    var cost: real
    /** Set once the agent has been told to go down; never cleared. */
    var done: bool
    var run: int
    var currentTime: real
    var timeStart: real
    /** Base-behaviour flags that make the agent beam again. */
    var initialized: bool
    var initBeamed: bool
    var written: bool
    var commands: seq<Command>
    ghost var outputs: seq<real>

    /**
     * At most Runs runs are counted; the output is written at most once, only
     * after the last run, and holds the total divided by Runs.
     */
    ghost predicate Valid()
      reads this
    {
      0 <= run <= Runs &&
      (written ==> run == Runs) &&
      outputs == (if written then [totalCost / Runs as real] else [])
    }

    /** No beam check has stuck, so no run has been scored and nothing written. */
    predicate NeverScored()
      reads this
    {
      !beamChecked && run == 0 && totalCost == 0.0 && cost == 0.0 && !written
    }

    /** The state `initStand` leaves at time `now`. */
    predicate Restarted(now: real)
      reads this
    {
      timeStart == now && !beamChecked && !initialized && !initBeamed
    }

    constructor (now: real)
      ensures Valid() && NeverScored() && Restarted(now)
      ensures !done && outputs == []
      ensures commands == RestartCommands
    {
      totalCost := 0.0;
      cost := 0.0;
      done := false;
      run := 0;
      written := false;
      outputs := [];
      commands := [];
      new;
      InitStand(now);
    }

    /** `initStand`: restart the trial at `now`; counters, cost and `done` are untouched. */
    method InitStand(now: real)
      modifies this
      ensures Restarted(now)
      ensures commands == old(commands) + RestartCommands
      ensures unchanged(this`totalCost, this`cost, this`done, this`run, this`currentTime,
                        this`written, this`outputs)
    {
      beamChecked := false;
      timeStart := now;
      initialized := false;
      initBeamed := false;
      commands := commands + RestartCommands;
    }

    /** `selectSkill`: stand, except that an upright agent is told to go down once the wait is over. */
    method SelectSkill(now: real, isFallen: bool) returns (skill: Skill)
      requires Valid()
      modifies this
      ensures Valid()
      ensures old(NeverScored()) ==> NeverScored()
      ensures currentTime == now
      ensures skill == SkillDown <==> old(timeStart) >= 0.0 && now - old(timeStart) > InitWait && !isFallen
      ensures skill != SkillDown ==> skill == SkillStand
      ensures done == (old(done) || skill == SkillDown)
      ensures old(timeStart) < 0.0 ==>
                Restarted(now) && commands == old(commands) + RestartCommands
      ensures old(timeStart) >= 0.0 ==>
                unchanged(this`beamChecked, this`timeStart, this`initialized, this`initBeamed, this`commands)
      ensures unchanged(this`totalCost, this`cost, this`run, this`written, this`outputs)
    {
      currentTime := now;
      if timeStart < 0.0 {
        InitStand(now);
        return SkillStand;
      }
      if currentTime - timeStart <= InitWait {
        return SkillStand;
      }
      if !isFallen {
        done := true;
        return SkillDown;
      }
      return SkillStand;
    }

    /** `writeFitnessToOutputFile`: write `fitness` unless something was written already. */
    method WriteFitness(fitness: real)
      modifies this`written, this`outputs
      ensures written
      ensures outputs == if old(written) then old(outputs) else old(outputs) + [fitness]
    {
      if !written {
        outputs := outputs + [fitness];
        written := true;
      }
    }

    /** `updateFitness` for one tick: the simulation time and whether the agent is down. */
    method UpdateFitness(now: real, isFallen: bool)
      requires Valid()
      modifies this
      ensures Valid()
      ensures old(NeverScored()) ==> NeverScored()
      ensures run == old(run) || run == old(run) + 1
      // after the last run: the total divided by Runs is written once and nothing else changes
      ensures old(run) == Runs ==>
                written &&
                unchanged(this`beamChecked, this`totalCost, this`cost, this`done, this`run, this`currentTime,
                          this`timeStart, this`initialized, this`initBeamed, this`commands)
      ensures old(run) < Runs ==> written == old(written) && outputs == old(outputs)
      // still waiting: nothing changes
      ensures old(run) < Runs && now - old(timeStart) <= InitWait ==> unchanged(this)
      // the beam check marks the beam checked, then restarts the trial, which clears the mark
      ensures old(run) < Runs && now - old(timeStart) > InitWait && !old(beamChecked) ==>
                Restarted(now) && commands == old(commands) + RestartCommands &&
                unchanged(this`totalCost, this`cost, this`done, this`run, this`currentTime)
      // past the beam check: play on; a run ends once `done` is set
      ensures old(run) < Runs && now - old(timeStart) > InitWait && old(beamChecked) ==>
                done == old(done) && currentTime == old(currentTime) &&
                (old(done) <==> run == old(run) + 1) &&
                (old(done) && isFallen ==>
                   cost == FallenCost && totalCost == old(totalCost) + FallenCost &&
                   Restarted(now) && commands == old(commands) + [SetMonMessage(PlayOn)] + RestartCommands) &&
                // the upright run's cost is never added to the total and the trial is not restarted
                (old(done) && !isFallen ==>
                   cost == now - old(timeStart) && totalCost == old(totalCost) &&
                   unchanged(this`beamChecked, this`timeStart, this`initialized, this`initBeamed) &&
                   commands == old(commands) + [SetMonMessage(PlayOn)]) &&
                (!old(done) ==>
                   commands == old(commands) + [SetMonMessage(PlayOn)] &&
                   unchanged(this`beamChecked, this`totalCost, this`cost, this`timeStart,
                             this`initialized, this`initBeamed))
    {
      if run == Runs {
        WriteFitness(totalCost / run as real);
        return;
      }
      if now - timeStart <= InitWait {
        return;
      }
      if !beamChecked {
        beamChecked := true;
        initialized := true;
        initBeamed := true;
        InitStand(now);
        return;
      }
      commands := commands + [SetMonMessage(PlayOn)];
      if isFallen && done {
        cost := FallenCost;
        run := run + 1;
        totalCost := totalCost + cost;
        InitStand(now);
        return;
      } else if done {
        cost := now - timeStart;
        run := run + 1;
        return;
      }
    }
  }
}
