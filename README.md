# Optimization harnesses of the UT Austin Villa 3D agent, in Dafny

The agent's optimization behaviours score one candidate skill parameter set by
running a fixed series of trials in the RoboCup 3D simulator and writing one
fitness value to an output file. Three harnesses are modelled here. Each is a
state machine that advances once per simulator tick through `selectSkill`
(which skill to run this tick) and `updateFitness` (bookkeeping and scoring).

- **Fixed kick** (`OptimizationBehaviorFixedKick`, module `FixedKick`). The
  agent and ball are beamed. The harness waits 3 s, then checks the beam:
  agent within 0.1 m of the beam spot, ball within 0.1 m of the origin,
  heading within 3°. A trial that fails this beam check is restarted once for free.
  A second failure in a row scores −100 and counts the trial. After the wait
  the agent kicks once per trial; a failed beam check restarts the trial. Each trial is watched for a backward ball, for play-on
  before the kick and for a fall. A fall scores −1. Otherwise the trial is
  scored once the ball is at rest, more than 15 s after the wait: the ball's
  x, or −100. After ten trials the mean is written once.
- **Ball-stillness detector** (`isBallMoving`, module `Stillness`). It
  debounces the ball's planar displacement (more than 0.01 m) against a 0.5 s
  window, using two remembered values.
- **Walk forward** (`OptimizationBehaviorWalkForward`, module `WalkForward`).
  There are eleven runs. Each starts from a pose chosen by the run number and
  checks the beam (0.05 m, 5°). After one free retry, every further failure
  in a row costs 100 and skips the run.
  - Phases 0 and 3 (`run % 5`) zigzag between waypoints.
  - Phase 4 shuttles sideways.
  - Phases 1 and 2 follow a parabola and count distance while inside an
    x-gate.
  - Run 10 chases random targets.
  - A run ends 15 s after the wait, charging 5 if a fall is still on record.
  - The total divided by 11 is written once.
- **Stand** (`OptimizationBehaviorStand`, module `Stand`). After a 2 s wait an
  upright agent is told to go down. Runs are meant to cost −10 when the agent
  is down, or the time taken otherwise, and ten of them are meant to be
  averaged.

`Geometry` holds the vector type and squared distances. `Simulator` holds the
skills a harness returns and the commands it issues (monitor messages and
skill resets).

Every threshold on a Euclidean distance is stated on squared distances, which
are exact over the reals. The lemmas `Geometry.ThresholdBySquares` and
`*.BeamOkIffWithinTolerance` show this agrees with the source's test on
`getDistanceTo` for any `d` with `d ≥ 0` and `d² = DistSq`. The walk distance
added at a waypoint is likewise a tick input `walked`, required to be that
distance.

The model follows the code. Where the code's own branches show an evident
intent that the code does not reach, the model proves what the code does:

- **The stand harness never scores.** The `!beamChecked` branch of
  `updateFitness` sets `beamChecked` and then calls `initStand`, which clears
  it again (`optimizationbehaviors.cc:705-715`, `:659`). So the scoring code
  is never reached. `NeverScored` holds from construction on and every
  operation keeps it: `run` stays 0 and nothing is ever written. The
  unreachable branches charge −10 for a fallen run (`:720`) and the time since
  the restart for an upright one (`:726`).
- **An upright stand run would never add its cost.** In the upright branch
  `run` is incremented and the method returns before `totalcost += cost`
  (`:725-730`).
- **The kick `fallen` flag is never observed set.** It is latched and then
  cleared by `initKick` in the same tick (`:113-121`). `KickHarness.Valid`
  states `!fallen`. The field is set only at `:114`, just before that
  restart, and nothing reads it.
- **Phases 0 and 3 of the walk never charge a fall.** From 12.5 s after the
  wait the fall flag is cleared on every tick, and the run ends at 15 s
  (`:493-503`). `StraightStep` ensures the flag is clear once that time has
  passed.
- **The kick and walk retry rules differ.** The kick harness clears its retry
  flag after a penalised failure (`:85-91`). The walk harness sets it on every
  failure (`:449-456`), so after the first free retry every failure in a row
  is penalised.

## Model

| member | source | states |
|---|---|---|
| Geometry.ThresholdBySquares | utaustinvilla3d-master/optimization/optimizationbehaviors.cc:79 | for a supplied distance d ≥ 0 with d² the squared distance, `d > t` and `d < t` hold exactly when the squared distance exceeds or falls below t² |
| Stillness.Observe | utaustinvilla3d-master/optimization/optimizationbehaviors.cc:189-212 | one call: the first call primes the memory with the current sample; a planar displacement over 0.01 reports moving and remembers the new sample; otherwise the memory is kept and "moving" holds exactly when less than 0.5 s has passed since it was taken |
| Stillness.QuietKeepsMemory | utaustinvilla3d-master/optimization/optimizationbehaviors.cc:198-212 | a run of calls none of which is displaced leaves the remembered ball and time unchanged |
| Stillness.QuietReportsWindow | utaustinvilla3d-master/optimization/optimizationbehaviors.cc:198-212 | during such a run, call k reports moving exactly when its time is less than 0.5 s after the remembered time, so the detector settles once and stays settled |
| Stillness.MovementRestartsWindow | utaustinvilla3d-master/optimization/optimizationbehaviors.cc:198-212 | a displacement is reported as moving and restarts the window: later quiet calls within 0.5 s of it report moving too |
| Stillness.BallMotion.constructor | utaustinvilla3d-master/optimization/optimizationbehaviors.cc:190-191 | the statics start unprimed, to be initialised by the first call |
| Stillness.BallMotion.IsBallMoving | utaustinvilla3d-master/optimization/optimizationbehaviors.cc:189-212 | the result and the new statics are exactly what `Observe` gives for the old statics |
| FixedKick.BeamOkIffWithinTolerance | utaustinvilla3d-master/optimization/optimizationbehaviors.cc:68-79 | the beam passes exactly when the agent's distance to the beam spot is at most 0.1, the ball's magnitude at most 0.1 and the heading error at most 3 degrees |
| FixedKick.TrialScore | utaustinvilla3d-master/optimization/optimizationbehaviors.cc:129-141 | a score above 0.1 happens exactly when the kick went forward, the agent did not run into the ball first and the ball's x exceeds 0.1, and is then that x; every other score is −100 |
| FixedKick.KickHarness.constructor | utaustinvilla3d-master/optimization/optimizationbehaviors.cc:11-18 | no trial counted, nothing written, retry flag clear, a fresh unprimed detector, a trial started at the given time |
| FixedKick.KickHarness.InitKick | utaustinvilla3d-master/optimization/optimizationbehaviors.cc:154-171 | all per-trial flags cleared and the trial clock set to now; skills reset and BeforeKickOff sent; counters, retry flag and output untouched |
| FixedKick.KickHarness.SelectSkill | utaustinvilla3d-master/optimization/optimizationbehaviors.cc:27-45 | the kick is chosen exactly when the trial has started, more than 3 s have passed and no kick was made yet; it is then recorded, so it is chosen at most once per trial; otherwise stand |
| FixedKick.KickHarness.WriteFitness | utaustinvilla3d-master/optimization/optimizationbehaviors.cc:173-186 | the value is appended to the output only when nothing was written before; afterwards the latch is set |
| FixedKick.KickHarness.UpdateFitness | utaustinvilla3d-master/optimization/optimizationbehaviors.cc:47-152 | after ten trials the mean is written once and nothing else changes; nothing is written before; at most one trial is counted per tick; the wait changes nothing; a failed beam check restarts the trial, sending ResetSkills and BeforeKickOff, and a second failure in a row costs 100 and counts the trial; once the beam passes on this tick or passed before, the tick is watched exactly as TrialWatched says (fall −1, settled ball TrialScore, latches), after KickOff_Left and with the check marked passed and the retry flag cleared on the checking tick |
| FixedKick.KickHarness.CheckBeam | utaustinvilla3d-master/optimization/optimizationbehaviors.cc:62-98 | passes exactly when BeamOk holds; on failure the retry flag toggles, the second failure counts the trial at −100 and the trial restarts; on success the flag clears and KickOff_Left is sent |
| FixedKick.KickHarness.WatchTrial | utaustinvilla3d-master/optimization/optimizationbehaviors.cc:100-151 | TrialWatched: before the kick only play-on latches ranIntoBall; a fall counts the trial at −1 and restarts it; more than 15 s after the wait the detector is consulted, and a settled ball counts the trial at TrialScore (with the backward latch of this tick) and restarts it; otherwise the backward latch is all that changes |
| WalkForward.BeamPose | utaustinvilla3d-master/optimization/optimizationbehaviors.cc:361-390 | every start pose faces angle 0 |
| WalkForward.StartPosesCycle | utaustinvilla3d-master/optimization/optimizationbehaviors.cc:233-260 | start poses repeat every five runs (run 10 aside), and phase 3 starts where phase 0 does |
| WalkForward.BeamOkIffWithinTolerance | utaustinvilla3d-master/optimization/optimizationbehaviors.cc:392-409 | the beam passes exactly when the planar distance to the start pose is at most 0.05 and the heading error at most 5 degrees |
| WalkForward.PlannedTarget | utaustinvilla3d-master/optimization/optimizationbehaviors.cc:266-297 | phases 0 and 3 aim 3.5 up the field and 2.8 or 5.25 to the side of the direction (0.8 or 1.5 times 3.5 times the direction); phase 4 aims 3.5 to the side opposite the direction; phases 1 and 2 aim 1.5 ahead on the parabola or its mirror while on the curve, else at (12, start.y) or (−15, 0); always on the ground |
| WalkForward.LegReturns | utaustinvilla3d-master/optimization/optimizationbehaviors.cc:477-504 | on the zigzag and shuttle phases, after a waypoint is reached and the direction flipped, the next waypoint lies within 0.2 in x of the previous leg's start, and on phases 0 and 3 at least 6.8 further up the field |
| WalkForward.RandomTarget | utaustinvilla3d-master/optimization/optimizationbehaviors.cc:302-303 | run 10's random target lies in [−F, F/2) on each axis |
| WalkForward.WalkHarness.constructor | utaustinvilla3d-master/optimization/optimizationbehaviors.cc:233-260 | run 0, no distance, nothing written, retry flag clear, first run started |
| WalkForward.WalkHarness.Init | utaustinvilla3d-master/optimization/optimizationbehaviors.cc:341-359 | every per-run field reset, the target clock 1 s ahead, the leg starting at the run's start pose, BeforeKickOff sent; run, total and retry flag untouched |
| WalkForward.WalkHarness.CheckBeam | utaustinvilla3d-master/optimization/optimizationbehaviors.cc:392-409 | passes exactly when BeamOk holds, and only a pass marks the beam checked |
| WalkForward.WalkHarness.GetTarget | utaustinvilla3d-master/optimization/optimizationbehaviors.cc:261-307 | the planned waypoint on runs other than 10; on run 10 a fresh random target when `flip` is set, which is then remembered and clears `flip`, else the remembered one |
| WalkForward.WalkHarness.SelectSkill | utaustinvilla3d-master/optimization/optimizationbehaviors.cc:411-417 | stand, changing nothing, during the wait, before the first start or once standing; otherwise walk to the planned waypoint, changing nothing, or on the random run to a new random target when `flip` is set and the remembered one otherwise, which is then remembered with `flip` cleared |
| WalkForward.WalkHarness.UpdateFitness | utaustinvilla3d-master/optimization/optimizationbehaviors.cc:419-578 | after run 10 the total divided by 11 is written once and nothing else changes; at most one run is counted per tick; the first tick starts the run with BeforeKickOff; the wait changes nothing; past the wait the tick is AfterWait's |
| WalkForward.WalkHarness.VerifyBeam | utaustinvilla3d-master/optimization/optimizationbehaviors.cc:445-465 | passes exactly when BeamOk holds; a failure sets the retry flag and restarts the run, costing 100 and counting the run if the flag was already set; a pass clears the flag and sends PlayOn with the ball moved away |
| WalkForward.WalkHarness.Progress | utaustinvilla3d-master/optimization/optimizationbehaviors.cc:467-572 | a fall is latched and counted, then the phase's step runs with the latched flag (Stepped): the distance walked is added exactly at a waypoint or in or out of a gate, the fall flag is cleared at a waypoint or late on phases 0 and 3, and the leg, direction, curve, standing and flip follow their phase rules |
| WalkForward.WalkHarness.AfterWait | utaustinvilla3d-master/optimization/optimizationbehaviors.cc:445-578 | a failed beam check restarts the run with BeforeKickOff, keeping the random target, and every failure after the first in a row costs 100 and skips the run; once the beam passes (now or before) the tick is Advanced after the PlayOn message of a passing check, and a run not ended has its beam checked |
| WalkForward.WalkHarness.Advance | utaustinvilla3d-master/optimization/optimizationbehaviors.cc:467-578 | Advanced: the run counter rises exactly when 15 s have passed after the wait; the total gains the step's distance less 5 when the run ends with a fall on record; the random target is kept; an ended run starts the next with BeforeKickOff, otherwise the tick is Progress's step, the fall count rises with a fall, no command is sent and the start time, beam check and beaming flags are kept |
| WalkForward.WalkHarness.EndRunIfDue | utaustinvilla3d-master/optimization/optimizationbehaviors.cc:499-504 | from 15 s after the wait the run is counted, 5 is charged if a fall is on record and the next run starts; before that nothing changes |
| WalkForward.WalkHarness.StraightStep | utaustinvilla3d-master/optimization/optimizationbehaviors.cc:477-498 | reaching the waypoint within 0.2 while walking adds the distance walked, flips the direction, restarts the leg here and clears the fall flag; from 12.5 s after the wait the agent stands and the fall flag is clear; all of it as Stepped states, with the fall flag latched earlier in the tick |
| WalkForward.WalkHarness.CurveStep | utaustinvilla3d-master/optimization/optimizationbehaviors.cc:505-538 | inside the x-gate the distance from the last gate point is added and the curve followed; crossing out on the far side adds the last stretch and leaves the curve; the agent stands from 12.5 s or when near the target; all of it as Stepped states, with the fall flag latched earlier in the tick |
| WalkForward.WalkHarness.ShuttleStep | utaustinvilla3d-master/optimization/optimizationbehaviors.cc:544-559 | reaching the waypoint adds the distance walked, flips the direction, restarts the leg here and clears the fall flag; all of it as Stepped states, with the fall flag latched earlier in the tick |
| WalkForward.WalkHarness.RandomStep | utaustinvilla3d-master/optimization/optimizationbehaviors.cc:568-572 | a new random target is requested exactly on even whole seconds since the start |
| Stand.StandHarness.constructor | utaustinvilla3d-master/optimization/optimizationbehaviors.cc:644-656 | no cost, no run, not done, nothing written, trial started at the given time, and NeverScored holds |
| Stand.StandHarness.InitStand | utaustinvilla3d-master/optimization/optimizationbehaviors.cc:658-670 | the beam flags cleared and the trial clock set to now; skills reset and BeforeKickOff sent; costs, run and `done` untouched |
| Stand.StandHarness.SelectSkill | utaustinvilla3d-master/optimization/optimizationbehaviors.cc:679-694 | go down exactly when the trial has started, more than 2 s have passed and the agent is upright, which sets the sticky `done`; otherwise stand; NeverScored is kept |
| Stand.StandHarness.WriteFitness | utaustinvilla3d-master/optimization/optimizationbehaviors.cc:734-744 | the value is appended to the output only when nothing was written before; afterwards the latch is set |
| Stand.StandHarness.UpdateFitness | utaustinvilla3d-master/optimization/optimizationbehaviors.cc:696-732 | after ten runs the total divided by 10 is written once; the wait changes nothing; the beam check always ends in a restart that clears the check; past it, PlayOn is sent, a fallen `done` run costs −10 and restarts, an upright `done` run is counted without adding its cost; NeverScored is kept, so no run is ever counted |

## Left out

- File output and console logging (`fstream`, `cout`, `LOG`). Each one-shot write is a ghost `outputs` sequence beside its `written` latch.
- The world model is not modelled. Time, ground-truth positions and headings, the fallen predicate and the play mode are parameters of each call.
- The skills and the monitor connection are not modelled. A chosen skill is returned, and `setMonMessage` and `resetSkills` are appended to a `commands` log.
- The kick beam pose comes from named parameters through `atof` (lines 20-25). Here it is given to the constructor.
- Square roots are left out. Distances are compared through their squares, and the distance walked is a supplied input.
- Floating-point rounding is left out; all arithmetic is on the reals.
- `rand()` is left out. Its two values on run 10 are natural-number inputs, and `srand(time(0))` is left out.
- `HALF_FIELD_X`, `HALF_FIELD_Y`, `FIELD_X` and `FIELD_Y` come from headers that are not part of this model. They are constructor parameters, and the field is required to be large enough that `(int)(1.5 * FIELD)` is positive.
- The static locals `totalFitness`, `failedLastBeamCheck`, `written`, `lastBall` and `lastTime` are fields of the harness object. Each is therefore shared by one harness rather than the whole process.
- Both `abs` calls on the heading error are read as the floating-point `std::abs`.
- The C++ truncating cast `(int)(currentTime - startTime)` on run 10 is modelled as `Floor`. The two agree because the elapsed time is at least 1 s there.
- Locals that are computed and never used are left out: the beam values in `initKick`, `initStand` and the walk `updateFitness`, `currentTime` in `init`, `timeTaken` and the angle offset of a kicked ball.
- The walk `oldTarget` starts at the origin. The source leaves it default-constructed.
- The stand `beam` (a constant pose, -5, 0, 0) is left out. Only the agent's own beaming uses it.
- Commented-out code in `getTarget` and after the walk `updateFitness` is left out.
- `writeToOutputFile` (lines 214-223) is not called by the core and is left out.
