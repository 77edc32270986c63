/**
 * What a harness hands back to the agent and the simulator each tick. The skills
 * themselves, the monitor connection and the agent's own beaming are not part of
 * this model: a chosen skill is returned, and monitor messages and skill resets
 * are recorded in order in the harness's command log.
 */
module Simulator {
  import opened Geometry

  /** The skill `selectSkill` returns for this tick. */
  datatype Skill =
    | SkillStand
    | SkillKickLeftLeg
    | SkillDown
    | WalkTo(target: Vec)   // goToTarget(target)

  /** A play-mode message the harness sends to the simulator's monitor port. */
  datatype MonMessage =
    | BeforeKickOff     // play mode BeforeKickOff
    | KickOffLeft       // play mode KickOff_Left
    | PlayOnClearBall   // play mode PlayOn, with the ball moved to (0, -9, 0) at rest
    | PlayOn            // play mode PlayOn

  /** A side effect on the simulator issued during a tick. */
  datatype Command =
    | SetMonMessage(message: MonMessage)
    | ResetSkills

  /** What restarting a trial issues (`initKick`, `initStand`): reset the skills, then stop play. */
  const RestartCommands: seq<Command> := [ResetSkills, SetMonMessage(BeforeKickOff)]
}
