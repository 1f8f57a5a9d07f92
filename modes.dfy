/** The robot's operating modes and which looper groups each mode wants
    running. */
module Modes {
  import Loops

  /** The operating modes whose entry methods the robot overrides. */
  datatype Mode = Disabled | Autonomous | Teleop | Test

  /** Which groups a mode wants running, as one table: ENABLED in both
      driving modes, each of TELEOP, AUTO and DISABLED in its own mode, and
      nothing in test mode. */
  predicate ShouldRun(m: Mode, t: Loops.LoopType) {
    match t
    case Enabled => m == Autonomous || m == Teleop
    case Teleop => m == Teleop
    case Auto => m == Autonomous
    case Disabled => m == Disabled
  }
}
