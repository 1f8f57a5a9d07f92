# Voltec 2020 robot: mode groups, drive loop, collision detector, controller set-up

A Dafny model of the logic in the 2020 robot code of FRC team 6647. The rest
of that code wraps motor, sensor, vision and command-framework libraries.
The model covers four pieces:

- **Collision detection** (`gyro.dfy`, module `Gyro`). The gyro subsystem's
  loop keeps the previous world-frame X and Y accelerations. Each tick it
  forms the jerk on each axis and stores the new samples. It flags a
  collision exactly when either jerk exceeds 0.25 g in magnitude, strictly.
  The class `Gyro` has the source's three fields and the loop's callbacks.
  A ghost history of samples ties those fields to `Flags`, the flag sequence
  any run of ticks produces.
- **Drive loop** (`chassis.dfy`, module `Chassis`). `arcadeDrive` sends each
  front Falcon the same percent-output demand `forward`. It adds a
  feed-forward of `-rotation` on the left and `+rotation` on the right. The
  back motors follow. The class `Chassis` keeps the last demand of each of
  the four motors. `onLoop` drives from the sticks unless the orchestra is
  playing. `onStop` neutralises every motor.
- **Mode changes** (`robot.dfy`, module `Robot`; `modes.dfy`, module
  `Modes`; `loops.dfy`, module `Loops`). `disabledInit`, `autonomousInit`, `teleopInit` and `testInit`
  each start or stop the ENABLED, TELEOP, AUTO and DISABLED looper groups.
  The looper library is not part of this model. `Loops` states the contract
  the robot code relies on:
  - a group is running or not;
  - `start()` on a running group and `stop()` on a stopped one do nothing;
  - `onFirstStart` goes out once, on the group's first start.

  The robot's constructor claims the static `instance` only when it is
  empty.
- **Controller set-up and feeding guard** (`robot_container.dfy`, module
  `RobotContainer`). `initJoysticks` picks a controller's stick axes, and
  for one model an axis tolerance, from its name. It uses a chain of exact
  name tests and one case-insensitive "xbox" substring test. Both drivers
  go through the same chain. `startFeeding` commands the indexer and the
  pulley only when the shooter is on target.

Hardware is reduced to what the code does to it. Motor demands and indexer
commands are fields. The NavX `reset`/`zeroYaw` calls are a call log
(`hardware.dfy`, module `Hardware`). Sensor readings, stick positions, the
orchestra's playing state and the shooter's on-target state are method
parameters.

An isolated spike in the acceleration flags two ticks: its own, and the tick
that returns to the baseline, whose jerk has the same size.
`Gyro.IsolatedSpikeFlagsTwoTicks` proves this.

## Model

| member | source | states |
|---|---|---|
| `Loops.StartGroup` | src/main/java/org/usfirst/frc6647/subsystems/Gyro.java:92-105 | starting a group leaves it running; a running group is unchanged; otherwise one more `onStart` goes out, and a well-formed lifecycle stays well formed with exactly one `onFirstStart` |
| `Loops.StopGroup` | src/main/java/org/usfirst/frc6647/subsystems/Gyro.java:125-127 | stopping leaves the group stopped; a stopped group is unchanged; a running one gets one more `onStop`; well-formedness is kept |
| `Loops.FirstStartOnce` | src/main/java/org/usfirst/frc6647/subsystems/Chassis.java:108-113 | after any sequence of `start()`/`stop()` calls, `onFirstStart` has gone out exactly once if any `start()` was made (or the group had started before), never otherwise |
| `Loops.LastCallDecides` | src/main/java/org/usfirst/frc6647/robot/Robot.java:58-91 | after a non-empty sequence of calls a group runs iff the last call was `start()` |
| `Loops.Looper.constructor` | src/main/java/org/usfirst/frc6647/robot/Robot.java:49 | a new looper group has never been started |
| `Loops.Looper.Start` | src/main/java/org/usfirst/frc6647/robot/Robot.java:63 | the group's new state is `StartGroup` of the old one |
| `Loops.Looper.Stop` | src/main/java/org/usfirst/frc6647/robot/Robot.java:60-62 | the group's new state is `StopGroup` of the old one |
| `Hardware.AHRS.Reset` | src/main/java/org/usfirst/frc6647/subsystems/Gyro.java:95 | records one reset call on the sensor |
| `Hardware.AHRS.ZeroYaw` | src/main/java/org/usfirst/frc6647/subsystems/Gyro.java:102 | records one zero-yaw call on the sensor |
| `Gyro.Flags` | src/main/java/org/usfirst/frc6647/subsystems/Gyro.java:108-122 | a run of ticks flags tick `i` exactly when sample `i` differs from the sample before it (the stored one for the first tick) by more than 0.25 on X or on Y |
| `Gyro.Jolted` | src/main/java/org/usfirst/frc6647/subsystems/Gyro.java:119-120 | two consecutive samples collide exactly when the jerk on X or on Y exceeds 0.25 in magnitude, whichever sample is taken first; equal samples never collide |
| `Gyro.CollisionLoopTag` | src/main/java/org/usfirst/frc6647/subsystems/Gyro.java:130-132 | the collision loop's tag is the one whose group runs in autonomous and in teleop and in no other mode |
| `Gyro.ThresholdIsStrict` | src/main/java/org/usfirst/frc6647/subsystems/Gyro.java:119-120 | a jerk exactly equal to the threshold, with the other axis no larger, is not a collision |
| `Gyro.ConstantAccelerationNeverCollides` | src/main/java/org/usfirst/frc6647/subsystems/Gyro.java:111-121 | with constant acceleration every tick after the first reports no collision |
| `Gyro.IsolatedSpikeFlagsTwoTicks` | src/main/java/org/usfirst/frc6647/subsystems/Gyro.java:111-121 | one sample off the baseline by more than the threshold raises the flag on its own tick and on the next one, and on no other |
| `Gyro.Gyro.constructor` | src/main/java/org/usfirst/frc6647/subsystems/Gyro.java:29-31 | both previous samples start at 0.0, no collision is flagged, and no sample has been read |
| `Gyro.Gyro.DidCollide` | src/main/java/org/usfirst/frc6647/subsystems/Gyro.java:84-86 | returns the flag, which is the last tick's entry of `Flags` over the whole history; changes nothing |
| `Gyro.Gyro.OnFirstStart` | src/main/java/org/usfirst/frc6647/subsystems/Gyro.java:92-97 | resets the sensor and leaves the samples and the flag as they were |
| `Gyro.Gyro.OnStart` | src/main/java/org/usfirst/frc6647/subsystems/Gyro.java:100-105 | zeroes the yaw and leaves the samples and the flag as they were, so the first tick after a restart compares against the last sample before the stop |
| `Gyro.Gyro.OnStop` | src/main/java/org/usfirst/frc6647/subsystems/Gyro.java:125-127 | changes nothing |
| `Gyro.Gyro.OnLoop` | src/main/java/org/usfirst/frc6647/subsystems/Gyro.java:108-122 | stores the new samples as the previous ones and sets the flag afresh, true iff either jerk's magnitude exceeds 0.25, so a calm tick clears an earlier flag; the history grows by the sample |
| `Chassis.ArcadeMix` | src/main/java/org/usfirst/frc6647/subsystems/Chassis.java:95-98 | the two primary demands are equal and the two feed-forwards are negatives of each other; reading the command back gives (forward, rotation), with `-rotation` on the left |
| `Chassis.DriveLoopTag` | src/main/java/org/usfirst/frc6647/subsystems/Chassis.java:144-147 | the drive loop's tag is the one whose group runs in teleop and in no other mode |
| `Chassis.ArcadeMixOnto` | src/main/java/org/usfirst/frc6647/subsystems/Chassis.java:95-98 | every command of that shape is the mix of the inputs read back from it |
| `Chassis.ArcadeMixInjective` | src/main/java/org/usfirst/frc6647/subsystems/Chassis.java:95-98 | different inputs never give the same command |
| `Chassis.ZeroRotationDrivesStraight` | src/main/java/org/usfirst/frc6647/subsystems/Chassis.java:95-98 | with rotation 0 both sides get the identical demand (forward, 0) |
| `Chassis.OppositeRotationMirrors` | src/main/java/org/usfirst/frc6647/subsystems/Chassis.java:95-98 | negating the rotation swaps the left and right demands |
| `Chassis.Chassis.constructor` | src/main/java/org/usfirst/frc6647/subsystems/Chassis.java:59-60 | each back motor follows its front motor; all motors start neutral |
| `Chassis.Chassis.ArcadeDrive` | src/main/java/org/usfirst/frc6647/subsystems/Chassis.java:95-98 | the front demands become `ArcadeMix(forward, rotation)` and the back motors still follow |
| `Chassis.Chassis.OnFirstStart` | src/main/java/org/usfirst/frc6647/subsystems/Chassis.java:108-113 | resets the sensor and leaves the motors alone |
| `Chassis.Chassis.OnStart` | src/main/java/org/usfirst/frc6647/subsystems/Chassis.java:116-121 | zeroes the yaw and leaves the motors alone |
| `Chassis.Chassis.OnLoop` | src/main/java/org/usfirst/frc6647/subsystems/Chassis.java:124-136 | while the orchestra plays nothing changes; otherwise it drives with forward = left stick Y and rotation = right stick X |
| `Chassis.Chassis.OnStop` | src/main/java/org/usfirst/frc6647/subsystems/Chassis.java:139-142 | all four motors end neutral (0, 0), whatever they were commanded before |
| `Robot.Transition` | src/main/java/org/usfirst/frc6647/robot/Robot.java:58-91 | after any mode's entry method, a group runs exactly when the mode table wants it running |
| `Robot.TransitionFollowsTable` | src/main/java/org/usfirst/frc6647/robot/Robot.java:58-91 | each mode-entry method starts exactly the groups the mode table names and stops the rest, so the running groups depend on the mode alone |
| `Robot.TransitionKeepsConsistent` | src/main/java/org/usfirst/frc6647/robot/Robot.java:58-91 | entering a mode keeps every group's lifecycle well formed |
| `Robot.TransitionIdempotent` | src/main/java/org/usfirst/frc6647/robot/Robot.java:58-91 | entering the same mode twice is the same as entering it once |
| `Robot.ModeGroupsExclusive` | src/main/java/org/usfirst/frc6647/robot/Robot.java:58-91 | after any entry method ENABLED runs iff the mode is autonomous or teleop, and no two of AUTO, TELEOP and DISABLED run |
| `Robot.CollisionLoopRunsWhileEnabled` | src/main/java/org/usfirst/frc6647/subsystems/Gyro.java:130-132 | the collision loop is tagged ENABLED, so it runs exactly in autonomous and teleop |
| `Robot.DriveLoopRunsOnlyInTeleop` | src/main/java/org/usfirst/frc6647/subsystems/Chassis.java:144-147 | the drive loop is tagged TELEOP, so it runs only in teleop; leaving teleop counts one more `onStop` for its group |
| `Robot.FirstStartOncePerGroup` | src/main/java/org/usfirst/frc6647/robot/Robot.java:58-91 | over any sequence of mode changes from a fresh robot, each group's loops get `onFirstStart` once if some mode wanted the group running, never otherwise |
| `Robot.RunModesConsistent` | src/main/java/org/usfirst/frc6647/robot/Robot.java:58-91 | over any sequence of mode changes lifecycles stay well formed, and a group has started iff it had started before or some mode wanted it |
| `Robot.DisabledTeleopDisabled` | src/main/java/org/usfirst/frc6647/robot/Robot.java:58-82 | disabled, then teleop, then disabled: the TELEOP group got one first start, one start and one stop, and is not running |
| `Robot.RobotStatics.constructor` | src/main/java/org/usfirst/frc6647/robot/Robot.java:28 | the static instance starts out null |
| `Robot.RobotStatics.GetInstance` | src/main/java/org/usfirst/frc6647/robot/Robot.java:35-37 | returns the static instance and changes nothing |
| `Robot.Robot.constructor` | src/main/java/org/usfirst/frc6647/robot/Robot.java:43-50 | creates four distinct, never-started groups; becomes the instance only if there was none, and otherwise leaves the instance alone |
| `Robot.Robot.GetLooper` | src/main/java/org/usfirst/frc6647/robot/Robot.java:60-90 | `getLooper(type)` gives the group whose state is that tag's entry of the four groups |
| `Robot.Robot.DisabledInit` | src/main/java/org/usfirst/frc6647/robot/Robot.java:58-64 | stops ENABLED, TELEOP and AUTO and starts DISABLED |
| `Robot.Robot.AutonomousInit` | src/main/java/org/usfirst/frc6647/robot/Robot.java:67-73 | starts ENABLED and AUTO and stops TELEOP and DISABLED |
| `Robot.Robot.TeleopInit` | src/main/java/org/usfirst/frc6647/robot/Robot.java:76-82 | starts ENABLED and TELEOP and stops AUTO and DISABLED |
| `Robot.Robot.TestInit` | src/main/java/org/usfirst/frc6647/robot/Robot.java:85-91 | stops all four groups |
| `Robot.FirstRobotStaysInstance` | src/main/java/org/usfirst/frc6647/robot/Robot.java:46-47 | when two robots are built one after the other, the first stays the instance |
| `RobotContainer.LowerChar` | src/main/java/org/usfirst/frc6647/robot/RobotContainer.java:88 | lower-casing turns an upper-case ASCII letter into the lower-case letter at the same place in the alphabet and keeps every other character |
| `RobotContainer.ToLower` | src/main/java/org/usfirst/frc6647/robot/RobotContainer.java:88 | `toLowerCase()` keeps the length, replaces each upper-case ASCII letter by its lower-case letter, and keeps every other character in place |
| `RobotContainer.Contains` | src/main/java/org/usfirst/frc6647/robot/RobotContainer.java:88 | `contains` holds exactly when the name splits into a prefix, the searched string and a suffix; the empty string is always found |
| `RobotContainer.OccursIffSplits` | src/main/java/org/usfirst/frc6647/robot/RobotContainer.java:88 | an occurrence at some position of the name is the same as a split of the name around the searched string |
| `RobotContainer.SelectLayout` | src/main/java/org/usfirst/frc6647/robot/RobotContainer.java:74-92 | a controller is configured exactly when its name is one of the six exact names or contains "xbox" in any case; an exact name gets that name's layout |
| `RobotContainer.SelectLayoutIsTable` | src/main/java/org/usfirst/frc6647/robot/RobotContainer.java:74-92 | the ordered chain equals a lookup of six exact names with a case-insensitive "xbox" fallback, so the first match wins and no later branch can override it |
| `RobotContainer.KnownControllerLayouts` | src/main/java/org/usfirst/frc6647/robot/RobotContainer.java:74-92 | gives the exact axes for each named controller: Wireless (0,1)/(2,5); Sony and DragonRise (0,1)/(3,4); Logitech (2,1)/(0,3) with tolerance 0.01; Generic USB (0,1)/(2,4); F310 (0,1)/(4,5) |
| `RobotContainer.OnlyLogitechSetsTolerance` | src/main/java/org/usfirst/frc6647/robot/RobotContainer.java:81-84 | a tolerance is set iff the name is exactly "Logitech Extreme 3D", and then it is 0.01 |
| `RobotContainer.UnconfiguredIff` | src/main/java/org/usfirst/frc6647/robot/RobotContainer.java:74-92 | a controller is left unconfigured iff its name is no exact name and does not contain "xbox" in any case |
| `RobotContainer.LeftStickZeroOneExceptLogitech` | src/main/java/org/usfirst/frc6647/robot/RobotContainer.java:74-92 | every configured layout except the Logitech one puts the left stick on axes (0, 1) |
| `RobotContainer.XboxTestIgnoresCase` | src/main/java/org/usfirst/frc6647/robot/RobotContainer.java:88-91 | two names that are not exact names and lower-case alike get the same layout |
| `RobotContainer.Xbox360Layout` | src/main/java/org/usfirst/frc6647/robot/RobotContainer.java:88-91 | "Controller (XBOX 360 For Windows)" gets the Xbox layout (0,1)/(4,5), although "XBOX" is upper-case |
| `RobotContainer.ExactNamesAreCaseSensitive` | src/main/java/org/usfirst/frc6647/robot/RobotContainer.java:74-76 | "wireless controller" in lower case matches no branch |
| `RobotContainer.JController.constructor` | src/main/java/org/usfirst/frc6647/robot/RobotContainer.java:69-70 | a controller has a port and a name; its default axes and tolerance are given |
| `RobotContainer.JController.SetXY` | src/main/java/org/usfirst/frc6647/robot/RobotContainer.java:75-76 | sets one stick's X and Y axes and leaves the other stick and the tolerance alone |
| `RobotContainer.JController.SetAxisTolerance` | src/main/java/org/usfirst/frc6647/robot/RobotContainer.java:82 | sets the tolerance and leaves the axes alone |
| `RobotContainer.Configure` | src/main/java/org/usfirst/frc6647/robot/RobotContainer.java:74-92 | a selected layout sets both sticks' axes, and the tolerance when the layout has one; with no match the controller is untouched |
| `RobotContainer.InitJoysticks` | src/main/java/org/usfirst/frc6647/robot/RobotContainer.java:67-119 | driver 1 is created on port 0 and driver 2 on port 1, two distinct controllers; each ends with the axes and tolerance the name-to-layout choice gives for its own name, starting from the library defaults |
| `RobotContainer.Indexer.SetIndexerSpeed` | src/main/java/org/usfirst/frc6647/robot/RobotContainer.java:161 | records one indexer-speed command |
| `RobotContainer.Indexer.SetPulleySpeed` | src/main/java/org/usfirst/frc6647/robot/RobotContainer.java:162 | records one pulley-speed command |
| `RobotContainer.StartFeeding` | src/main/java/org/usfirst/frc6647/robot/RobotContainer.java:158-163 | sends no indexer or pulley command unless the shooter is on target; when it is, it runs both at full speed (1, 1) |

## Left out

- The looper library (lib6647.loops) is not part of this model. Its start/stop behaviour and the first-start-once rule are an assumed contract (`Loops.StartGroup`, `Loops.StopGroup`). The source only suggests that rule, in the comments "Reset NavX only on first start". The per-tick dispatch of `onLoop`, registration order and exception isolation are left out too.
- `synchronized` blocks: concurrency is not modelled. Each method is one atomic step.
- The NavX `reset`/`zeroYaw` calls are recorded in a call log. Their effect on the sensor is not modelled. Telemetry reads of heading, yaw and rate in the drive loop are left out.
- Orchestra loading, random song choice, the MIDI file listing and the play/pause binding are I/O. Only whether the orchestra is playing enters the model, as a parameter of `Chassis.Chassis.OnLoop`.
- Dashboard, Shuffleboard, SmartDashboard, console and DriverStation output are telemetry I/O.
- Rumble triggers and all command bindings in `configureButtonBindings` are left out, except the guard in `startFeeding`. That includes `stopFeeding`, `ballIn`/`ballStop`, the climber, intake and turret commands, and the try/catch around the button lookups.
- `aimChassis` and Aim.java are left out. They use WPILib's profiled PID controller with floating-point profiles.
- Shooter.java is left out. `calculateSpeed` is a floating-point curve fit over a NetworkTables value, and it returns a `speed` field that is never assigned. Shooter.java defines no `onTarget`; the model takes the shooter's on-target state as an input.
- Indexer.java, Elevator.java, Intake.java, Vision.java, Limelight.java, Turret.java and turretZeroing.java are thin hardware wrappers and are left out. Indexer.java defines no `setIndexerSpeed`/`setPulleySpeed`, only `setIndexerCurrent`/`setPulley`; the model records the two calls `startFeeding` makes as commands.
- Heading inversion, speed limiting, cheesy drive, odometry, turret auto-aim and ball counting have no implementation in this code. Chassis.java defines none of `toggleReduction`/`toggleHeading`/`toggleCheesy`, which RobotContainer.java binds. None of these is modelled.
- Gyro.Gyro.OnLoop: doubles are modelled as exact reals. Rounding in the jerk subtraction is not modelled, so a double jerk that rounds across 0.25 may be flagged differently. NaN and infinity are not modelled either: in Java every comparison with NaN is false, so a NaN on one axis disables that axis's test on its own tick and the next, while the other axis can still raise the flag, and an infinite sample followed by the same infinity gives a NaN jerk. The threshold itself is exact: 0.25f converts to 0.25.
- RobotContainer.ToLower lower-cases ASCII letters only, whereas Java's `toLowerCase()` is Unicode-aware. For the "xbox" test this makes no difference: no character outside ASCII lower-cases to 'x', 'b' or 'o'.
- RobotContainer.JController.constructor: JController's default axes and tolerance live in the lib6647 library, outside this code. They are passed in rather than fixed.
- Chassis.Chassis.constructor: the model starts every motor neutral, as a motor controller does before its first command. The source does not set this itself.
- Looper groups (`Loops.GroupState`) count the `onFirstStart`, `onStart` and `onStop` callbacks a group sends. They do not record the callbacks' order, and they do not dispatch them to the Gyro and Chassis loops: no group holds those loops, so nothing links a group's stop count to `Chassis.Chassis.OnStop` neutralising the motors. The tags `Gyro.CollisionLoopTag` and `Chassis.DriveLoopTag` say which group each loop belongs to.
- RobotContainer.InitJoysticks: the controllers' names, which the hardware reports through `getName()`, and the library's default axes and tolerance are parameters. `registerJoystick(driver1, "driver1")` and `registerJoystick(driver2, "driver2")` store the controllers in the library's joystick map, which is outside this code; the model leaves the registration out.
