/** The drive subsystem: arcade mixing onto two Falcon motors per side, and
    the teleop drive loop that feeds it from the driver's sticks.

    Each front motor is sent a percent-output demand together with an
    arbitrary feed-forward term; the back motor of each side follows its front
    motor. The model keeps the last demand each motor was given. */
module Chassis {
  import Loops
  import Modes
  import Hardware

  /** A percent-output demand with an arbitrary feed-forward term. */
  datatype Demand = Demand(output: real, feedForward: real)

  /** The neutral demand. */
  const Neutral := Demand(0.0, 0.0)

  /** The demands of the left and right sides. */
  datatype SideDemands = SideDemands(left: Demand, right: Demand)

  /** The shape every arcade command has: the same primary demand on both
      sides, and feed-forward terms that are each other's negatives. */
  predicate IsArcade(d: SideDemands) {
    d.left.output == d.right.output && d.left.feedForward == -d.right.feedForward
  }

  /** The (forward, rotation) pair an arcade command was made from. */
  function ArcadeInputs(d: SideDemands): (real, real) {
    (d.left.output, d.right.feedForward)
  }

  /** `arcadeDrive(forward, rotation)`: the demands it sends. They have the
      arcade shape and give back exactly the inputs: forward on both sides,
      minus the rotation as feed-forward on the left and plus it on the right. */
  function ArcadeMix(forward: real, rotation: real): (d: SideDemands)
    ensures IsArcade(d) && ArcadeInputs(d) == (forward, rotation)
    ensures d.left.feedForward == -rotation
  {
    SideDemands(Demand(forward, -rotation), Demand(forward, rotation))
  }

  /** Every command of the arcade shape is produced by exactly one input
      pair, the one `ArcadeInputs` reads back. */
  lemma ArcadeMixOnto(d: SideDemands)
    requires IsArcade(d)
    ensures ArcadeMix(ArcadeInputs(d).0, ArcadeInputs(d).1) == d
  {
  }

  /** Different inputs never give the same command. */
  lemma ArcadeMixInjective(f1: real, r1: real, f2: real, r2: real)
    requires ArcadeMix(f1, r1) == ArcadeMix(f2, r2)
    ensures f1 == f2 && r1 == r2
  {
    assert ArcadeInputs(ArcadeMix(f1, r1)) == ArcadeInputs(ArcadeMix(f2, r2));
  }

  /** With no rotation both sides get the identical demand (forward, 0). */
  lemma ZeroRotationDrivesStraight(forward: real)
    ensures ArcadeMix(forward, 0.0).left == ArcadeMix(forward, 0.0).right == Demand(forward, 0.0)
  {
  }

  /** Negating the rotation swaps the two sides' demands. */
  lemma OppositeRotationMirrors(forward: real, rotation: real)
    ensures ArcadeMix(forward, -rotation).left == ArcadeMix(forward, rotation).right
    ensures ArcadeMix(forward, -rotation).right == ArcadeMix(forward, rotation).left
  {
  }

  /** The drive loop's `getType()`: it belongs to the TELEOP group, so it
      runs in teleop and in no other mode. */
  function DriveLoopTag(): (t: Loops.LoopType)
    ensures forall m :: Modes.ShouldRun(m, t) <==> m == Modes.Teleop
  {
    Loops.Teleop
  }

  class Chassis {
    var frontLeft: Demand
    var frontRight: Demand
    var backLeft: Demand
    var backRight: Demand
    const navX: Hardware.AHRS

    /** Each back motor follows its front motor, and the front motors carry
        an arcade command: equal primary demands, opposite feed-forwards. */
    ghost predicate Valid()
      reads this
    {
      backLeft == frontLeft && backRight == frontRight && IsArcade(Demands())
    }

    /** The demands of the two front (leading) motors. */
    function Demands(): SideDemands
      reads this
    {
      SideDemands(frontLeft, frontRight)
    }

    /** All four motors start out neutral. */
    constructor (navX: Hardware.AHRS)
      ensures Valid() && this.navX == navX
      ensures frontLeft == frontRight == Neutral
    {
      this.navX := navX;
      frontLeft, frontRight := Neutral, Neutral;
      backLeft, backRight := Neutral, Neutral;
    }

    /** `arcadeDrive`: sends each front motor its demand; the back motors follow. */
    method ArcadeDrive(forward: real, rotation: real)
      modifies this
      ensures Valid()
      ensures Demands() == ArcadeMix(forward, rotation)
    {
      frontLeft := Demand(forward, -rotation);
      backLeft := frontLeft;
      frontRight := Demand(forward, rotation);
      backRight := frontRight;
    }

    /** `onFirstStart`: resets the sensor; the motors are left alone. */
    method OnFirstStart()
      modifies navX
      ensures navX.calls == old(navX.calls) + [Hardware.Reset]
      ensures unchanged(this)
    {
      navX.Reset();
    }

    /** `onStart`: zeroes the yaw; the motors are left alone. */
    method OnStart()
      modifies navX
      ensures navX.calls == old(navX.calls) + [Hardware.ZeroYaw]
      ensures unchanged(this)
    {
      navX.ZeroYaw();
    }

    /** `onLoop`, given whether the orchestra is playing and the driver's left
        stick Y and right stick X this tick. While music plays the robot must
        not move, so the motors keep their last demands. */
    method OnLoop(orchestraPlaying: bool, leftY: real, rightX: real)
      requires Valid()
      modifies this
      ensures Valid()
      ensures orchestraPlaying ==> unchanged(this)
      ensures !orchestraPlaying ==> Demands() == ArcadeMix(leftY, rightX)
    {
      if orchestraPlaying {
        return;
      }
      ArcadeDrive(leftY, rightX);
    }

    /** `onStop`: whatever was commanded before, every motor ends up neutral. */
    method OnStop()
      modifies this
      ensures Valid()
      ensures frontLeft == frontRight == backLeft == backRight == Neutral
    {
      ArcadeDrive(0.0, 0.0);
    }
  }
}
