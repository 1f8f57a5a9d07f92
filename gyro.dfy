/** Collision detection in the gyro subsystem's loop.

    Every tick the loop reads the world-frame linear acceleration on the X and
    Y axes, forms each axis's jerk as the new sample minus the previous one,
    keeps the new sample as the previous one, and flags a collision exactly
    when either jerk is strictly larger in magnitude than the threshold. The
    flag is recomputed from scratch every tick. */
module Gyro {
  import Loops
  import Modes
  import Hardware

  /** `Constants.GyroConstants.collisionThresholdDeltaG` (0.25f, which is exact). */
  const CollisionThresholdDeltaG: real := 0.25

  /** One reading of the world-frame linear acceleration, in g. */
  datatype Sample = Sample(x: real, y: real)

  /** The previous-sample fields before the first tick. */
  const Origin := Sample(0.0, 0.0)

  function Abs(v: real): real {
    if v < 0.0 then -v else v
  }

  /** The collision test between two consecutive samples: the jerk on X or
      on Y is larger in magnitude than the threshold. Only a change can be a
      collision, and the test reads the same with the samples swapped. */
  function Jolted(prev: Sample, cur: Sample): (jolted: bool)
    ensures jolted ==> prev != cur
    ensures jolted == (Abs(prev.x - cur.x) > CollisionThresholdDeltaG || Abs(prev.y - cur.y) > CollisionThresholdDeltaG)
  {
    Abs(cur.x - prev.x) > CollisionThresholdDeltaG || Abs(cur.y - prev.y) > CollisionThresholdDeltaG
  }

  /** The sample that tick `i` of `samples` compares against: the stored one
      before the first tick, the tick before it afterwards. */
  function Previous(start: Sample, samples: seq<Sample>, i: nat): Sample
    requires i <= |samples|
  {
    if i == 0 then start else samples[i - 1]
  }

  /** The collision flag after each of a run of ticks that begins with
      `start` as the stored previous sample. */
  function Flags(start: Sample, samples: seq<Sample>): (flags: seq<bool>)
    ensures |flags| == |samples|
    ensures forall i :: 0 <= i < |samples| ==> flags[i] == Jolted(Previous(start, samples, i), samples[i])
    decreases |samples|
  {
    if samples == [] then []
    else [Jolted(start, samples[0])] + Flags(samples[0], samples[1..])
  }

  /** A jerk exactly at the threshold on one axis, and no larger on the other,
      is not a collision: the comparison is strict. */
  lemma ThresholdIsStrict(prev: Sample, cur: Sample)
    requires Abs(cur.x - prev.x) == CollisionThresholdDeltaG
    requires Abs(cur.y - prev.y) <= CollisionThresholdDeltaG
    ensures !Jolted(prev, cur)
  {
  }

  /** Constant acceleration: whatever the first tick reports, every later tick
      sees zero jerk and reports no collision. */
  lemma ConstantAccelerationNeverCollides(start: Sample, samples: seq<Sample>)
    requires forall i :: 0 <= i < |samples| ==> samples[i] == samples[0]
    ensures forall i :: 1 <= i < |samples| ==> !Flags(start, samples)[i]
  {
    forall i | 1 <= i < |samples|
      ensures !Flags(start, samples)[i]
    {
      assert Previous(start, samples, i) == samples[i - 1] == samples[0] == samples[i];
    }
  }

  /** An isolated spike: the stream stays at `base` except for one sample
      `spike` that differs from it by more than the threshold. Because the
      test is on the jerk, the flag is raised on the spike's tick AND on the
      tick that returns to the baseline, and on no other. */
  lemma IsolatedSpikeFlagsTwoTicks(base: Sample, spike: Sample, samples: seq<Sample>, k: nat)
    requires k < |samples|
    requires samples[k] == spike
    requires forall i :: 0 <= i < |samples| && i != k ==> samples[i] == base
    requires Jolted(base, spike)
    ensures forall i :: 0 <= i < |samples| ==> (Flags(base, samples)[i] <==> i == k || i == k + 1)
  {
    forall i | 0 <= i < |samples|
      ensures Flags(base, samples)[i] <==> i == k || i == k + 1
    {
      var p := Previous(base, samples, i);
      if i == k {
        assert p == base;
      } else if i == k + 1 {
        assert p == spike;
      } else {
        assert p == base && samples[i] == base;
      }
    }
  }

  /** The collision loop's `getType()`: it belongs to the ENABLED group, so
      it runs in autonomous and in teleop and in no other mode. */
  function CollisionLoopTag(): (t: Loops.LoopType)
    ensures forall m :: Modes.ShouldRun(m, t) <==> m == Modes.Autonomous || m == Modes.Teleop
  {
    Loops.Enabled
  }

  /** The gyro subsystem: the loop's working state and the sensor it reads. */
  class Gyro {
    var lastWorldLinearAccelX: real
    var lastWorldLinearAccelY: real
    var collisionDetected: bool
    const navX: Hardware.AHRS

    /** Every sample read so far, across all start/stop cycles. */
    ghost var samples: seq<Sample>

    /** The fields are what the run of ticks so far leaves behind: the last
        sample (the origin before any tick) and the flag of the last tick. */
    ghost predicate Valid()
      reads this
    {
      Sample(lastWorldLinearAccelX, lastWorldLinearAccelY) == Previous(Origin, samples, |samples|) &&
      collisionDetected == (samples != [] && Flags(Origin, samples)[|samples| - 1])
    }

    constructor (navX: Hardware.AHRS)
      ensures Valid() && samples == [] && this.navX == navX
      ensures lastWorldLinearAccelX == 0.0 && lastWorldLinearAccelY == 0.0 && !collisionDetected
    {
      this.navX := navX;
      lastWorldLinearAccelX, lastWorldLinearAccelY := 0.0, 0.0;
      collisionDetected := false;
      samples := [];
    }

    /** Whether the last tick flagged a collision; changes nothing. */
    method DidCollide() returns (collided: bool)
      requires Valid()
      ensures collided == collisionDetected
      ensures collided <==> samples != [] && Flags(Origin, samples)[|samples| - 1]
    {
      collided := collisionDetected;
    }

    /** `onFirstStart`: resets the sensor; the detector state is left alone. */
    method OnFirstStart()
      modifies navX
      ensures navX.calls == old(navX.calls) + [Hardware.Reset]
      ensures unchanged(this)
    {
      navX.Reset();
    }

    /** `onStart`: zeroes the yaw; the detector state is left alone, so the
        first tick after a restart compares against the last sample before
        the stop. */
    method OnStart()
      modifies navX
      ensures navX.calls == old(navX.calls) + [Hardware.ZeroYaw]
      ensures unchanged(this)
    {
      navX.ZeroYaw();
    }

    /** `onStop` only reports; nothing changes. */
    method OnStop()
      ensures unchanged(this) && unchanged(navX)
    {
    }

    /** `onLoop`, given the two accelerations the sensor reports this tick. */
    method OnLoop(accelX: real, accelY: real)
      requires Valid()
      modifies this
      ensures Valid()
      ensures samples == old(samples) + [Sample(accelX, accelY)]
      ensures lastWorldLinearAccelX == accelX && lastWorldLinearAccelY == accelY
      ensures collisionDetected <==>
                Abs(accelX - old(lastWorldLinearAccelX)) > CollisionThresholdDeltaG ||
                Abs(accelY - old(lastWorldLinearAccelY)) > CollisionThresholdDeltaG
    {
      ghost var prev := Sample(lastWorldLinearAccelX, lastWorldLinearAccelY);
      collisionDetected := false;

      var currentWorldLinearAccelX := accelX;
      var currentJerkX := currentWorldLinearAccelX - lastWorldLinearAccelX;
      lastWorldLinearAccelX := currentWorldLinearAccelX;

      var currentWorldLinearAccelY := accelY;
      var currentJerkY := currentWorldLinearAccelY - lastWorldLinearAccelY;
      lastWorldLinearAccelY := currentWorldLinearAccelY;

      if Abs(currentJerkX) > CollisionThresholdDeltaG || Abs(currentJerkY) > CollisionThresholdDeltaG {
        collisionDetected := true;
      }

      samples := samples + [Sample(accelX, accelY)];
      assert Previous(Origin, samples, |samples| - 1) == prev;
    }
  }
}
