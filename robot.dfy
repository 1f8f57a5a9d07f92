/** The robot's mode changes: each of the four mode-entry methods starts some
    looper groups and stops the others, and the robot's constructor claims
    the static "current robot" slot if it is still empty. */
module Robot {
  import Loops
  import opened Modes
  import Gyro
  import Chassis

  /** The state of the four looper groups. */
  datatype Groups = Groups(enabled: Loops.GroupState, teleop: Loops.GroupState,
                           auto: Loops.GroupState, disabled: Loops.GroupState)

  const AllNeverStarted := Groups(Loops.NeverStarted, Loops.NeverStarted, Loops.NeverStarted, Loops.NeverStarted)

  function Group(gs: Groups, t: Loops.LoopType): Loops.GroupState {
    match t
    case Enabled => gs.enabled
    case Teleop => gs.teleop
    case Auto => gs.auto
    case Disabled => gs.disabled
  }

  predicate AllConsistent(gs: Groups) {
    forall t :: Loops.Consistent(Group(gs, t))
  }

  /** The effect of the mode's entry method on the four groups: the
      `start()`/`stop()` call that method makes on each. */
  function Transition(m: Mode, gs: Groups): (r: Groups)
    ensures forall t :: Group(r, t).running == ShouldRun(m, t)
  {
    match m
    case Disabled =>
      Groups(Loops.StopGroup(gs.enabled), Loops.StopGroup(gs.teleop),
             Loops.StopGroup(gs.auto), Loops.StartGroup(gs.disabled))
    case Autonomous =>
      Groups(Loops.StartGroup(gs.enabled), Loops.StopGroup(gs.teleop),
             Loops.StartGroup(gs.auto), Loops.StopGroup(gs.disabled))
    case Teleop =>
      Groups(Loops.StartGroup(gs.enabled), Loops.StartGroup(gs.teleop),
             Loops.StopGroup(gs.auto), Loops.StopGroup(gs.disabled))
    case Test =>
      Groups(Loops.StopGroup(gs.enabled), Loops.StopGroup(gs.teleop),
             Loops.StopGroup(gs.auto), Loops.StopGroup(gs.disabled))
  }

  /** Every entry method starts exactly the groups the table names and stops
      all the others; so which groups run afterwards is fixed by the mode
      alone, whatever ran before. */
  lemma TransitionFollowsTable(m: Mode, gs: Groups, t: Loops.LoopType)
    ensures Group(Transition(m, gs), t) ==
              if ShouldRun(m, t) then Loops.StartGroup(Group(gs, t)) else Loops.StopGroup(Group(gs, t))
    ensures Group(Transition(m, gs), t).running == ShouldRun(m, t)
  {
  }

  /** Entering a mode keeps every group's lifecycle well formed. */
  lemma TransitionKeepsConsistent(m: Mode, gs: Groups)
    requires AllConsistent(gs)
    ensures AllConsistent(Transition(m, gs))
  {
    forall t ensures Loops.Consistent(Group(Transition(m, gs), t)) {
      TransitionFollowsTable(m, gs, t);
    }
  }

  /** Entering the same mode twice is the same as entering it once. */
  lemma TransitionIdempotent(m: Mode, gs: Groups)
    ensures Transition(m, Transition(m, gs)) == Transition(m, gs)
  {
  }

  /** ENABLED runs exactly in the two driving modes, and at most one of AUTO,
      TELEOP and DISABLED runs. */
  lemma ModeGroupsExclusive(m: Mode, gs: Groups)
    ensures Transition(m, gs).enabled.running <==> m == Autonomous || m == Teleop
    ensures !(Transition(m, gs).auto.running && Transition(m, gs).teleop.running)
    ensures !(Transition(m, gs).auto.running && Transition(m, gs).disabled.running)
    ensures !(Transition(m, gs).teleop.running && Transition(m, gs).disabled.running)
  {
  }

  /** The collision detector, tagged ENABLED, runs exactly in autonomous and
      teleop. */
  lemma CollisionLoopRunsWhileEnabled(m: Mode, gs: Groups)
    ensures Group(Transition(m, gs), Gyro.CollisionLoopTag()).running <==> m == Autonomous || m == Teleop
  {
  }

  /** The drive loop, tagged TELEOP, runs only in teleop; entering any other
      mode stops its group, which counts one more `onStop` if it was running. */
  lemma DriveLoopRunsOnlyInTeleop(m: Mode, gs: Groups)
    ensures Group(Transition(m, gs), Chassis.DriveLoopTag()).running <==> m == Teleop
    ensures m != Teleop && Group(gs, Chassis.DriveLoopTag()).running ==>
              Group(Transition(m, gs), Chassis.DriveLoopTag()).stops == Group(gs, Chassis.DriveLoopTag()).stops + 1
  {
  }

  /** The state after entering each mode of `modes` in turn. */
  function RunModes(modes: seq<Mode>, gs: Groups): Groups
    decreases |modes|
  {
    if modes == [] then gs else RunModes(modes[1..], Transition(modes[0], gs))
  }

  /** Some mode of `modes` wants group `t` running. */
  predicate EverWanted(modes: seq<Mode>, t: Loops.LoopType) {
    exists i :: 0 <= i < |modes| && ShouldRun(modes[i], t)
  }

  /** Over any sequence of mode changes, every group's lifecycle stays well
      formed, and its loops get `onFirstStart` exactly once if some mode
      wanted the group running, and never otherwise. */
  lemma {:induction false} FirstStartOncePerGroup(modes: seq<Mode>, t: Loops.LoopType)
    ensures AllConsistent(RunModes(modes, AllNeverStarted))
    ensures Group(RunModes(modes, AllNeverStarted), t).firstStarts == if EverWanted(modes, t) then 1 else 0
  {
    RunModesConsistent(modes, AllNeverStarted, t);
  }

  lemma {:induction false} RunModesConsistent(modes: seq<Mode>, gs: Groups, t: Loops.LoopType)
    requires AllConsistent(gs)
    ensures AllConsistent(RunModes(modes, gs))
    ensures Group(RunModes(modes, gs), t).starts > 0 <==> Group(gs, t).starts > 0 || EverWanted(modes, t)
    decreases |modes|
  {
    if modes != [] {
      var gs' := Transition(modes[0], gs);
      TransitionKeepsConsistent(modes[0], gs);
      TransitionFollowsTable(modes[0], gs, t);
      assert Group(gs', t).starts > 0 <==> Group(gs, t).starts > 0 || ShouldRun(modes[0], t);
      RunModesConsistent(modes[1..], gs', t);
      if EverWanted(modes, t) && !ShouldRun(modes[0], t) {
        var i :| 0 <= i < |modes| && ShouldRun(modes[i], t);
        assert modes[1..][i - 1] == modes[i];
      }
      if EverWanted(modes[1..], t) {
        var i :| 0 <= i < |modes[1..]| && ShouldRun(modes[1..][i], t);
        assert modes[i + 1] == modes[1..][i];
      }
    }
  }

  /** Disabled, then teleop, then disabled again: the drive loop's group
      (TELEOP) was started once and stopped once, so its loops got exactly one
      `onStop`, and it is not running. */
  lemma DisabledTeleopDisabled()
    ensures Group(RunModes([Disabled, Teleop, Disabled], AllNeverStarted), Loops.Teleop) ==
              Loops.GroupState(false, 1, 1, 1)
  {
    var s0 := AllNeverStarted;
    var s1 := Transition(Disabled, s0);
    var s2 := Transition(Teleop, s1);
    var s3 := Transition(Disabled, s2);
    assert RunModes([Disabled, Teleop, Disabled], s0) == RunModes([Teleop, Disabled], s1)
      == RunModes([Disabled], s2) == s3 by {
      assert [Disabled, Teleop, Disabled][1..] == [Teleop, Disabled];
      assert [Teleop, Disabled][1..] == [Disabled];
    }
  }

  /** The class's static field `instance`. */
  class RobotStatics {
    var instance: Robot?

    constructor ()
      ensures instance == null
    {
      instance := null;
    }

    /** `getInstance()`; changes nothing. */
    method GetInstance() returns (r: Robot?)
      ensures r == instance
    {
      r := instance;
    }
  }

  class Robot {
    /** The container's four looper groups, one per loop tag. */
    const enabledLoops: Loops.Looper
    const teleopLoops: Loops.Looper
    const autoLoops: Loops.Looper
    const disabledLoops: Loops.Looper

    /** `getLooper(type)`: the group that holds the loops tagged `t`. */
    function GetLooper(t: Loops.LoopType): (l: Loops.Looper)
      reads this, enabledLoops, teleopLoops, autoLoops, disabledLoops
      ensures l.state == Group(GroupStates(), t)
    {
      match t
      case Enabled => enabledLoops
      case Teleop => teleopLoops
      case Auto => autoLoops
      case Disabled => disabledLoops
    }

    ghost predicate Valid()
      reads this, enabledLoops, teleopLoops, autoLoops, disabledLoops
    {
      enabledLoops != teleopLoops && enabledLoops != autoLoops && enabledLoops != disabledLoops &&
      teleopLoops != autoLoops && teleopLoops != disabledLoops && autoLoops != disabledLoops &&
      AllConsistent(GroupStates())
    }

    function GroupStates(): Groups
      reads this, enabledLoops, teleopLoops, autoLoops, disabledLoops
    {
      Groups(enabledLoops.state, teleopLoops.state, autoLoops.state, disabledLoops.state)
    }

    /** Builds the container's groups, none of them started, and becomes the
        static instance only if there is none yet. */
    constructor (statics: RobotStatics)
      modifies statics
      ensures Valid() && GroupStates() == AllNeverStarted
      ensures fresh(enabledLoops) && fresh(teleopLoops) && fresh(autoLoops) && fresh(disabledLoops)
      ensures old(statics.instance) == null ==> statics.instance == this
      ensures old(statics.instance) != null ==> statics.instance == old(statics.instance)
    {
      enabledLoops := new Loops.Looper();
      teleopLoops := new Loops.Looper();
      autoLoops := new Loops.Looper();
      disabledLoops := new Loops.Looper();
      new;
      if statics.instance == null {
        statics.instance := this;
      }
    }

    /** `disabledInit` */
    method DisabledInit()
      requires Valid()
      modifies enabledLoops, teleopLoops, autoLoops, disabledLoops
      ensures Valid() && GroupStates() == Transition(Disabled, old(GroupStates()))
    {
      GetLooper(Loops.Enabled).Stop();
      GetLooper(Loops.Teleop).Stop();
      GetLooper(Loops.Auto).Stop();
      GetLooper(Loops.Disabled).Start();
      TransitionKeepsConsistent(Disabled, old(GroupStates()));
    }

    /** `autonomousInit` */
    method AutonomousInit()
      requires Valid()
      modifies enabledLoops, teleopLoops, autoLoops, disabledLoops
      ensures Valid() && GroupStates() == Transition(Autonomous, old(GroupStates()))
    {
      GetLooper(Loops.Enabled).Start();
      GetLooper(Loops.Teleop).Stop();
      GetLooper(Loops.Auto).Start();
      GetLooper(Loops.Disabled).Stop();
      TransitionKeepsConsistent(Autonomous, old(GroupStates()));
    }

    /** `teleopInit` */
    method TeleopInit()
      requires Valid()
      modifies enabledLoops, teleopLoops, autoLoops, disabledLoops
      ensures Valid() && GroupStates() == Transition(Teleop, old(GroupStates()))
    {
      GetLooper(Loops.Enabled).Start();
      GetLooper(Loops.Teleop).Start();
      GetLooper(Loops.Auto).Stop();
      GetLooper(Loops.Disabled).Stop();
      TransitionKeepsConsistent(Teleop, old(GroupStates()));
    }

    /** `testInit` */
    method TestInit()
      requires Valid()
      modifies enabledLoops, teleopLoops, autoLoops, disabledLoops
      ensures Valid() && GroupStates() == Transition(Test, old(GroupStates()))
    {
      GetLooper(Loops.Enabled).Stop();
      GetLooper(Loops.Teleop).Stop();
      GetLooper(Loops.Auto).Stop();
      GetLooper(Loops.Disabled).Stop();
      TransitionKeepsConsistent(Test, old(GroupStates()));
    }
  }

  /** Two robots built one after the other: the first one stays the instance. */
  method FirstRobotStaysInstance(statics: RobotStatics) returns (first: Robot, second: Robot)
    requires statics.instance == null
    modifies statics
    ensures statics.instance == first && first != second
  {
    first := new Robot(statics);
    second := new Robot(statics);
  }
}
