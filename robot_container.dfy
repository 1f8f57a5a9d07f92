/** The robot container's controller set-up and its shooter feeding guard.

    A controller reports a name; `initJoysticks` picks, from that name alone,
    which axes are the left and right sticks' X and Y (and, for one model, an
    axis tolerance) through a chain of tests tried in order: exact name
    equalities, and one case-insensitive test for "xbox" anywhere in the name.
    Both drivers' controllers go through the same chain. */
module RobotContainer {

  datatype Option<T> = None | Some(value: T)

  datatype Hand = Left | Right

  /** The axis indices `setXY` is given for each stick, and the tolerance
      `setAxisTolerance` is given, when a branch sets one. */
  datatype AxisLayout = AxisLayout(leftX: nat, leftY: nat, rightX: nat, rightY: nat, tolerance: Option<real>)

  const WirelessControllerLayout := AxisLayout(0, 1, 2, 5, None)
  const SonyLayout := AxisLayout(0, 1, 3, 4, None)
  const LogitechLayout := AxisLayout(2, 1, 0, 3, Some(0.01))
  const GenericUsbLayout := AxisLayout(0, 1, 2, 4, None)
  const XboxLayout := AxisLayout(0, 1, 4, 5, None)

  /** Lower-cases one character (ASCII letters only): an upper-case letter
      becomes the lower-case letter at the same place in the alphabet, and
      anything else is kept. */
  function LowerChar(c: char): (lower: char)
    ensures !('A' <= lower <= 'Z')
    ensures 'A' <= c <= 'Z' ==> 'a' <= lower <= 'z' && lower as int - 'a' as int == c as int - 'A' as int
    ensures !('A' <= c <= 'Z') ==> lower == c
  {
    if 'A' <= c <= 'Z' then (c as int + ('a' as int - 'A' as int)) as char else c
  }

  /** `toLowerCase()`, restricted to ASCII letters: same length, each
      upper-case letter replaced by its lower-case letter, and every other
      character kept in place. */
  function ToLower(s: string): (lower: string)
    ensures |lower| == |s|
    ensures forall i :: 0 <= i < |s| ==> !('A' <= lower[i] <= 'Z')
    ensures forall i :: 0 <= i < |s| && 'A' <= s[i] <= 'Z' ==>
              'a' <= lower[i] <= 'z' && lower[i] as int - 'a' as int == s[i] as int - 'A' as int
    ensures forall i :: 0 <= i < |s| && !('A' <= s[i] <= 'Z') ==> lower[i] == s[i]
  {
    seq(|s|, i requires 0 <= i < |s| => LowerChar(s[i]))
  }

  /** `sub` occurs in `s` starting at index `i`. */
  predicate OccursAt(s: string, sub: string, i: nat) {
    i + |sub| <= |s| && s[i..i + |sub|] == sub
  }

  /** `contains(sub)`: `s` splits into some prefix, `sub` and some suffix.
      The empty string occurs in every string, and nothing longer than `s`
      does. */
  function Contains(s: string, sub: string): (found: bool)
    ensures found <==> exists pre: string, post: string :: s == pre + sub + post
    ensures sub == [] ==> found
    ensures found ==> |sub| <= |s|
  {
    assert sub == [] ==> OccursAt(s, sub, 0);
    OccursIffSplits(s, sub);
    exists i: nat | i <= |s| :: OccursAt(s, sub, i)
  }

  /** An occurrence at some position is the same as a split of `s` around
      `sub`: the prefix is everything before the position. */
  lemma OccursIffSplits(s: string, sub: string)
    ensures (exists i: nat | i <= |s| :: OccursAt(s, sub, i)) <==>
            exists pre: string, post: string :: s == pre + sub + post
  {
    if i: nat :| i <= |s| && OccursAt(s, sub, i) {
      assert s == s[..i] + sub + s[i + |sub|..];
    }
    if pre: string, post: string :| s == pre + sub + post {
      assert s[|pre|..|pre| + |sub|] == sub;
      assert OccursAt(s, sub, |pre|);
    }
  }

  /** The layout `initJoysticks` applies to a controller with this name, or
      None when no branch matches and the controller is left as it was. */
  function SelectLayout(name: string): (layout: Option<AxisLayout>)
    ensures layout.Some? <==> name in ExactNames || Contains(ToLower(name), "xbox")
    ensures name in ExactNames ==> layout == Some(ExactNames[name])
  {
    if name == "Wireless Controller" then
      Some(WirelessControllerLayout)
    else if name == "Sony Computer Entertainment Wireless Controller"
         || name == "DragonRise Inc.   Generic   USB  Joystick" then
      Some(SonyLayout)
    else if name == "Logitech Extreme 3D" then
      Some(LogitechLayout)
    else if name == "Generic   USB  Joystick" then
      Some(GenericUsbLayout)
    else if Contains(ToLower(name), "xbox") || name == "Controller (Gamepad F310)" then
      Some(XboxLayout)
    else
      None
  }

  /** The names the chain recognises by exact (case-sensitive) equality. */
  const ExactNames: map<string, AxisLayout> := map[
    "Wireless Controller" := WirelessControllerLayout,
    "Sony Computer Entertainment Wireless Controller" := SonyLayout,
    "DragonRise Inc.   Generic   USB  Joystick" := SonyLayout,
    "Logitech Extreme 3D" := LogitechLayout,
    "Generic   USB  Joystick" := GenericUsbLayout,
    "Controller (Gamepad F310)" := XboxLayout
  ]

  /** The same choice read as a table: the exact name if it is one, else the
      case-insensitive "xbox" test. */
  function TableLayout(name: string): Option<AxisLayout> {
    if name in ExactNames then Some(ExactNames[name])
    else if Contains(ToLower(name), "xbox") then Some(XboxLayout)
    else None
  }

  /** The order of the chain does not matter: it agrees with the table for
      every name. */
  lemma SelectLayoutIsTable(name: string)
    ensures SelectLayout(name) == TableLayout(name)
  {
  }

  /** The layouts of the controllers the chain knows by name. The DragonRise
      pad's name ends with the generic joystick's name, but names are compared
      whole, so it gets the Sony layout. */
  lemma KnownControllerLayouts()
    ensures SelectLayout("Wireless Controller") == Some(AxisLayout(0, 1, 2, 5, None))
    ensures SelectLayout("Sony Computer Entertainment Wireless Controller") == Some(AxisLayout(0, 1, 3, 4, None))
    ensures SelectLayout("DragonRise Inc.   Generic   USB  Joystick") == Some(AxisLayout(0, 1, 3, 4, None))
    ensures SelectLayout("Logitech Extreme 3D") == Some(AxisLayout(2, 1, 0, 3, Some(0.01)))
    ensures SelectLayout("Generic   USB  Joystick") == Some(AxisLayout(0, 1, 2, 4, None))
    ensures SelectLayout("Controller (Gamepad F310)") == Some(AxisLayout(0, 1, 4, 5, None))
  {
  }

  /** Only the Logitech Extreme 3D gets an axis tolerance, and it is 0.01. */
  lemma OnlyLogitechSetsTolerance(name: string)
    ensures (SelectLayout(name).Some? && SelectLayout(name).value.tolerance.Some?) <==> name == "Logitech Extreme 3D"
    ensures name == "Logitech Extreme 3D" ==> SelectLayout(name).value.tolerance == Some(0.01)
  {
  }

  /** A controller is left unconfigured exactly when its name is none of the
      exact names and does not contain "xbox" in any case. */
  lemma UnconfiguredIff(name: string)
    ensures SelectLayout(name) == None <==> name !in ExactNames && !Contains(ToLower(name), "xbox")
  {
    SelectLayoutIsTable(name);
  }

  /** Every layout but the Logitech one puts the left stick on axes 0 and 1. */
  lemma LeftStickZeroOneExceptLogitech(name: string)
    requires SelectLayout(name).Some? && name != "Logitech Extreme 3D"
    ensures SelectLayout(name).value.leftX == 0 && SelectLayout(name).value.leftY == 1
  {
  }

  /** Outside the exact names, the choice ignores case: two names that
      lower-case alike get the same layout. The exact names do not: they are
      compared case-sensitively. */
  lemma XboxTestIgnoresCase(a: string, b: string)
    requires ToLower(a) == ToLower(b)
    requires a !in ExactNames && b !in ExactNames
    ensures SelectLayout(a) == SelectLayout(b)
  {
    SelectLayoutIsTable(a);
    SelectLayoutIsTable(b);
  }

  /** A name that does not contain a character cannot contain a string that
      starts with it. */
  lemma MissingFirstCharacter(s: string, sub: string)
    requires sub != [] && sub[0] !in s
    ensures !Contains(s, sub)
  {
  }

  /** An Xbox 360 pad as DirectInput names it gets the Xbox layout, though
      "XBOX" is upper-case in its name. */
  lemma Xbox360Layout()
    ensures SelectLayout("Controller (XBOX 360 For Windows)") == Some(XboxLayout)
  {
    var name := "Controller (XBOX 360 For Windows)";
    var lower := ToLower(name);
    assert lower[12] == LowerChar(name[12]) == 'x';
    assert lower[13] == LowerChar(name[13]) == 'b';
    assert lower[14] == LowerChar(name[14]) == 'o';
    assert lower[15] == LowerChar(name[15]) == 'x';
    assert lower[12..16] == "xbox";
    assert OccursAt(lower, "xbox", 12);
    assert name !in ExactNames;
    SelectLayoutIsTable(name);
  }

  /** Exact names are case-sensitive: a lower-cased "Wireless Controller" is
      not recognised (and contains no "xbox"), so it stays unconfigured. */
  lemma ExactNamesAreCaseSensitive()
    ensures SelectLayout("wireless controller") == None
  {
    var name := "wireless controller";
    assert ToLower(name) == name;
    MissingFirstCharacter(name, "xbox");
  }

  /** A joystick as the robot code configures it. */
  class JController {
    const port: nat
    const name: string
    var leftX: nat
    var leftY: nat
    var rightX: nat
    var rightY: nat
    var axisTolerance: real

    /** The library's default axes and tolerance are not part of this model;
        they are given here. */
    constructor (port: nat, name: string, leftX: nat, leftY: nat, rightX: nat, rightY: nat, axisTolerance: real)
      ensures this.port == port && this.name == name
      ensures this.leftX == leftX && this.leftY == leftY && this.rightX == rightX && this.rightY == rightY
      ensures this.axisTolerance == axisTolerance
    {
      this.port, this.name := port, name;
      this.leftX, this.leftY, this.rightX, this.rightY := leftX, leftY, rightX, rightY;
      this.axisTolerance := axisTolerance;
    }

    /** `setXY(hand, x, y)` */
    method SetXY(hand: Hand, x: nat, y: nat)
      modifies this
      ensures hand == Left ==> leftX == x && leftY == y && rightX == old(rightX) && rightY == old(rightY)
      ensures hand == Right ==> rightX == x && rightY == y && leftX == old(leftX) && leftY == old(leftY)
      ensures axisTolerance == old(axisTolerance)
    {
      match hand
      case Left => leftX, leftY := x, y;
      case Right => rightX, rightY := x, y;
    }

    /** `setAxisTolerance(tolerance)` */
    method SetAxisTolerance(tolerance: real)
      modifies this
      ensures axisTolerance == tolerance
      ensures leftX == old(leftX) && leftY == old(leftY) && rightX == old(rightX) && rightY == old(rightY)
    {
      axisTolerance := tolerance;
    }
  }

  /** One driver's block of `initJoysticks`: when the name selects a layout,
      both sticks get its axes and the tolerance is set if the layout has one;
      otherwise the controller is untouched. */
  method Configure(c: JController)
    modifies c
    ensures SelectLayout(c.name).None? ==> unchanged(c)
    ensures SelectLayout(c.name).Some? ==>
              var l := SelectLayout(c.name).value;
              c.leftX == l.leftX && c.leftY == l.leftY && c.rightX == l.rightX && c.rightY == l.rightY &&
              c.axisTolerance == (if l.tolerance.Some? then l.tolerance.value else old(c.axisTolerance))
  {
    var layout := SelectLayout(c.name);
    if layout.Some? {
      var l := layout.value;
      if l.tolerance.Some? {
        c.SetAxisTolerance(l.tolerance.value);
      }
      c.SetXY(Left, l.leftX, l.leftY);
      c.SetXY(Right, l.rightX, l.rightY);
    }
  }

  /** A controller's axes and tolerance, read as a layout. */
  function Setup(c: JController): AxisLayout
    reads c
  {
    AxisLayout(c.leftX, c.leftY, c.rightX, c.rightY, Some(c.axisTolerance))
  }

  /** The set-up a controller named `name` ends with when it started as
      `before`: the selected layout's axes, and its tolerance if it has one;
      `before` unchanged when no layout is selected. */
  function Configured(name: string, before: AxisLayout): AxisLayout {
    match SelectLayout(name)
    case None => before
    case Some(l) =>
      AxisLayout(l.leftX, l.leftY, l.rightX, l.rightY, if l.tolerance.Some? then l.tolerance else before.tolerance)
  }

  /** `initJoysticks`: creates driver 1 on port 0 and driver 2 on port 1,
      named as the hardware reports them and starting from the library's
      default axes and tolerance, then configures each by the same chain. */
  method InitJoysticks(name1: string, name2: string, leftX: nat, leftY: nat, rightX: nat, rightY: nat, tolerance: real)
    returns (driver1: JController, driver2: JController)
    ensures driver1.port == 0 && driver1.name == name1
    ensures driver2.port == 1 && driver2.name == name2
    ensures driver1 != driver2
    ensures Setup(driver1) == Configured(name1, AxisLayout(leftX, leftY, rightX, rightY, Some(tolerance)))
    ensures Setup(driver2) == Configured(name2, AxisLayout(leftX, leftY, rightX, rightY, Some(tolerance)))
  {
    driver1 := new JController(0, name1, leftX, leftY, rightX, rightY, tolerance);
    driver2 := new JController(1, name2, leftX, leftY, rightX, rightY, tolerance);
    Configure(driver1);
    Configure(driver2);
  }

  /** A command sent to the indexer: the two indexer motors' speeds, or the
      two pulley motors' speeds. */
  datatype IndexerCommand = IndexerSpeed(left: real, right: real) | PulleySpeed(left: real, right: real)

  /** The indexer as the feeding command sees it: the commands sent to it. */
  class Indexer {
    var commands: seq<IndexerCommand>

    constructor ()
      ensures commands == []
    {
      commands := [];
    }

    method SetIndexerSpeed(left: real, right: real)
      modifies this
      ensures commands == old(commands) + [IndexerSpeed(left, right)]
    {
      commands := commands + [IndexerSpeed(left, right)];
    }

    method SetPulleySpeed(left: real, right: real)
      modifies this
      ensures commands == old(commands) + [PulleySpeed(left, right)]
    {
      commands := commands + [PulleySpeed(left, right)];
    }
  }

  /** `startFeeding`, given whether the shooter reports it is on target:
      nothing is sent to the indexer unless it is; then both the indexer and
      the pulley are run at full speed. */
  method StartFeeding(indexer: Indexer, shooterOnTarget: bool)
    modifies indexer
    ensures !shooterOnTarget ==> unchanged(indexer)
    ensures shooterOnTarget ==> indexer.commands == old(indexer.commands) + [IndexerSpeed(1.0, 1.0), PulleySpeed(1.0, 1.0)]
  {
    if !shooterOnTarget {
      return;
    }
    indexer.SetIndexerSpeed(1.0, 1.0);
    indexer.SetPulleySpeed(1.0, 1.0);
  }
}
