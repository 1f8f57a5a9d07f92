/** Loop groups of the robot's looper library (lib6647.loops).

    The library itself is not part of this model. What is here is the contract
    the robot code relies on when it calls `start()` and `stop()` on a group:
    a group is either running or not, starting a running group and stopping a
    stopped one do nothing, and the loops of a group receive `onFirstStart`
    once, on the group's first start. The model counts the callbacks a group
    sends; it does not record their order. */
module Loops {

  /** The tag a loop reports from `getType()`; the looper keeps one group per tag. */
  datatype LoopType = Enabled | Teleop | Auto | Disabled

  /** What the loops of one group have been told so far: whether the group is
      running, and how many times `onFirstStart`, `onStart` and `onStop` went out. */
  datatype GroupState = GroupState(running: bool, firstStarts: nat, starts: nat, stops: nat)

  /** A group that was never started. */
  const NeverStarted := GroupState(false, 0, 0, 0)

  /** The lifecycle is well formed: `onFirstStart` went out exactly once if any
      `onStart` did (and never otherwise), and there have been as many
      `onStop`s as `onStart`s, or one fewer while the group runs. */
  predicate Consistent(g: GroupState) {
    g.firstStarts == (if g.starts == 0 then 0 else 1) &&
    g.starts == g.stops + (if g.running then 1 else 0)
  }

  /** `start()` on a group. */
  function StartGroup(g: GroupState): (r: GroupState)
    ensures r.running
    ensures g.running ==> r == g
    ensures !g.running ==> r.starts == g.starts + 1 && r.stops == g.stops
    ensures Consistent(g) ==> Consistent(r) && r.starts > 0 && r.firstStarts == 1
  {
    if g.running then g
    else GroupState(true, g.firstStarts + (if g.starts == 0 then 1 else 0), g.starts + 1, g.stops)
  }

  /** `stop()` on a group. */
  function StopGroup(g: GroupState): (r: GroupState)
    ensures !r.running
    ensures !g.running ==> r == g
    ensures g.running ==> r.stops == g.stops + 1 && r.starts == g.starts && r.firstStarts == g.firstStarts
    ensures Consistent(g) ==> Consistent(r)
  {
    if g.running then g.(running := false, stops := g.stops + 1) else g
  }

  datatype Call = Start | Stop

  function Apply(c: Call, g: GroupState): GroupState {
    match c
    case Start => StartGroup(g)
    case Stop => StopGroup(g)
  }

  /** The state of a group after the calls, in order. */
  function ApplyAll(calls: seq<Call>, g: GroupState): GroupState
    decreases |calls|
  {
    if calls == [] then g else ApplyAll(calls[1..], Apply(calls[0], g))
  }

  /** Whatever sequence of `start()`/`stop()` calls reaches a group, its
      lifecycle stays well formed; in particular `onFirstStart` goes out at most
      once, and exactly once when some `start()` was ever made. */
  lemma {:induction false} FirstStartOnce(calls: seq<Call>, g: GroupState)
    requires Consistent(g)
    ensures Consistent(ApplyAll(calls, g))
    ensures ApplyAll(calls, g).firstStarts == (if g.starts > 0 || Start in calls then 1 else 0)
    decreases |calls|
  {
    if calls != [] {
      var g' := Apply(calls[0], g);
      assert Consistent(g');
      assert g'.starts > 0 <==> g.starts > 0 || calls[0] == Start;
      FirstStartOnce(calls[1..], g');
      assert Start in calls <==> calls[0] == Start || Start in calls[1..] by {
        assert calls == [calls[0]] + calls[1..];
      }
    }
  }

  /** After a non-empty sequence of calls a group runs exactly when the last
      call was `start()`: earlier calls leave no trace in the running flag. */
  lemma {:induction false} LastCallDecides(calls: seq<Call>, g: GroupState)
    requires calls != []
    ensures ApplyAll(calls, g).running == (calls[|calls| - 1] == Start)
    decreases |calls|
  {
    if |calls| > 1 {
      LastCallDecides(calls[1..], Apply(calls[0], g));
    }
  }

  /** One looper group, as the robot code sees it. */
  class Looper {
    var state: GroupState

    constructor ()
      ensures state == NeverStarted
    {
      state := NeverStarted;
    }

    method Start()
      modifies this
      ensures state == StartGroup(old(state))
    {
      if !state.running {
        var first := if state.starts == 0 then 1 else 0;
        state := GroupState(true, state.firstStarts + first, state.starts + 1, state.stops);
      }
    }

    method Stop()
      modifies this
      ensures state == StopGroup(old(state))
    {
      if state.running {
        state := state.(running := false, stops := state.stops + 1);
      }
    }
  }
}
