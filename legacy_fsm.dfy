/** The legacy engine state machine: a current state and a transition
    operation that records where it came from. Unlike the router's guard,
    a transition to the current state is not suppressed. */
module LegacyFsm {

  datatype State = Hidden | Idle | Touching | Sliding | GestureCandidate | Committing | Cancelled

  datatype Transition = Transition(from: State, to: State, reason: string)

  /** Where a trace starting at start stands after its first i transitions. */
  function StateAfter(start: State, steps: seq<Transition>, i: int): State
    requires 0 <= i <= |steps|
  {
    if i == 0 then start else steps[i - 1].to
  }

  /** A trace of transitions is chained: each starts where the previous ended. */
  predicate Chained(start: State, steps: seq<Transition>) {
    forall i :: 0 <= i < |steps| ==> steps[i].from == StateAfter(start, steps, i)
  }

  /** A transition from where a chained trace ended extends it. */
  lemma ChainedSnoc(start: State, steps: seq<Transition>, t: Transition)
    requires Chained(start, steps)
    requires t.from == StateAfter(start, steps, |steps|)
    ensures Chained(start, steps + [t])
  {
    var all := steps + [t];
    forall i | 0 <= i < |all|
      ensures all[i].from == StateAfter(start, all, i)
    {
      if i > 0 {
        assert all[i - 1] == steps[i - 1];
      }
      if i < |steps| {
        assert all[i] == steps[i];
      }
    }
  }

  class StateMachine {
    var state: State

    constructor ()
      ensures state == Idle
    {
      state := Idle;
    }

    /** state(): the current state; reading it changes nothing. */
    function CurrentState(): (s: State)
      reads this
      ensures s == state
    {
      state
    }

    method TransitionTo(next: State, reason: string) returns (t: Transition)
      modifies this
      ensures t == Transition(old(state), next, reason)
      ensures state == next
    {
      t := Transition(state, next, reason);
      state := next;
    }
  }

  /** The state test: Idle, then Touching, then Committing, one step per call,
      each transition starting where the previous one ended. */
  method StateTransitionsScenario() returns (trace: seq<State>, steps: seq<Transition>)
    ensures trace == [Idle, Touching, Committing]
    ensures steps == [Transition(Idle, Touching, "test_down"), Transition(Touching, Committing, "test_commit")]
    ensures Chained(Idle, steps)
  {
    var machine := new StateMachine();
    var s0 := machine.CurrentState();
    var t1 := machine.TransitionTo(Touching, "test_down");
    var s1 := machine.CurrentState();
    var t2 := machine.TransitionTo(Committing, "test_commit");
    var s2 := machine.CurrentState();
    trace := [s0, s1, s2];
    steps := [t1, t2];
  }

  /** A new machine driven through the requested transitions, in order:
      the transitions it returns chain from Idle, each goes to its requested
      state with its reason, and the machine ends where the last one led. */
  method Drive(requests: seq<(State, string)>) returns (steps: seq<Transition>, final: State)
    ensures |steps| == |requests|
    ensures Chained(Idle, steps)
    ensures forall j :: 0 <= j < |steps| ==> steps[j].to == requests[j].0 && steps[j].reason == requests[j].1
    ensures final == if requests == [] then Idle else requests[|requests| - 1].0
  {
    var machine := new StateMachine();
    steps := [];
    var i := 0;
    while i < |requests|
      invariant 0 <= i <= |requests|
      invariant |steps| == i
      invariant Chained(Idle, steps)
      invariant forall j :: 0 <= j < i ==> steps[j].to == requests[j].0 && steps[j].reason == requests[j].1
      invariant machine.state == if i == 0 then Idle else requests[i - 1].0
    {
      var t := machine.TransitionTo(requests[i].0, requests[i].1);
      ChainedSnoc(Idle, steps, t);
      steps := steps + [t];
      i := i + 1;
    }
    final := machine.CurrentState();
  }

  /** A same-state transition is still recorded, with from == to. */
  method SelfTransitionRecorded(reason: string) returns (t: Transition)
    ensures t == Transition(Idle, Idle, reason) && t.from == t.to
  {
    var machine := new StateMachine();
    t := machine.TransitionTo(Idle, reason);
  }
}
