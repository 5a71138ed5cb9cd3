// What happened during a piece of sequential code: the actions, and the state before each.
module Traces {
  import opened Protocol
  import opened Runs

  // states[k] is the state trace[k] was taken in; the last one is the present.
  ghost predicate Chained(states: seq<State>, trace: seq<Action>) {
    && |states| == |trace| + 1
    && (forall k :: 0 <= k < |trace| ==>
          states[k].WellFormed() && Enabled(states[k], trace[k]) && states[k + 1] == Step(states[k], trace[k]))
  }

  lemma ChainOn(states: seq<State>, trace: seq<Action>, a: Action)
    requires Chained(states, trace) && states[|trace|].WellFormed() && Enabled(states[|trace|], a)
    ensures Chained(states + [Step(states[|trace|], a)], trace + [a])
  {
    hide Step, Enabled;
    var more, on := states + [Step(states[|trace|], a)], trace + [a];
    forall k | 0 <= k < |on|
      ensures more[k].WellFormed() && Enabled(more[k], on[k]) && more[k + 1] == Step(more[k], on[k])
    {
      if k < |trace| { assert more[k] == states[k] && more[k + 1] == states[k + 1]; }
    }
  }

  lemma {:induction false} ChainedRun(states: seq<State>, trace: seq<Action>)
    requires Chained(states, trace)
    ensures Valid(states[0], trace) && Final(states[0], trace) == states[|trace|]
    decreases |trace|
  {
    hide Step, Enabled;
    if trace != [] {
      var later, rest := states[1..], trace[1..];
      forall k | 0 <= k < |rest|
        ensures later[k].WellFormed() && Enabled(later[k], rest[k]) && later[k + 1] == Step(later[k], rest[k])
      {
        assert later[k] == states[k + 1] && rest[k] == trace[k + 1];
      }
      ChainedRun(later, rest);
    }
  }
}
