// Runs of the protocol and reachability.
module Runs {
  import opened Basics
  import opened Protocol
  import opened Invariant

  ghost predicate Valid(s: State, acts: seq<Action>)
    decreases |acts|
  {
    acts == [] || (s.WellFormed() && Enabled(s, acts[0]) && Valid(Step(s, acts[0]), acts[1..]))
  }

  function Final(s: State, acts: seq<Action>): State
    requires Valid(s, acts)
    decreases |acts|
  {
    if acts == [] then s else Final(Step(s, acts[0]), acts[1..])
  }

  lemma {:induction false} RunInv(s: State, acts: seq<Action>)
    requires Inv(s) && Valid(s, acts)
    ensures Inv(Final(s, acts))
    decreases |acts|
  {
    if acts != [] {
      StepKeeps(s, acts[0]);
      RunInv(Step(s, acts[0]), acts[1..]);
    }
  }

  ghost predicate Reaches(s0: State, acts: seq<Action>, s: State) {
    Init(s0) && Valid(s0, acts) && Final(s0, acts) == s
  }

  lemma ReachesInv(s0: State, acts: seq<Action>, s: State)
    requires Reaches(s0, acts, s)
    ensures Inv(s)
  {
    InitInv(s0);
    RunInv(s0, acts);
  }

  ghost predicate Reachable(s: State)
    ensures Reachable(s) ==> s.WellFormed()
  {
    if s0: State, acts: seq<Action> :| Reaches(s0, acts, s) then ReachesInv(s0, acts, s); true else false
  }

  lemma ReachableInv(s: State)
    requires Reachable(s)
    ensures Inv(s)
  {
    var s0: State, acts: seq<Action> :| Reaches(s0, acts, s);
    ReachesInv(s0, acts, s);
  }

  lemma {:induction false} RunsCompose(s: State, first: seq<Action>, second: seq<Action>)
    requires Valid(s, first) && Valid(Final(s, first), second)
    ensures Valid(s, first + second) && Final(s, first + second) == Final(Final(s, first), second)
    decreases |first|
  {
    hide Step, Enabled;
    if first == [] {
      assert first + second == second;
    } else {
      RunsCompose(Step(s, first[0]), first[1..], second);
      assert (first + second)[1..] == first[1..] + second;
    }
  }

  lemma RunExtends(s: State, acts: seq<Action>, a: Action)
    requires Valid(s, acts) && Final(s, acts).WellFormed() && Enabled(Final(s, acts), a)
    ensures Valid(s, acts + [a]) && Final(s, acts + [a]) == Step(Final(s, acts), a)
  {
    hide Step, Enabled;
    var t, one := Final(s, acts), [a];
    assert one[1..] == [];
    assert Valid(Step(t, one[0]), one[1..]);
    assert Final(t, one) == Final(Step(t, one[0]), one[1..]);
    RunsCompose(s, acts, one);
  }

  lemma ReconcileOneVersion(s: State, fault: bool)
    requires s.WellFormed() && !s.pc.Idle?
    ensures var t := ReconcileStep(s, fault);
            t.hist == s.hist || (0 < |t.hist| && t.hist == s.hist + [t.Current()])
  {}

  lemma ReconcileLogs(s: State, fault: bool)
    requires s.WellFormed() && !s.pc.Idle?
    ensures s.log <= ReconcileStep(s, fault).log
  {}

  // The log is never rewritten.
  lemma LogGrows(s: State, a: Action)
    requires s.WellFormed() && Enabled(s, a)
    ensures s.log <= Step(s, a).log
  {
    if a.Reconcile? { ReconcileLogs(s, a.fault); }
  }

  // Versions are never rewritten: a step appends at most one.
  lemma OneVersion(s: State, a: Action)
    requires s.WellFormed() && Enabled(s, a)
    ensures var t := Step(s, a);
            t.hist == s.hist || (0 < |t.hist| && t.hist == s.hist + [t.Current()])
  {
    if a.Reconcile? { ReconcileOneVersion(s, a.fault); }
  }
}
