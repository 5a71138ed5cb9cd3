// How often a goroutine tries to record its answer.
module Tries {
  import opened Basics
  import opened Conditions
  import opened Executions
  import opened Protocol
  import opened Invariant
  import opened Runs
  import opened LostAnswers

  // A status write that meets a conflict.
  predicate Conflicts(s: State, r: nat, a: GoAction)
    requires s.WellFormed() && GoEnabled(s, r, a)
  {
    a == Write(false) && s.exec.gos[r].pc.ver != s.Last()
  }

  // An API error other than a conflict.
  predicate Errs(a: GoAction) {
    (a.List? || a.Write?) && a.fault
  }

  ghost function ConflictsIn(s: State, r: nat, acts: seq<Action>): nat
    requires Valid(s, acts)
    decreases |acts|
  {
    if acts == [] then 0
    else One(acts[0].Routine? && acts[0].r == r && Conflicts(s, r, acts[0].act)) +
         ConflictsIn(Step(s, acts[0]), r, acts[1..])
  }

  predicate ErrsIn(r: nat, acts: seq<Action>) {
    exists k :: 0 <= k < |acts| && acts[k].Routine? && acts[k].r == r && Errs(acts[k].act)
  }

  // The status writes a goroutine has left: four before its first.
  function WritesLeft(pc: GoPc): int {
    if Recording(pc) then pc.tries else if pc.Ended? then 0 else 4
  }

  lemma {:induction false} EndedConflictsNoMore(s: State, r: nat, acts: seq<Action>)
    requires Inv(s) && Valid(s, acts) && Undisturbed(s, r, acts) && s.exec.gos[r].pc.Ended?
    ensures ConflictsIn(s, r, acts) == 0 && !ErrsIn(r, acts) && !DropsIn(s, r, acts)
    decreases |acts|
  {
    hide Inv, Step;
    EndedStays(s, r, acts);
    if acts != [] {
      StepKeeps(s, acts[0]);
      OtherStep(s, r, acts[0]);
      EndedConflictsNoMore(Step(s, acts[0]), r, acts[1..]);
      ErrsFirst(r, acts);
    }
  }

  lemma ErrsFirst(r: nat, acts: seq<Action>)
    requires acts != []
    ensures ErrsIn(r, acts) <==> (acts[0].Routine? && acts[0].r == r && Errs(acts[0].act)) || ErrsIn(r, acts[1..])
  {
    assert forall k :: 0 < k < |acts| ==> acts[k] == acts[1..][k - 1];
  }

  // A step of a live goroutine: a conflict costs it one write, and the last one ends it.
  lemma ConflictCosts(s: State, r: nat, a: GoAction)
    requires Inv(s) && TriesLeft(s) && GoEnabled(s, r, a) && !s.exec.gos[r].cancelled
    ensures var t := GoStep(s, r, a);
            var left := WritesLeft(s.exec.gos[r].pc) - One(Conflicts(s, r, a));
            && r < |t.exec.gos| && 0 <= left && !(Conflicts(s, r, a) && Errs(a))
            && (Drops(s, r, a) <==> Errs(a) || (Conflicts(s, r, a) && left == 0))
            && (if t.exec.gos[r].pc.Ended? then (Conflicts(s, r, a) <==> left == 0)
                else !Errs(a) && 1 <= left == WritesLeft(t.exec.gos[r].pc))
  {
    hide Inv;
    if Recording(s.exec.gos[r].pc) { LostStepExactly(s, r, a); }
  }

  lemma SomeLeft(s: State, r: nat)
    requires TriesLeft(s) && r < |s.exec.gos| && !s.exec.gos[r].pc.Ended?
    ensures 1 <= WritesLeft(s.exec.gos[r].pc)
  {}

  lemma {:induction false} ConflictsCount(s: State, r: nat, acts: seq<Action>)
    requires Inv(s) && TriesLeft(s) && Valid(s, acts) && Undisturbed(s, r, acts) && !s.exec.gos[r].pc.Ended?
    ensures ConflictsIn(s, r, acts) <= WritesLeft(s.exec.gos[r].pc)
    ensures DropsIn(s, r, acts) && !ErrsIn(r, acts) <==> ConflictsIn(s, r, acts) == WritesLeft(s.exec.gos[r].pc)
    decreases |acts|
  {
    hide Inv, Step, TriesLeft, GoStep;
    if acts == [] {
      SomeLeft(s, r);
    } else {
      var t := Step(s, acts[0]);
      StepKeeps(s, acts[0]);
      TriesLeftStep(s, acts[0]);
      ErrsFirst(r, acts);
      if acts[0].Routine? && acts[0].r == r {
        ConflictCosts(s, r, acts[0].act);
        RoutineSteps(s, acts[0]);
      } else {
        OtherStep(s, r, acts[0]);
      }
      if t.exec.gos[r].pc.Ended? { EndedConflictsNoMore(t, r, acts[1..]); } else { ConflictsCount(t, r, acts[1..]); }
    }
  }

  // Main result.  While the process lives and the routine is not cancelled, a goroutine
  // has its answer refused at most four times, and gives up without any other error
  // exactly at the fourth conflict.
  lemma FourConflicts(s: State, r: nat, acts: seq<Action>)
    requires Reachable(s) && Valid(s, acts) && Undisturbed(s, r, acts)
    requires !Recording(s.exec.gos[r].pc) && !s.exec.gos[r].pc.Ended?
    ensures ConflictsIn(s, r, acts) <= 4
    ensures DropsIn(s, r, acts) && !ErrsIn(r, acts) <==> ConflictsIn(s, r, acts) == 4
  {
    ReachableInv(s);
    var s0: State, before: seq<Action> :| Reaches(s0, before, s);
    TriesLeftRun(s0, before);
    ConflictsCount(s, r, acts);
  }
}
