// pkg/utils/taints.go: the list edits in their own form, and what they leave alone.
module TaintEdits {
  import opened Basics
  import opened Taints
  import opened Executions
  import opened Protocol
  import opened Invariant
  import opened Runs

  // Key and effect make a taint, whatever its value and time.
  lemma HasExactly(ts: seq<Taint>, t: Taint)
    ensures Has(ts, t) <==> exists i :: 0 <= i < |ts| && ts[i].key == t.key && ts[i].effect == t.effect
  {
    if i :| 0 <= i < |ts| && ts[i].key == t.key && ts[i].effect == t.effect { assert Matches(ts[i], t); }
  }

  method TaintExists(taints: seq<Taint>, taintToFind: Taint) returns (found: bool)
    ensures found <==>
              exists i :: 0 <= i < |taints| &&
                          taints[i].key == taintToFind.key && taints[i].effect == taintToFind.effect
    ensures found <==> Has(taints, taintToFind)
  {
    HasExactly(taints, taintToFind);
    for i := 0 to |taints|
      invariant forall j :: 0 <= j < i ==> !Matches(taints[j], taintToFind)
    {
      if Matches(taints[i], taintToFind) { return true; }
    }
    return false;
  }

  lemma WithoutNext(ts: seq<Taint>, t: Taint, i: nat)
    requires i < |ts|
    ensures Without(ts[..i + 1], t) == Without(ts[..i], t) + (if Matches(t, ts[i]) then [] else [ts[i]])
  {
    assert ts[..i + 1][..i] == ts[..i];
  }

  // The list without the matches: kept are the places that stay, in order.
  method DeleteTaint(taints: seq<Taint>, taintToDelete: Taint)
    returns (newTaints: seq<Taint>, deleted: bool, ghost kept: seq<nat>)
    ensures |kept| == |newTaints|
    ensures forall j :: 0 <= j < |kept| ==> kept[j] < |taints| && newTaints[j] == taints[kept[j]]
    ensures forall j, k :: 0 <= j < k < |kept| ==> kept[j] < kept[k]
    ensures forall i :: 0 <= i < |taints| ==>
              (i in kept <==> !(taints[i].key == taintToDelete.key && taints[i].effect == taintToDelete.effect))
    ensures deleted <==>
              exists i :: 0 <= i < |taints| &&
                          taints[i].key == taintToDelete.key && taints[i].effect == taintToDelete.effect
    ensures newTaints == Without(taints, taintToDelete) && (deleted <==> Has(taints, taintToDelete))
  {
    newTaints, deleted, kept := [], false, [];
    assert Without(taints[..0], taintToDelete) == [];
    hide Without;
    for i := 0 to |taints|
      invariant newTaints == Without(taints[..i], taintToDelete)
      invariant deleted <==> exists j :: 0 <= j < i && Matches(taints[j], taintToDelete)
      invariant |kept| == |newTaints|
      invariant forall j :: 0 <= j < |kept| ==> kept[j] < i && newTaints[j] == taints[kept[j]]
      invariant forall j, k :: 0 <= j < k < |kept| ==> kept[j] < kept[k]
      invariant forall j :: 0 <= j < i ==>
                  (j in kept <==> !(taints[j].key == taintToDelete.key && taints[j].effect == taintToDelete.effect))
    {
      WithoutNext(taints, taintToDelete, i);
      if Matches(taintToDelete, taints[i]) {
        deleted := true;
      } else {
        newTaints := newTaints + [taints[i]];
        kept := kept + [i];
      }
    }
    assert taints[..|taints|] == taints;
    HasExactly(taints, taintToDelete);
  }

  // ---------------------------------------------------------------- laws of the edits

  // The taints of others, in order: all but the two of the operator, by key and effect.
  function Foreign(ts: seq<Taint>): seq<Taint> {
    if ts == [] then []
    else
      var x := ts[|ts| - 1];
      if (x.key == "remediation.medik8s.io/fence-agents-remediation" && x.effect == NoSchedule) ||
         (x.key == "node.kubernetes.io/out-of-service" && x.effect == NoExecute)
      then Foreign(ts[..|ts| - 1])
      else Foreign(ts[..|ts| - 1]) + [x]
  }

  lemma {:induction false} ForeignIsWithout(ts: seq<Taint>)
    ensures Foreign(ts) == Without(Without(ts, RemediationTaint()), OutOfServiceTaint(0))
  {
    if ts != [] {
      var front, x := ts[..|ts| - 1], ts[|ts| - 1];
      ForeignIsWithout(front);
      WithoutAppend(Without(front, RemediationTaint()), [x], OutOfServiceTaint(0));
      assert [x][..0] == [];
    }
  }

  // The taints of one key and effect, in order.
  function Of(ts: seq<Taint>, key: string, effect: Effect): seq<Taint> {
    if ts == [] then []
    else
      var x := ts[|ts| - 1];
      Of(ts[..|ts| - 1], key, effect) + (if x.key == key && x.effect == effect then [x] else [])
  }

  lemma {:induction false} WithoutKeepsOthers(ts: seq<Taint>, t: Taint, key: string, effect: Effect)
    requires key != t.key || effect != t.effect
    ensures Of(Without(ts, t), key, effect) == Of(ts, key, effect)
  {
    if ts != [] {
      var front, x := ts[..|ts| - 1], ts[|ts| - 1];
      WithoutKeepsOthers(front, t, key, effect);
      assert (Without(front, t) + [x])[..|Without(front, t)|] == Without(front, t);
    }
  }

  // Main result.  Neither edit touches the taints of another key or another effect: they
  // stay as many and in order.
  lemma EditsKeepOthers(ts: seq<Taint>, t: Taint, now: nat, key: string, effect: Effect)
    requires key != t.key || effect != t.effect
    ensures Of(Without(ts, t), key, effect) == Of(ts, key, effect)
    ensures Of(Appended(ts, t, now), key, effect) == Of(ts, key, effect)
    ensures Of(Without(ts, t), t.key, t.effect) == []
  {
    WithoutKeepsOthers(ts, t, key, effect);
    assert (ts + [t.(timeAdded := Some(now))])[..|ts|] == ts;
    WithoutLeavesNone(ts, t);
  }

  lemma {:induction false} WithoutLeavesNone(ts: seq<Taint>, t: Taint)
    ensures Of(Without(ts, t), t.key, t.effect) == []
  {
    if ts != [] {
      var front, x := ts[..|ts| - 1], ts[|ts| - 1];
      WithoutLeavesNone(front, t);
      assert (Without(front, t) + [x])[..|Without(front, t)|] == Without(front, t);
    }
  }

  lemma {:induction false} OfNone(ts: seq<Taint>, t: Taint)
    ensures Of(ts, t.key, t.effect) == [] <==> !Has(ts, t)
  {
    if ts != [] {
      OfNone(ts[..|ts| - 1], t);
      HasAppended(ts[..|ts| - 1], ts[|ts| - 1], t);
      assert ts == ts[..|ts| - 1] + [ts[|ts| - 1]];
    }
  }

  lemma OfAppended(ts: seq<Taint>, t: Taint, now: nat)
    ensures Of(Appended(ts, t, now), t.key, t.effect)
            == (if Of(ts, t.key, t.effect) != [] then Of(ts, t.key, t.effect) else [t.(timeAdded := Some(now))])
  {
    OfNone(ts, t);
    if !Has(ts, t) { assert (ts + [t.(timeAdded := Some(now))])[..|ts|] == ts; }
  }

  // Main result.  What the node writes leave of the operator's own taints: appended once,
  // with their value and the time, and removed altogether.
  lemma JobWrites(ts: seq<Taint>, now: nat)
    ensures var mine := Of(ts, "remediation.medik8s.io/fence-agents-remediation", NoSchedule);
            Of(JobResult(TaintNode, ts, now), "remediation.medik8s.io/fence-agents-remediation", NoSchedule)
            == (if mine != [] then mine
                else [Taint("remediation.medik8s.io/fence-agents-remediation", "", NoSchedule, Some(now))])
    ensures var mine := Of(ts, "node.kubernetes.io/out-of-service", NoExecute);
            Of(JobResult(TaintOutOfService, ts, now), "node.kubernetes.io/out-of-service", NoExecute)
            == (if mine != [] then mine
                else [Taint("node.kubernetes.io/out-of-service", "nodeshutdown", NoExecute, Some(now))])
    ensures Of(JobResult(UntaintNode, ts, now), "remediation.medik8s.io/fence-agents-remediation", NoSchedule) == []
    ensures Of(JobResult(UntaintOutOfService, ts, now), "node.kubernetes.io/out-of-service", NoExecute) == []
  {
    hide Of, Appended, Without;
    OfAppended(ts, RemediationTaint(), now);
    OfAppended(ts, OutOfServiceTaint(0), now);
    WithoutLeavesNone(ts, RemediationTaint());
    WithoutLeavesNone(ts, OutOfServiceTaint(0));
  }

  lemma {:induction false} WithoutAppend(ts: seq<Taint>, us: seq<Taint>, t: Taint)
    ensures Without(ts + us, t) == Without(ts, t) + Without(us, t)
  {
    if us == [] {
      assert ts + us == ts;
    } else {
      var all, n := ts + us, |us| - 1;
      assert all[..|all| - 1] == ts + us[..n];
      WithoutAppend(ts, us[..n], t);
    }
  }

  lemma {:induction false} WithoutNothing(ts: seq<Taint>, t: Taint)
    requires !Has(ts, t)
    ensures Without(ts, t) == ts
  {
    if ts != [] {
      var n := |ts| - 1;
      assert forall i :: 0 <= i < n ==> ts[..n][i] == ts[i];
      assert !Matches(ts[n], t);
      WithoutNothing(ts[..n], t);
    }
  }

  lemma {:induction false} WithoutCommutes(ts: seq<Taint>, t: Taint, u: Taint)
    ensures Without(Without(ts, t), u) == Without(Without(ts, u), t)
  {
    if ts != [] {
      var n := |ts| - 1;
      WithoutCommutes(ts[..n], t, u);
      WithoutAppend(Without(ts[..n], t), [ts[n]], u);
      WithoutAppend(Without(ts[..n], u), [ts[n]], t);
    }
  }

  lemma {:induction false} WithoutTwice(ts: seq<Taint>, t: Taint)
    ensures Without(Without(ts, t), t) == Without(ts, t)
  {
    HasWithout(ts, t, t);
    WithoutNothing(Without(ts, t), t);
  }

  // Main result.  Both edits are idempotent, removal leaves no match, and removing an
  // appended taint restores the list it was not on.
  lemma {:induction false} EditLaws(ts: seq<Taint>, t: Taint, now: nat, later: nat)
    ensures Appended(Appended(ts, t, now), t, later) == Appended(ts, t, now)
    ensures Without(Without(ts, t), t) == Without(ts, t)
    ensures !Has(Without(ts, t), t) && Has(Appended(ts, t, now), t)
    ensures !Has(ts, t) ==> Without(Appended(ts, t, now), t) == ts
    ensures Without(Appended(ts, t, now), t) == Without(ts, t)
  {
    HasAppended(ts, t.(timeAdded := Some(now)), t);
    HasWithout(ts, t, t);
    WithoutTwice(ts, t);
    if !Has(ts, t) {
      WithoutNothing(ts, t);
      WithoutAppend(ts, [t.(timeAdded := Some(now))], t);
      assert Without([t.(timeAdded := Some(now))], t) == [];
    }
  }

  // Each of the operator's node writes leaves the foreign taints as they were.
  lemma JobKeepsForeign(job: Job, ts: seq<Taint>, now: nat)
    ensures Foreign(JobResult(job, ts, now)) == Foreign(ts)
  {
    var r, o := RemediationTaint(), OutOfServiceTaint(0);
    ForeignIsWithout(ts);
    ForeignIsWithout(JobResult(job, ts, now));
    match job
    case TaintNode =>
      EditLaws(ts, r, now, now);
    case UntaintNode =>
      WithoutTwice(ts, r);
    case TaintOutOfService =>
      EditLaws(ts, o, now, now);
      WithoutCommutes(ts, r, o);
      WithoutCommutes(Appended(ts, o, now), r, o);
    case UntaintOutOfService =>
      WithoutTwice(ts, o);
      WithoutCommutes(ts, r, o);
      WithoutCommutes(Without(ts, o), r, o);
  }

  // ---------------------------------------------------------------- under interleaving

  function ForeignOn(node: Option<Node>): Option<seq<Taint>> {
    if node.None? then None else Some(Foreign(node.value.taints))
  }

  // What others did to the foreign taints, ignoring the operator.
  function Theirs(node: Option<seq<Taint>>, acts: seq<Action>): Option<seq<Taint>>
    decreases |acts|
  {
    if acts == [] then node
    else match acts[0]
      case Disturb(NodeGone) => Theirs(None, acts[1..])
      case Disturb(NodeBack(ts)) => Theirs(Some(Foreign(ts)), acts[1..])
      case Disturb(NodeEdit(ts)) => Theirs(Some(Foreign(ts)), acts[1..])
      case _ => Theirs(node, acts[1..])
  }

  lemma WriteNodeKeepsForeign(s: State, fault: bool)
    requires Inv(s) && s.pc.WriteNode?
    ensures ForeignOn(WriteNodeStep(s, fault).node) == ForeignOn(s.node)
  {
    JobKeepsForeign(s.pc.job, s.pc.copy.taints, s.clock);
  }

  lemma OperatorKeepsForeign(s: State, a: Action)
    requires Inv(s) && Enabled(s, a) && !a.Disturb?
    ensures ForeignOn(Step(s, a).node) == ForeignOn(s.node)
  {
    if a.Reconcile? && s.pc.WriteNode? {
      WriteNodeKeepsForeign(s, a.fault);
    } else {
      OnlyJobsWriteTheNode(s, a);
    }
  }

  lemma OnlyJobsWriteTheNode(s: State, a: Action)
    requires s.WellFormed() && Enabled(s, a) && !a.Disturb? && !(a.Reconcile? && s.pc.WriteNode?)
    ensures Step(s, a).node == s.node
  {}

  // Main result.  Through any run, with conflicts, stale copies and crashes, the foreign
  // taints on the node are exactly what the other writers made them.
  lemma {:induction false} ForeignTaintsSurvive(s: State, acts: seq<Action>)
    requires Inv(s) && Valid(s, acts)
    ensures ForeignOn(Final(s, acts).node) == Theirs(ForeignOn(s.node), acts)
    decreases |acts|
  {
    if acts != [] {
      StepKeeps(s, acts[0]);
      if !acts[0].Disturb? { OperatorKeepsForeign(s, acts[0]); }
      ForeignTaintsSurvive(Step(s, acts[0]), acts[1..]);
    }
  }
}
