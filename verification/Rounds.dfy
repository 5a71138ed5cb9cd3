// One undisturbed reconcile, and the states it leaves alone.
module Rounds {
  import opened Basics
  import opened Conditions
  import opened Taints
  import opened Executions
  import opened Protocol
  import opened History
  import opened Invariant
  import opened Runs

  // Every step of a reconcile is closer to its end.
  function Rank(pc: Pc): nat {
    match pc
    case Idle => 0
    case Finish(_, _) => 1
    case DropFinalizer(_) => 2
    case AddFinalizer(_) => 2
    case Cancel(_, ForCompletion) => 2
    case Cancel(_, ForTimeout) => 2
    case Cancel(_, ForDeletion(_)) => 7
    case Launch(_) => 2
    case Build(_) => 3
    case CheckRunning(_) => 4
    case EvictPods(_) => 3
    case ReadNode(_, job) => JobRank(job) + 1
    case WriteNode(_, job, _) => JobRank(job)
    case GetNode(_) => 9
  }

  function JobRank(job: Job): nat {
    match job
    case TaintNode => 6
    case TaintOutOfService => 3
    case UntaintOutOfService => 5
    case UntaintNode => 3
  }

  lemma RankDrops(s: State, fault: bool)
    requires s.WellFormed() && !s.pc.Idle?
    ensures Rank(ReconcileStep(s, fault).pc) < Rank(s.pc)
  {
    hide JobResult, JobIdle, Updated, Removed, Launched;
  }

  // The rest of the reconcile in progress, with no fault and no other actor.
  // buildable tells whether the fence parameters can be built.
  ghost function Settled(s: State, buildable: bool): (t: State)
    requires Inv(s)
    ensures Inv(t) && t.pc.Idle?
    decreases Rank(s.pc)
  {
    if s.pc.Idle? then s
    else
      var fault := s.pc.Build? && !buildable;
      RankDrops(s, fault);
      ReconcileKeeps(s, fault);
      Settled(ReconcileStep(s, fault), buildable)
  }

  ghost function Round(s: State, buildable: bool): (t: State)
    requires Inv(s) && s.pc.Idle?
    ensures Inv(t) && t.pc.Idle?
  {
    GetKeeps(s, false);
    Settled(GetStep(s, false), buildable)
  }

  // The actions of a round, so that rounds are runs.
  lemma {:induction false} SettledIsARun(s: State, buildable: bool) returns (acts: seq<Action>)
    requires Inv(s)
    ensures Valid(s, acts) && Final(s, acts) == Settled(s, buildable)
    ensures forall i :: 0 <= i < |acts| ==> acts[i].Reconcile?
    decreases Rank(s.pc)
  {
    hide Inv;
    if s.pc.Idle? {
      acts := [];
    } else {
      var fault := s.pc.Build? && !buildable;
      RankDrops(s, fault);
      ReconcileKeeps(s, fault);
      var rest := SettledIsARun(ReconcileStep(s, fault), buildable);
      acts := [Reconcile(fault)] + rest;
      assert acts[1..] == rest;
    }
  }

  // ---------------------------------------------------------------- what a round does

  ghost predicate Fresh(s: State) {
    Inv(s) && s.pc.Idle? && s.cache == s.Last() && s.Current().Some?
  }

  // Settling after one fault-free step.
  lemma SettledStep(s: State, buildable: bool)
    requires Inv(s) && !s.pc.Idle? && (s.pc.Build? ==> buildable)
    ensures Inv(ReconcileStep(s, false)) && Settled(s, buildable) == Settled(ReconcileStep(s, false), buildable)
  {
    RankDrops(s, false);
    ReconcileKeeps(s, false);
  }

  // The deferred status update at the end of an undisturbed reconcile.
  lemma SettledFinish(s: State, buildable: bool)
    requires Inv(s) && s.pc.Finish?
    ensures Settled(s, buildable) == FinishStep(s, false)
  {
    ReconcileKeeps(s, false);
  }

  // A round starts by reading the current object and the node.
  lemma RoundOpens(s: State, buildable: bool)
    requires Fresh(s)
    ensures var u := s.(pc := AfterNode(s.Current().value, s.cache, s.node.Some?));
            Inv(u) && Round(s, buildable) == Settled(u, buildable)
  {
    GetKeeps(s, false);
    SettledStep(GetStep(s, false), buildable);
  }

  lemma RoundWedged(s: State, buildable: bool)
    requires Fresh(s) && s.Current().value.deleting && s.Current().value.status.Blank()
    ensures Round(s, buildable) == s
  {
    hide Inv;
    RoundOpens(s, buildable);
    SettledFinish(s.(pc := Finish(s.cache, None)), buildable);
  }

  lemma RoundInterrupted(s: State, buildable: bool)
    requires Fresh(s) && s.Current().value.timedOut && !s.Current().value.deleting
    ensures var cr := s.Current().value;
            Round(s, buildable) ==
            PutStatus(s.(exec := Removed(s.exec, cr.uid)), cr, Updated(InterruptedByNHC, cr.status, |s.hist|))
  {
    hide Inv, Updated, Removed;
    RoundOpens(s, buildable);
    var u := s.(pc := Cancel(s.cache, ForTimeout));
    SettledStep(u, buildable);
    SettledFinish(ReconcileStep(u, false), buildable);
  }

  lemma RoundNodeMissing(s: State, buildable: bool)
    requires Fresh(s) && !s.Current().value.timedOut && !s.Current().value.deleting && s.node.None?
    ensures var cr := s.Current().value;
            Round(s, buildable) == PutStatus(s, cr, Updated(NodeNotFound, cr.status, |s.hist|))
  {
    hide Inv, Updated;
    RoundOpens(s, buildable);
    SettledFinish(s.(pc := Finish(s.cache, Some(NodeNotFound))), buildable);
  }

  lemma RoundStarts(s: State, buildable: bool)
    requires Fresh(s) && !s.Current().value.timedOut && !s.Current().value.deleting && s.node.Some?
    requires !s.Current().value.finalizer
    ensures var cr := s.Current().value.(finalizer := true);
            Round(s, buildable) ==
            PutStatus(Put(s, Some(cr)), cr, Updated(Started, cr.status, |s.hist| + 1))
  {
    hide Inv;
    RoundOpens(s, buildable);
    var u := s.(pc := AddFinalizer(s.cache));
    SettledStep(u, buildable);
    SettledFinish(ReconcileStep(u, false), buildable);
  }

  // ---------------------------------------------------------------- node jobs

  // A node job carried through without interference.
  function JobDone(s: State, job: Job): State
    requires s.WellFormed() && !s.pc.Idle? && s.node.Some?
  {
    var cr := s.hist[s.pc.ver].value;
    var pc := AfterJob(cr, s.pc.ver, job);
    if JobIdle(job, s.node.value.taints) then s.(pc := pc)
    else
      var t := SetNode(s, JobResult(job, s.node.value.taints, s.clock)).(pc := pc);
      if job.TaintOutOfService? then Noted(t, OutOfServiceAdded(cr.uid)) else t
  }

  // Reading the node and writing it back is the job.
  lemma JobSteps(s: State)
    requires s.WellFormed() && s.pc.ReadNode? && s.node.Some?
    ensures var t := ReconcileStep(s, false);
            if t.pc.WriteNode? then WriteNodeStep(t, false) == JobDone(s, s.pc.job) else t == JobDone(s, s.pc.job)
  {}

  lemma SettledJobDone(s: State, buildable: bool)
    requires Inv(s) && s.pc.ReadNode? && s.node.Some?
    ensures Inv(JobDone(s, s.pc.job)) && Settled(s, buildable) == Settled(JobDone(s, s.pc.job), buildable)
  {
    hide Inv;
    JobSteps(s);
    SettledStep(s, buildable);
    var t := ReconcileStep(s, false);
    if t.pc.WriteNode? {
      assert ReconcileStep(t, false) == WriteNodeStep(t, false);
      SettledStep(t, buildable);
    }
  }

  // ---------------------------------------------------------------- the active object

  ghost predicate FreshActive(s: State) {
    Fresh(s) && Active(s.Current().value) && s.node.Some?
  }

  // The node with the remediation taint on it.
  function TaintedNode(s: State): State
    requires s.WellFormed() && s.node.Some?
  {
    if Tainted(s.node) then s else SetNode(s, Appended(s.node.value.taints, RemediationTaint(), s.clock))
  }

  lemma TaintJob(s: State, pc: Pc)
    requires s.WellFormed() && s.node.Some? && pc.ReadNode? && pc.job.TaintNode?
    requires pc.ver < |s.hist| && s.hist[pc.ver].Some?
    ensures JobDone(s.(pc := pc), TaintNode) == TaintedNode(s).(pc := AfterJob(s.hist[pc.ver].value, pc.ver, TaintNode))
  {}

  lemma RoundTaints(s: State, buildable: bool)
    requires FreshActive(s)
    ensures var u := TaintedNode(s).(pc := AfterJob(s.Current().value, s.cache, TaintNode));
            Inv(u) && Round(s, buildable) == Settled(u, buildable)
  {
    hide Inv;
    RoundOpens(s, buildable);
    TaintJob(s, ReadNode(s.cache, TaintNode));
    SettledJobDone(s.(pc := ReadNode(s.cache, TaintNode)), buildable);
  }

  // Nothing to do beyond the taint.
  lemma RoundOnlyTaints(s: State, buildable: bool)
    requires FreshActive(s)
    requires var cr := s.Current().value;
             || (!Gate(cr) && !Fenced(cr))
             || (Gate(cr) && (cr.uid in s.exec.routines || !buildable))
             || (Fenced(cr) && cr.strategy.Unsupported?)
    ensures Round(s, buildable) == TaintedNode(s)
  {
    hide Inv;
    RoundTaints(s, buildable);
    var cr := s.Current().value;
    VersionSound(s, s.Last());
    var u := TaintedNode(s).(pc := AfterJob(cr, s.cache, TaintNode));
    if Gate(cr) {
      SettledStep(u, buildable);
      var v := ReconcileStep(u, false);
      if v.pc.Build? {
        ReconcileKeeps(v, true);
        SettledFinish(ReconcileStep(v, true), buildable);
      } else {
        SettledFinish(v, buildable);
      }
    } else {
      SettledFinish(u, buildable);
    }
  }

  lemma RoundLaunches(s: State)
    requires FreshActive(s) && Gate(s.Current().value) && s.Current().value.uid !in s.exec.routines
    ensures var cr := s.Current().value;
            Round(s, true) ==
            Noted(TaintedNode(s).(exec := Launched(s.exec, cr.uid, cr.retries), launched := s.launched + {cr.uid}),
                  FenceStarted(cr.uid))
  {
    hide Inv;
    RoundTaints(s, true);
    var u := TaintedNode(s).(pc := CheckRunning(s.cache));
    SettledStep(u, true);
    SettledStep(u.(pc := Build(s.cache)), true);
    SettledStep(u.(pc := Launch(s.cache)), true);
    SettledFinish(ReconcileStep(u.(pc := Launch(s.cache)), false), true);
  }

  // The last stretch of a successful remediation.
  lemma SettledCompletion(s: State, buildable: bool)
    requires Inv(s) && s.pc == Cancel(s.Last(), ForCompletion)
    ensures var cr := s.Current().value;
            Settled(s, buildable) ==
            PutStatus(s.(exec := Removed(s.exec, cr.uid), pc := Idle), cr,
                      Updated(FinishedSuccessfully, cr.status, |s.hist|))
  {
    hide Sound, Drained, TaintInv, LaunchInv, Updated;
    SettledStep(s, buildable);
    SettledFinish(ReconcileStep(s, false), buildable);
  }

  // What holds once a fenced object has been completed, with the given evictions.
  ghost predicate Completed(s: State, t: State, evictions: seq<Event>)
    requires s.WellFormed() && s.Current().Some?
  {
    var cr := s.Current().value;
    && t.hist == s.hist + [Some(cr.(status := Updated(FinishedSuccessfully, cr.status, |s.hist|)))]
    && t.hist[|s.hist|].value.status.Triple(False, True, True)
    && t.exec == Removed(s.exec, cr.uid) && t.cache == s.cache
    && Tainted(t.node) && (cr.strategy.OutOfService? ==> OutOfServiceTainted(t.node))
    && t.log == s.log + evictions + [SucceededStored(cr.uid)]
  }

  lemma CompletionResult(s: State, buildable: bool)
    requires Inv(s) && s.pc == Cancel(s.Last(), ForCompletion) && Tainted(s.node)
    requires s.Current().value.strategy.OutOfService? ==> OutOfServiceTainted(s.node)
    ensures Completed(s, Settled(s, buildable), [])
  {
    hide ExecInv, TaintInv, LaunchInv, Drained;
    SettledCompletion(s, buildable);
    assert SoundVersion(s.Current().value, s.Last());
    assert s.log + [] == s.log;
  }

  lemma OutOfServiceResult(s: State, buildable: bool)
    requires Inv(s) && s.pc == ReadNode(s.Last(), TaintOutOfService) && Tainted(s.node)
    ensures Completed(s, Settled(s, buildable), OutOfServiceEvents(s))
  {
    hide Inv;
    var ts := s.node.value.taints;
    HasAppended(ts, OutOfServiceTaint(0).(timeAdded := Some(s.clock)), RemediationTaint());
    HasAppended(ts, OutOfServiceTaint(0).(timeAdded := Some(s.clock)), OutOfServiceTaint(0));
    SettledJobDone(s, buildable);
    var t := JobDone(s, TaintOutOfService);
    assert t.log == s.log + OutOfServiceEvents(s);
    CompletionResult(t, buildable);
    assert t.log + [] == t.log;
  }

  lemma EvictsByDeletion(s: State)
    requires Inv(s) && s.pc.EvictPods?
    ensures !s.hist[s.pc.ver].value.strategy.OutOfService?
  {}

  lemma EvictionResult(s: State, buildable: bool)
    requires Inv(s) && s.pc == EvictPods(s.Last()) && Tainted(s.node)
    ensures Completed(s, Settled(s, buildable), [PodsDeleted(s.Current().value.uid)])
  {
    hide Inv;
    EvictsByDeletion(s);
    SettledStep(s, buildable);
    var t := ReconcileStep(s, false);
    CompletionResult(t, buildable);
    assert t.log + [] == t.log;
  }

  lemma TaintedNodeTainted(s: State)
    requires s.WellFormed() && s.node.Some?
    ensures Tainted(TaintedNode(s).node)
    ensures OutOfServiceTainted(TaintedNode(s).node) <==> OutOfServiceTainted(s.node)
  {
    HasAppended(s.node.value.taints, RemediationTaint().(timeAdded := Some(s.clock)), RemediationTaint());
    HasAppended(s.node.value.taints, RemediationTaint().(timeAdded := Some(s.clock)), OutOfServiceTaint(0));
  }

  // What evicting from the node shows up as: its pods deleted, or the out-of-service
  // taint added unless it is there already.
  function OutOfServiceEvents(s: State): seq<Event>
    requires s.WellFormed() && s.Current().Some?
  {
    if OutOfServiceTainted(s.node) then [] else [OutOfServiceAdded(s.Current().value.uid)]
  }

  function EvictionEvents(s: State): seq<Event>
    requires s.WellFormed() && s.Current().Some?
  {
    if s.Current().value.strategy.OutOfService? then OutOfServiceEvents(s) else [PodsDeleted(s.Current().value.uid)]
  }

  lemma RoundCompletes(s: State, buildable: bool)
    requires FreshActive(s) && Fenced(s.Current().value) && !s.Current().value.strategy.Unsupported?
    ensures Completed(s, Round(s, buildable), EvictionEvents(s))
  {
    hide Inv;
    var cr := s.Current().value;
    VersionSound(s, s.Last());
    RoundTaints(s, buildable);
    TaintedNodeTainted(s);
    var u := TaintedNode(s).(pc := AfterJob(cr, s.cache, TaintNode));
    if cr.strategy.OutOfService? { OutOfServiceResult(u, buildable); } else { EvictionResult(u, buildable); }
  }

  // ---------------------------------------------------------------- the deleted object

  lemma SettledDrop(s: State, buildable: bool)
    requires Inv(s) && s.pc == DropFinalizer(s.Last())
    ensures Settled(s, buildable) == Put(s, None).(pc := Idle)
  {
    SettledStep(s, buildable);
  }

  lemma SettledUntaint(s: State, buildable: bool)
    requires Inv(s) && s.pc == ReadNode(s.Last(), UntaintNode) && s.node.Some?
    ensures Settled(s, buildable).hist == s.hist + [None] && Settled(s, buildable).exec == s.exec
  {
    hide Inv;
    SettledJobDone(s, buildable);
    SettledDrop(JobDone(s, UntaintNode), buildable);
  }

  lemma SettledUntaintAll(s: State, buildable: bool)
    requires Inv(s) && s.pc == ReadNode(s.Last(), UntaintOutOfService) && s.node.Some?
    ensures Settled(s, buildable).hist == s.hist + [None] && Settled(s, buildable).exec == s.exec
  {
    hide Inv;
    SettledJobDone(s, buildable);
    SettledUntaint(JobDone(s, UntaintOutOfService), buildable);
  }

  // Main result.  One undisturbed reconcile of a deleted object with conditions removes
  // it, and leaves neither of the operator's taints on the node.
  lemma RoundDeletes(s: State, buildable: bool)
    requires Fresh(s) && s.Current().value.deleting && !s.Current().value.status.Blank()
    ensures var t := Round(s, buildable);
            && t.hist == s.hist + [None] && t.exec == Removed(s.exec, s.Current().value.uid)
            && !Tainted(t.node) && !OutOfServiceTainted(t.node)
  {
    hide Inv;
    var cr := s.Current().value;
    VersionSound(s, s.Last());
    RoundOpens(s, buildable);
    var u := s.(pc := Cancel(s.cache, ForDeletion(s.node.Some?)));
    SettledStep(u, buildable);
    var v := ReconcileStep(u, false);
    if s.node.None? {
      SettledDrop(v, buildable);
    } else if cr.strategy.OutOfService? {
      SettledUntaintAll(v, buildable);
    } else {
      SettledUntaint(v, buildable);
    }
    NoObjectNoTaint(Round(s, buildable));
  }

  // Main result.  A deleted object goes away in an undisturbed reconcile exactly when it
  // has conditions; without any the reconcile changes nothing at all.
  lemma DeletionCompletesExactly(s: State, buildable: bool)
    requires Fresh(s) && s.Current().value.deleting
    ensures Round(s, buildable).Current().None? <==> !s.Current().value.status.Blank()
    ensures s.Current().value.status.Blank() ==> Round(s, buildable) == s
  {
    hide Inv;
    if s.Current().value.status.Blank() { RoundWedged(s, buildable); } else { RoundDeletes(s, buildable); }
  }

  // ---------------------------------------------------------------- the quiescent states

  // The states a reconcile leaves alone, wedges included.
  predicate Quiet(s: State, buildable: bool)
    requires s.WellFormed() && s.Current().Some?
  {
    var cr := s.Current().value;
    if cr.deleting then cr.status.Blank()
    else if cr.timedOut then cr.status.Triple(False, False, False) && cr.uid !in s.exec.routines
    else if s.node.None? then cr.status.Triple(False, False, False)
    else if !cr.finalizer || !Tainted(s.node) then false
    // The finalizer is there and the start was never recorded: nothing is ever fenced.
    else if cr.status.Blank() then true
    else if cr.status.Triple(True, Unknown, Unknown) then cr.uid in s.exec.routines || !buildable
    else if cr.status.Triple(True, True, Unknown) || cr.status.Triple(False, True, False) then cr.strategy.Unsupported?
    else true
  }

  lemma CompletedChanges(s: State, t: State, evictions: seq<Event>)
    requires s.WellFormed() && s.Current().Some? && Completed(s, t, evictions)
    ensures t != s
  {
    assert |t.hist| == |s.hist| + 1;
  }

  // Main result.  An undisturbed reconcile of the current object changes nothing exactly
  // in these states.
  lemma QuietExactly(s: State, buildable: bool)
    requires Fresh(s)
    ensures Round(s, buildable) == s <==> Quiet(s, buildable)
  {
    hide Inv, Completed, Corresponds;
    var cr := s.Current().value;
    VersionSound(s, s.Last());
    RoutinesCorrespond(s);
    RemovedCorresponds(s.exec, cr.uid);
    if cr.deleting {
      if cr.status.Blank() { RoundWedged(s, buildable); } else { RoundDeletes(s, buildable); }
    } else if cr.timedOut {
      RoundInterrupted(s, buildable);
    } else if s.node.None? {
      RoundNodeMissing(s, buildable);
    } else if !cr.finalizer {
      RoundStarts(s, buildable);
    } else if Gate(cr) && cr.uid !in s.exec.routines && buildable {
      RoundLaunches(s);
    } else if Fenced(cr) && !cr.strategy.Unsupported? {
      RoundCompletes(s, buildable);
      CompletedChanges(s, Round(s, buildable), EvictionEvents(s));
    } else {
      RoundOnlyTaints(s, buildable);
    }
  }

  // Nothing in the operator moves any more: neither a reconcile nor a goroutine.
  ghost predicate Stuck(s: State, buildable: bool)
    requires Fresh(s)
  {
    Round(s, buildable) == s && forall r: nat, a: GoAction :: !GoEnabled(s, r, a)
  }

  lemma EndedExactly(s: State, r: nat)
    requires s.WellFormed() && r < |s.exec.gos|
    ensures s.exec.gos[r].pc.Ended? <==> forall a: GoAction :: !GoEnabled(s, r, a)
  {
    assert s.exec.gos[r].pc.Attempt? || s.exec.gos[r].pc.Record? ==> GoEnabled(s, r, Check);
    assert s.exec.gos[r].pc.Running? ==> GoEnabled(s, r, Run(Ok));
    assert s.exec.gos[r].pc.Pause? || s.exec.gos[r].pc.RecordPause? ==> GoEnabled(s, r, Wake(false));
    assert s.exec.gos[r].pc.Lookup? ==> GoEnabled(s, r, GoAction.List(false, false));
    assert s.exec.gos[r].pc.Store? ==> GoEnabled(s, r, Write(false));
  }

  // Main result.  The operator has come to rest exactly when the object is quiet and
  // every goroutine has ended, whether or not its result was recorded.
  lemma StuckExactly(s: State, buildable: bool)
    requires Fresh(s)
    ensures Stuck(s, buildable) <==>
            Quiet(s, buildable) && forall r :: 0 <= r < |s.exec.gos| ==> s.exec.gos[r].pc.Ended?
  {
    hide Inv, Quiet;
    QuietExactly(s, buildable);
    forall r: nat | r < |s.exec.gos|
      ensures s.exec.gos[r].pc.Ended? <==> forall a: GoAction :: !GoEnabled(s, r, a)
    {
      EndedExactly(s, r);
    }
  }
}
