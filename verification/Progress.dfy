// Left alone by the environment, the operator runs out of things to do: a measure that
// every effectful step of the reconciler and of the goroutines lowers.
module Progress {
  import opened Basics
  import opened Conditions
  import opened Taints
  import opened Executions
  import opened Protocol
  import opened History
  import opened Invariant
  import opened Runs
  import opened Rounds

  function Pos(n: int): nat { if n < 0 then 0 else n }

  // What a goroutine can still do: attempts first, then tries to record the result.
  function GoLoad(g: Go): nat {
    match g.pc
    case Attempt(n) => 50 + 3 * Pos(n)
    case Running(n) => 49 + 3 * Pos(n)
    case Pause(n) => 51 + 3 * Pos(n)
    case Record(k, _) => 13 + 4 * Pos(k)
    case Lookup(k, _) => 12 + 4 * Pos(k)
    case Store(k, _, _) => 11 + 4 * Pos(k)
    case RecordPause(k, _) => 14 + 4 * Pos(k)
    case Ended => 0
  }

  function TotalLoad(gos: seq<Go>): nat {
    if gos == [] then 0 else TotalLoad(gos[..|gos| - 1]) + GoLoad(gos[|gos| - 1])
  }

  lemma {:induction false} LoadUpdate(gos: seq<Go>, r: nat, g: Go)
    requires r < |gos|
    ensures TotalLoad(gos[r := g]) == TotalLoad(gos) - GoLoad(gos[r]) + GoLoad(g)
  {
    var n := |gos| - 1;
    if r == n {
      assert gos[r := g][..n] == gos[..n];
    } else {
      LoadUpdate(gos[..n], r, g);
      assert gos[r := g][..n] == gos[..n][r := g];
    }
  }

  lemma RemovedLoad(e: Exec, uid: Uid)
    requires Corresponds(e)
    ensures TotalLoad(Removed(e, uid).gos) == TotalLoad(e.gos)
    ensures |Removed(e, uid).routines| == |e.routines| - (if uid in e.routines then 1 else 0)
  {
    if uid in e.routines {
      var r := e.routines[uid];
      LoadUpdate(e.gos, r, e.gos[r].(cancelled := true));
      assert Removed(e, uid).routines.Keys == e.routines.Keys - {uid};
    }
  }

  lemma LaunchedLoad(e: Exec, uid: Uid, retries: int)
    requires uid !in e.routines
    ensures TotalLoad(Launched(e, uid, retries).gos) == TotalLoad(e.gos) + 50 + 3 * Pos(retries)
    ensures |Launched(e, uid, retries).routines| == |e.routines| + 1
  {
    var g := Go(uid, false, Attempt(retries));
    assert (e.gos + [g])[..|e.gos|] == e.gos;
  }

  function MaxRetries(h: Versions): nat {
    if h == [] then 0
    else
      var rest := MaxRetries(h[..|h| - 1]);
      if h[|h| - 1].Some? && Pos(h[|h| - 1].value.retries) > rest then Pos(h[|h| - 1].value.retries) else rest
  }

  lemma {:induction false} MaxRetriesBounds(h: Versions, i: nat)
    requires i < |h| && h[i].Some?
    ensures Pos(h[i].value.retries) <= MaxRetries(h)
  {
    if i < |h| - 1 { MaxRetriesBounds(h[..|h| - 1], i); }
  }

  lemma MaxRetriesStored(h: Versions, v: Option<CR>)
    requires 0 < |h| && (v.Some? ==> h[|h| - 1].Some? && v.value.retries == h[|h| - 1].value.retries)
    ensures MaxRetries(h + [v]) == MaxRetries(h)
  {
    assert (h + [v])[..|h|] == h;
    if v.Some? { MaxRetriesBounds(h, |h| - 1); }
  }

  function StatusRank(st: Status): nat {
    if st.Blank() then 7
    else if st.Triple(True, Unknown, Unknown) then 6
    else if st.Triple(True, True, Unknown) then 5
    else if st.Triple(False, True, False) then 4
    else if st.Triple(False, True, True) then 2
    else 1
  }

  function ObjectLoad(v: Option<CR>): nat {
    if v.None? then 0
    else if !v.value.finalizer then 12 + StatusRank(v.value.status)
    else StatusRank(v.value.status)
  }

  // The start that is about to be recorded.
  function StartLoad(s: State): nat
    requires s.WellFormed()
  {
    if s.pc.Finish? && s.pc.why == Some(Started) && s.pc.ver == s.Last() then 10 else 0
  }

  // The version the reconciler works with, or will read next.
  function Reading(s: State): Option<CR>
    requires s.WellFormed()
  {
    if s.pc.Idle? then s.Seen() else s.hist[s.pc.ver]
  }

  // The operator has not yet read that the current object is being deleted.
  predicate Appendable(s: State)
    requires s.WellFormed()
  {
    s.Current().Some? &&
    !(Reading(s).Some? && Reading(s).value.uid == s.Current().value.uid && Reading(s).value.deleting)
  }

  function Slot(present: bool, appendable: bool): nat {
    if present then 1 else if appendable then 2 else 0
  }

  function TaintLoad(s: State): nat
    requires s.WellFormed()
  {
    Slot(Tainted(s.node), Appendable(s)) + Slot(OutOfServiceTainted(s.node), Appendable(s))
  }

  function LaunchLoad(s: State): nat
    requires s.WellFormed()
  {
    if s.Current().Some? && s.Current().value.uid !in s.launched then 60 + 3 * MaxRetries(s.hist) else 0
  }

  // Pods are deleted, or the out-of-service taint is there, and the success is still to
  // be stored.
  predicate Closing(pc: Pc) {
    (pc.Cancel? && pc.after.ForCompletion?) || (pc.Finish? && pc.why == Some(FinishedSuccessfully))
  }

  function ClosingLoad(s: State): nat { if Closing(s.pc) then 0 else 1 }

  function Potential(s: State): nat
    requires s.WellFormed()
  {
    TotalLoad(s.exec.gos) + |s.exec.routines| + LaunchLoad(s) + ObjectLoad(s.Current()) + StartLoad(s) + TaintLoad(s) +
    ClosingLoad(s)
  }

  // A step of the operator itself, or of its informer; no process death.
  predicate Calm(s: State, a: Action)
    requires s.WellFormed()
  {
    match a
    case Disturb(d) => d.Observe?
    case Get(_) => true
    case Reconcile(_) => true
    case Routine(_, g) => g.List? ==> g.fault || !g.alone || s.Seen().Some?
  }

  predicate Evicts(s: State, t: State) {
    |s.log| < |t.log| && t.log[|s.log|].PodsDeleted?
  }

  // The object, the node or a goroutine changed, or pods were deleted.
  predicate Changes(s: State, t: State) {
    t.hist != s.hist || t.node != s.node || t.exec != s.exec || Evicts(s, t)
  }

  // The eviction call of a reconcile, or the status write that closes it, fails or
  // meets a conflict.
  predicate Misses(s: State, a: Action)
    requires s.WellFormed()
  {
    a.Reconcile? &&
    ((s.pc.EvictPods? && a.fault) ||
     (s.pc.Finish? && Closing(s.pc) && (a.fault || s.pc.ver != s.Last())))
  }

  // A goroutine stores a version.
  predicate Stores(s: State, a: Action)
    requires s.WellFormed() && Enabled(s, a)
  {
    a.Routine? && Step(s, a).hist != s.hist
  }

  // The step from s to t takes one from the potential if it changes something, and extra.
  ghost predicate Spends(s: State, t: State, extra: int)
    requires s.WellFormed()
  {
    t.WellFormed() && Potential(t) + One(Changes(s, t)) + extra <= Potential(s)
  }

  // ---------------------------------------------------------------- reading on

  lemma ObserveReads(s: State, v: nat)
    requires Inv(s) && s.cache <= v < |s.hist|
    ensures Appendable(s.(cache := v)) ==> Appendable(s)
  {
    hide ExecInv, TaintInv, LaunchInv, Drained;
    if s.Seen().Some? && s.Current().Some? && s.Seen().value.uid == s.Current().value.uid {
      SameLife(s.hist, s.cache, s.Last());
    }
  }

  lemma ObserveSpends(s: State, v: nat)
    requires Inv(s) && s.cache <= v < |s.hist|
    ensures Spends(s, s.(cache := v), 0)
  {
    hide Inv, Tainted, OutOfServiceTainted, Appendable;
    ObserveReads(s, v);
  }

  // When a reconcile ends, the cache is at least where its copy was.
  lemma IdleReads(s: State)
    requires Inv(s) && !s.pc.Idle?
    ensures Appendable(s.(pc := Idle)) ==> Appendable(s)
  {
    hide ExecInv, TaintInv, LaunchInv, Drained;
    if s.Current().Some? && s.hist[s.pc.ver].value.uid == s.Current().value.uid {
      SameLife(s.hist, s.pc.ver, s.Last());
    }
  }

  lemma IdleSpends(s: State)
    requires Inv(s) && !s.pc.Idle?
    ensures Spends(s, s.(pc := Idle), StartLoad(s) - One(Closing(s.pc)))
  {
    hide Inv, Tainted, OutOfServiceTainted, Appendable;
    IdleReads(s);
  }

  // ---------------------------------------------------------------- status writes

  function RankRise(reason: Reason): nat {
    if reason.Started? then 5 else if reason.FenceAgentSucceeded? then 3 else 0
  }

  lemma RankFalls(s: State, reason: Reason)
    requires Inv(s) && s.Current().Some? && Timely(s, reason)
    ensures var cr := s.Current().value;
            var st := Updated(reason, cr.status, |s.hist|);
            && (st != cr.status && !reason.Started? && !reason.FenceAgentSucceeded? ==>
                  StatusRank(st) < StatusRank(cr.status))
            && StatusRank(st) <= StatusRank(cr.status) + RankRise(reason)
            && (reason.FinishedSuccessfully? ==> StatusRank(st) + 2 <= StatusRank(cr.status))
  {
    hide PcInv, ExecInv, TaintInv, LaunchInv, Drained;
    VersionSound(s, s.Last());
  }

  // Storing another version of the current object moves nothing but its rank.
  lemma SameObjectStored(s: State, v: CR)
    requires s.WellFormed() && s.Current().Some?
    requires v.uid == s.Current().value.uid && v.deleting == s.Current().value.deleting
    requires v.retries == s.Current().value.retries
    ensures var t := Put(s, Some(v));
            && t.WellFormed()
            && LaunchLoad(t) == LaunchLoad(s) && TaintLoad(t) == TaintLoad(s) && StartLoad(t) == 0
            && ClosingLoad(t) == ClosingLoad(s)
            && Reading(t) == Reading(s)
  {
    hide Tainted, OutOfServiceTainted;
    MaxRetriesStored(s.hist, Some(v));
    var t := Put(s, Some(v));
    assert t.hist[t.cache] == s.hist[s.cache];
    assert !s.pc.Idle? ==> t.hist[s.pc.ver] == s.hist[s.pc.ver];
  }

  lemma NotedPotential(s: State, e: Event)
    requires s.WellFormed()
    ensures Noted(s, e).WellFormed() && Potential(Noted(s, e)) == Potential(s)
  {
    hide TotalLoad, LaunchLoad, ObjectLoad, Tainted, OutOfServiceTainted, MaxRetries;
    var t := Noted(s, e);
    assert Appendable(t) == Appendable(s);
    SameLaunchLoad(s, t);
  }

  lemma StatusSpends(s: State, reason: Reason)
    requires Inv(s) && s.Current().Some? && Timely(s, reason)
    ensures var cr := s.Current().value;
            var t := PutStatus(s, cr, Updated(reason, cr.status, |s.hist|));
            && t.WellFormed()
            && Potential(t) <= Potential(s) - StatusRank(cr.status) + StatusRank(Updated(reason, cr.status, |s.hist|))
  {
    hide Inv, TaintLoad, LaunchLoad, TotalLoad;
    var cr := s.Current().value;
    var v := cr.(status := Updated(reason, cr.status, |s.hist|));
    SameObjectStored(s, v);
    NotedPotential(Put(s, Some(v)), SucceededStored(cr.uid));
  }

  lemma FinishSpends(s: State, fault: bool)
    requires Inv(s) && s.pc.Finish?
    ensures Spends(s, FinishStep(s, fault), 0 - One(Misses(s, Reconcile(fault))))
  {
    hide Inv, Potential;
    IdleSpends(s);
    IdleKeeps(s);
    if !fault && s.pc.ver == s.Last() && s.pc.why.Some? {
      FinishTimely(s);
      FinishReasons(s);
      var u := s.(pc := Idle);
      RankFalls(u, s.pc.why.value);
      StatusSpends(u, s.pc.why.value);
    }
  }

  // ---------------------------------------------------------------- the reconciler

  lemma AddFinalizerSpends(s: State, fault: bool)
    requires Inv(s) && s.pc.AddFinalizer?
    ensures Spends(s, AddFinalizerStep(s, fault), 0)
  {
    hide Inv, Tainted, OutOfServiceTainted;
    AddsToUntouched(s);
    var ver := s.pc.ver;
    if !fault && ver == s.Last() {
      var v := s.Current().value.(finalizer := true);
      SameObjectStored(s, v);
      var t := AddFinalizerStep(s, fault);
      assert t == Put(s, Some(v)).(pc := Finish(|s.hist|, Some(Started)));
      assert Appendable(t) ==> Appendable(s);
    }
  }

  // Moving on in the same reconcile with other goroutines changes only their part.
  lemma ExecPart(s: State, t: State)
    requires s.WellFormed() && t.WellFormed() && !s.pc.Idle? && !t.pc.Idle? && t.pc.ver == s.pc.ver
    requires t.hist == s.hist && t.node == s.node && t.launched == s.launched
    requires StartLoad(t) == 0 && ClosingLoad(t) <= ClosingLoad(s)
    ensures Potential(t) - TotalLoad(t.exec.gos) - |t.exec.routines| <=
            Potential(s) - TotalLoad(s.exec.gos) - |s.exec.routines|
  {
    assert Reading(t) == Reading(s);
  }

  lemma CancelSpends(s: State, fault: bool)
    requires Inv(s) && s.pc.Cancel?
    ensures Spends(s, ReconcileStep(s, fault), 0)
  {
    var cr := s.hist[s.pc.ver].value;
    var t := ReconcileStep(s, fault);
    CancelExec(s, fault);
    RemovedLoad(s.exec, cr.uid);
    hide Inv;
    assert t.exec == Removed(s.exec, cr.uid) && StartLoad(t) == 0;
    ExecPart(s, t);
  }

  // The object to fence is the current one and was not fenced in this process.
  lemma LaunchesCurrent(s: State)
    requires Inv(s) && s.pc.Launch?
    ensures var uid := s.hist[s.pc.ver].value.uid;
            && s.Current().Some? && s.Current().value.uid == uid
            && (uid !in s.exec.routines ==> uid !in s.launched)
  {}

  // Remembering the start of the current object takes its whole launch load away.
  lemma LaunchedPart(s: State, uid: Uid)
    requires s.WellFormed() && s.Current().Some? && s.Current().value.uid == uid && uid !in s.launched
    ensures var t := s.(launched := s.launched + {uid});
            t.WellFormed() && Potential(t) + 60 + 3 * MaxRetries(s.hist) == Potential(s)
  {
    hide TotalLoad, ObjectLoad, Tainted, OutOfServiceTainted, MaxRetries;
    var t := s.(launched := s.launched + {uid});
    assert Appendable(t) == Appendable(s);
  }

  lemma LaunchSpends(s: State, fault: bool)
    requires Inv(s) && s.pc.Launch?
    ensures Spends(s, ReconcileStep(s, fault), 0)
  {
    hide Inv, Potential;
    LaunchKeeps(s, fault);
    LaunchesCurrent(s);
    var cr := s.hist[s.pc.ver].value;
    var t := ReconcileStep(s, fault);
    var u := s.(exec := t.exec, pc := t.pc);
    ExecPart(s, u);
    if cr.uid !in s.exec.routines {
      LaunchedLoad(s.exec, cr.uid, cr.retries);
      MaxRetriesBounds(s.hist, s.pc.ver);
      var v := u.(launched := t.launched);
      LaunchedPart(u, cr.uid);
      NotedPotential(v, FenceStarted(cr.uid));
    }
  }

  // Taints are added while the current object is read alive, and removed while it is
  // read as being deleted.
  lemma JobTiming(s: State)
    requires Inv(s) && s.pc.WriteNode? && s.node.Some? && s.node.value.ver == s.pc.copy.ver
    ensures s.node.value == s.pc.copy && !JobIdle(s.pc.job, s.pc.copy.taints)
    ensures Appendable(s) == Adds(s.pc.job)
  {}

  lemma WrittenTaintLoad(s: State, t: State)
    requires s.WellFormed() && t.WellFormed() && s.pc.WriteNode? && s.node == Some(s.pc.copy)
    requires !JobIdle(s.pc.job, s.pc.copy.taints)
    requires t.node == Some(Node(s.clock, JobResult(s.pc.job, s.pc.copy.taints, s.clock)))
    requires Appendable(t) == Appendable(s) == Adds(s.pc.job)
    ensures TaintLoad(t) < TaintLoad(s)
  {
    JobTaints(s.pc.job, s.pc.copy.taints, s.clock, RemediationTaint());
    JobTaints(s.pc.job, s.pc.copy.taints, s.clock, OutOfServiceTaint(0));
  }

  lemma WrittenSpends(s: State, fault: bool)
    requires Inv(s) && s.pc.WriteNode? && s.node == Some(s.pc.copy) && !fault
    ensures Spends(s, WriteNodeStep(s, fault), 0)
  {
    hide Inv, Tainted, OutOfServiceTainted, LaunchLoad, ObjectLoad, TaintLoad, JobResult;
    WriteNodeKeeps(s, fault);
    JobTiming(s);
    var t := WriteNodeStep(s, fault);
    assert t.hist == s.hist && t.exec == s.exec && t.launched == s.launched;
    assert t.pc.ver == s.pc.ver && !t.pc.Idle? && StartLoad(t) == 0;
    assert Reading(t) == Reading(s);
    WrittenTaintLoad(s, t);
    SameLaunchLoad(s, t);
  }

  lemma SameLaunchLoad(s: State, t: State)
    requires s.WellFormed() && t.WellFormed() && t.hist == s.hist && t.launched == s.launched
    ensures LaunchLoad(t) == LaunchLoad(s)
  {}

  lemma WriteNodeSpends(s: State, fault: bool)
    requires Inv(s) && s.pc.WriteNode?
    ensures Spends(s, WriteNodeStep(s, fault), 0)
  {
    hide Inv;
    if s.node.Some? && s.node.value.ver == s.pc.copy.ver && !fault {
      JobTiming(s);
      WrittenSpends(s, fault);
    } else {
      var t := WriteNodeStep(s, fault);
      assert t.exec == s.exec && StartLoad(t) == 0;
      ExecPart(s, t);
    }
  }

  lemma DropFinalizerSpends(s: State, fault: bool)
    requires Inv(s) && s.pc.DropFinalizer?
    ensures Spends(s, DropFinalizerStep(s, fault), 0)
  {
    hide Inv, Tainted, OutOfServiceTainted, MaxRetries;
    IdleSpends(s);
    if !fault && s.pc.ver == s.Last() {
      VersionSound(s, s.Last());
      DroppedNode(s);
    }
  }

  lemma DroppedNode(s: State)
    requires Inv(s) && s.pc.DropFinalizer?
    ensures !Tainted(s.node) && !OutOfServiceTainted(s.node) && Known(s.hist[s.pc.ver].value.status)
  {
    VersionSound(s, s.pc.ver);
  }

  // The steps that only read, and the eviction.
  lemma ReadingSpends(s: State, fault: bool)
    requires s.WellFormed()
    requires s.pc.GetNode? || s.pc.ReadNode? || s.pc.CheckRunning? || s.pc.Build? || s.pc.EvictPods?
    ensures Spends(s, ReconcileStep(s, fault), 0 - One(Misses(s, Reconcile(fault))))
  {
    var t := ReconcileStep(s, fault);
    assert t.hist == s.hist && t.node == s.node && t.exec == s.exec && t.cache == s.cache && t.launched == s.launched;
    assert t.pc.ver == s.pc.ver && !t.pc.Idle? && StartLoad(t) == 0;
    assert Reading(t) == Reading(s);
  }

  lemma ReconcileSpends(s: State, fault: bool)
    requires Inv(s) && !s.pc.Idle?
    ensures Spends(s, ReconcileStep(s, fault), 0 - One(Misses(s, Reconcile(fault))))
  {
    hide Inv;
    match s.pc
    case Cancel(_, _) => CancelSpends(s, fault);
    case AddFinalizer(_) => AddFinalizerSpends(s, fault);
    case WriteNode(_, _, _) => WriteNodeSpends(s, fault);
    case Launch(_) => LaunchSpends(s, fault);
    case DropFinalizer(_) => DropFinalizerSpends(s, fault);
    case Finish(_, _) => FinishSpends(s, fault);
    case _ => ReadingSpends(s, fault);
  }

  // ---------------------------------------------------------------- the goroutines

  lemma MovedSpends(s: State, r: nat, pc: GoPc)
    requires Inv(s) && r < |s.exec.gos| && GoSound(s.hist, s.exec.gos[r].(pc := pc))
    ensures var t := s.(exec := Stepped(s.exec, r, pc));
            && t.WellFormed()
            && Potential(t) == Potential(s) - GoLoad(s.exec.gos[r]) + GoLoad(s.exec.gos[r].(pc := pc))
  {
    hide Inv;
    LoadUpdate(s.exec.gos, r, s.exec.gos[r].(pc := pc));
    MovedKeeps(s, r, pc);
  }

  lemma RecordedLoad(g: Go)
    requires g.pc.Store?
    ensures GoLoad(g) >= 11 && GoLoad(g.(pc := Ended)) == 0
  {}

  lemma RecordSpends(s: State, r: nat)
    requires Inv(s) && r < |s.exec.gos| && s.exec.gos[r].pc.Store? && !s.exec.gos[r].cancelled
    requires s.exec.gos[r].pc.ver == s.Last()
    ensures var g := s.exec.gos[r];
            var cr := s.hist[g.pc.ver].value;
            Spends(s, PutStatus(s.(exec := Stepped(s.exec, r, Ended)), cr,
                                Updated(ReasonFor(g.pc.verdict), cr.status, |s.hist|)), 1)
  {
    hide Inv;
    var g := s.exec.gos[r];
    RecordTimely(s, r);
    MovedKeeps(s, r, Ended);
    MovedSpends(s, r, Ended);
    hide Potential;
    var u := s.(exec := Stepped(s.exec, r, Ended));
    assert Timely(u, ReasonFor(g.pc.verdict));
    RecordedLoad(g);
    RankFalls(u, ReasonFor(g.pc.verdict));
    StatusSpends(u, ReasonFor(g.pc.verdict));
  }

  lemma StoreSound(s: State, r: nat)
    requires Inv(s) && r < |s.exec.gos| && s.exec.gos[r].pc.Store?
    ensures !Panics(ReasonFor(s.exec.gos[r].pc.verdict), s.hist[s.exec.gos[r].pc.ver].value.status)
  {
    VersionSound(s, s.exec.gos[r].pc.ver);
  }

  lemma WriteSpends(s: State, r: nat, fault: bool)
    requires Inv(s) && r < |s.exec.gos| && s.exec.gos[r].pc.Store?
    ensures Spends(s, WriteStep(s, r, fault), One(WriteStep(s, r, fault).hist != s.hist))
  {
    hide Inv, Potential;
    var g := s.exec.gos[r];
    StoreSound(s, r);
    if g.cancelled || fault || s.Current().None? {
      MovedSpends(s, r, Ended);
    } else if g.pc.ver == s.Last() {
      RecordSpends(s, r);
    } else {
      MovedSpends(s, r, if g.pc.tries <= 1 then Ended else RecordPause(g.pc.tries - 1, g.pc.verdict));
    }
  }

  lemma LiveSeen(s: State, r: nat)
    requires Inv(s) && r < |s.exec.gos| && !s.exec.gos[r].cancelled
    ensures s.Seen().Some? && !s.Seen().value.status.Blank()
  {
    LiveOwned(s, r);
  }

  lemma ListSpends(s: State, r: nat, fault: bool, alone: bool)
    requires Inv(s) && r < |s.exec.gos| && s.exec.gos[r].pc.Lookup?
    requires fault || !alone || s.Seen().Some?
    ensures Spends(s, ListStep(s, r, fault, alone), 0)
  {
    hide Inv, Potential;
    var g := s.exec.gos[r];
    if !g.cancelled { LiveSeen(s, r); }
    MovedSpends(s, r, Ended);
    if s.Seen().Some? && s.Seen().value.uid == g.uid {
      MovedSpends(s, r, Store(g.pc.tries, g.pc.verdict, s.cache));
    }
  }

  lemma CheckSpends(s: State, r: nat)
    requires Inv(s) && GoEnabled(s, r, Check)
    ensures Spends(s, GoStep(s, r, Check), 0)
  {
    hide Inv, Potential;
    MovedSpends(s, r, Checked(s.exec.gos[r]));
    NotedPotential(s.(exec := Stepped(s.exec, r, Checked(s.exec.gos[r]))), CommandRun(s.exec.gos[r].uid));
  }

  lemma RunSpends(s: State, r: nat, o: Outcome)
    requires Inv(s) && GoEnabled(s, r, Run(o))
    ensures Spends(s, GoStep(s, r, Run(o)), 0)
  {
    hide Inv, Potential;
    MovedSpends(s, r, Ran(s.exec.gos[r].pc.left, o));
    NotedPotential(s.(exec := Stepped(s.exec, r, Ran(s.exec.gos[r].pc.left, o))), FenceOk(s.exec.gos[r].uid));
  }

  lemma WakeSpends(s: State, r: nat, byCancel: bool)
    requires Inv(s) && GoEnabled(s, r, Wake(byCancel))
    ensures Spends(s, GoStep(s, r, Wake(byCancel)), 0)
  {
    hide Inv, Potential;
    MovedSpends(s, r, Woken(s.exec.gos[r].pc, byCancel));
  }

  lemma GoSpends(s: State, r: nat, a: GoAction)
    requires Inv(s) && GoEnabled(s, r, a) && Calm(s, Routine(r, a))
    ensures Spends(s, GoStep(s, r, a), One(GoStep(s, r, a).hist != s.hist))
  {
    hide Inv;
    match a
    case Check => CheckSpends(s, r);
    case Run(o) => RunSpends(s, r, o);
    case Wake(byCancel) => WakeSpends(s, r, byCancel);
    case List(fault, alone) => ListSpends(s, r, fault, alone);
    case Write(fault) => WriteSpends(s, r, fault);
  }

  // ---------------------------------------------------------------- runs

  lemma StepSpends(s: State, a: Action)
    requires Inv(s) && Enabled(s, a) && Calm(s, a)
    ensures Spends(s, Step(s, a), One(Stores(s, a)) - One(Misses(s, a)))
  {
    hide Inv;
    match a
    case Disturb(d) => ObserveSpends(s, d.ver);
    case Get(_) =>
    case Reconcile(fault) => ReconcileSpends(s, fault);
    case Routine(r, g) => GoSpends(s, r, g);
  }

  ghost predicate AllCalm(s: State, acts: seq<Action>)
    requires Valid(s, acts)
    decreases |acts|
  {
    acts == [] || (Calm(s, acts[0]) && AllCalm(Step(s, acts[0]), acts[1..]))
  }

  // How many steps of a run changed the object, the node or a goroutine or deleted pods.
  ghost function Effects(s: State, acts: seq<Action>): nat
    requires Valid(s, acts)
    decreases |acts|
  {
    if acts == [] then 0
    else One(Changes(s, Step(s, acts[0]))) + Effects(Step(s, acts[0]), acts[1..])
  }

  ghost function Evictions(s: State, acts: seq<Action>): nat
    requires Valid(s, acts)
    decreases |acts|
  {
    if acts == [] then 0
    else One(Evicts(s, Step(s, acts[0]))) + Evictions(Step(s, acts[0]), acts[1..])
  }

  ghost function Missed(s: State, acts: seq<Action>): nat
    requires Valid(s, acts)
    decreases |acts|
  {
    if acts == [] then 0
    else One(Misses(s, acts[0])) + Missed(Step(s, acts[0]), acts[1..])
  }

  ghost function StoredByRoutines(s: State, acts: seq<Action>): nat
    requires Valid(s, acts)
    decreases |acts|
  {
    if acts == [] then 0
    else One(Stores(s, acts[0])) + StoredByRoutines(Step(s, acts[0]), acts[1..])
  }

  lemma {:induction false} CalmRunSpends(s: State, acts: seq<Action>)
    requires Inv(s) && Valid(s, acts) && AllCalm(s, acts)
    ensures Final(s, acts).WellFormed() && Evictions(s, acts) <= Effects(s, acts)
    ensures Effects(s, acts) + StoredByRoutines(s, acts) + Potential(Final(s, acts)) <= Potential(s) + Missed(s, acts)
    decreases |acts|
  {
    hide Inv, Step, Enabled, Potential, Stores, Misses, Calm;
    if acts != [] {
      StepKeeps(s, acts[0]);
      StepSpends(s, acts[0]);
      CalmRunSpends(Step(s, acts[0]), acts[1..]);
    }
  }

  // Main result.  Between two disturbances, API faults and conflicts included, the
  // operator takes at most Potential(s) steps with an effect, deleting pods among them,
  // and one more for each reconcile whose eviction or closing status write missed.
  lemma FinitelyManyEffects(s: State, acts: seq<Action>)
    requires Reachable(s) && Valid(s, acts) && AllCalm(s, acts)
    ensures Evictions(s, acts) <= Effects(s, acts) <= Potential(s) + Missed(s, acts)
  {
    ReachableInv(s);
    CalmRunSpends(s, acts);
  }

  // ---------------------------------------------------------------- what a miss costs

  // Every miss comes after an eviction of its own, unless the reconcile only added the
  // out-of-service taint.
  ghost predicate ByDeletion(h: Versions) {
    forall i :: 0 <= i < |h| && h[i].Some? ==> !h[i].value.strategy.OutOfService?
  }

  lemma TaintsOutOfService(s: State)
    requires Inv(s) && (s.pc.ReadNode? || s.pc.WriteNode?) && s.pc.job.TaintOutOfService?
    ensures s.hist[s.pc.ver].value.strategy.OutOfService?
  {}

  lemma ReconcileMisses(s: State, fault: bool)
    requires Inv(s) && !s.pc.Idle? && ByDeletion(s.hist)
    ensures One(Misses(s, Reconcile(fault))) + One(Closing(ReconcileStep(s, fault).pc)) <=
            One(Closing(s.pc)) + One(Evicts(s, ReconcileStep(s, fault)))
  {
    hide Inv;
    if (s.pc.ReadNode? || s.pc.WriteNode?) && s.pc.job.TaintOutOfService? { TaintsOutOfService(s); }
  }

  lemma StepMisses(s: State, a: Action)
    requires Inv(s) && Enabled(s, a) && Calm(s, a) && ByDeletion(s.hist)
    ensures One(Misses(s, a)) + One(Closing(Step(s, a).pc)) <= One(Closing(s.pc)) + One(Evicts(s, Step(s, a)))
  {
    hide Inv;
    match a
    case Disturb(_) =>
    case Get(_) =>
    case Reconcile(fault) => ReconcileMisses(s, fault);
    case Routine(r, g) =>
  }

  // No calm step stores an object of another strategy.
  lemma StaysByDeletion(s: State, a: Action)
    requires Inv(s) && Enabled(s, a) && Calm(s, a) && ByDeletion(s.hist)
    ensures ByDeletion(Step(s, a).hist)
  {
    hide Inv, Step, Enabled;
    var t := Step(s, a);
    StepKeeps(s, a);
    SoundHistory(t);
    OneVersion(s, a);
    CalmCreatesNothing(s, a);
    if t.hist != s.hist {
      assert Follows(t.hist, s.Last());
      assert s.Current().Some? ==> !s.hist[s.Last()].value.strategy.OutOfService?;
    }
  }

  lemma CalmCreatesNothing(s: State, a: Action)
    requires Inv(s) && Enabled(s, a) && Calm(s, a)
    ensures Step(s, a).hist != s.hist ==> s.Current().Some?
  {
    hide Inv;
    if a.Reconcile? { ReconcileCreatesNothing(s, a.fault); }
  }

  lemma ReconcileCreatesNothing(s: State, fault: bool)
    requires s.WellFormed() && !s.pc.Idle?
    ensures ReconcileStep(s, fault).hist != s.hist ==> s.Current().Some?
  {}

  lemma {:induction false} MissesAreEvictions(s: State, acts: seq<Action>)
    requires Inv(s) && Valid(s, acts) && AllCalm(s, acts) && ByDeletion(s.hist)
    ensures Missed(s, acts) + One(Closing(Final(s, acts).pc)) <= Evictions(s, acts) + One(Closing(s.pc))
    decreases |acts|
  {
    hide Inv, Step, Enabled, Misses, Evicts, Closing, Calm, ByDeletion;
    if acts != [] {
      StepKeeps(s, acts[0]);
      StepMisses(s, acts[0]);
      StaysByDeletion(s, acts[0]);
      MissesAreEvictions(Step(s, acts[0]), acts[1..]);
    }
  }

  // Main result.  Where pods are deleted by the operator, misses and evictions differ by no
  // more than the potential: a run evicts without bound exactly as it misses without bound.
  lemma EvictionsFollowMisses(s: State, acts: seq<Action>)
    requires Reachable(s) && Valid(s, acts) && AllCalm(s, acts) && ByDeletion(s.hist)
    ensures Missed(s, acts) - One(Closing(s.pc)) <= Evictions(s, acts) <= Potential(s) + Missed(s, acts)
  {
    ReachableInv(s);
    CalmRunSpends(s, acts);
    MissesAreEvictions(s, acts);
  }

  // ---------------------------------------------------------------- reading what is current

  // Every reconcile starts from the current version, and neither the eviction nor the
  // closing status write meets an API fault.
  predicate Prompt(s: State, a: Action)
    requires s.WellFormed()
  {
    && (a.Get? ==> s.cache == s.Last())
    && (a.Reconcile? && a.fault ==> !s.pc.EvictPods? && !Closing(s.pc))
  }

  ghost predicate AllPrompt(s: State, acts: seq<Action>)
    requires Valid(s, acts)
    decreases |acts|
  {
    acts == [] || (Prompt(s, acts[0]) && AllPrompt(Step(s, acts[0]), acts[1..]))
  }

  // The copy of the reconcile in progress is out of date.
  function Lag(s: State): nat
    requires s.WellFormed()
  {
    One(!s.pc.Idle? && s.pc.ver != s.Last())
  }

  lemma LagReconcile(s: State, fault: bool)
    requires s.WellFormed() && !s.pc.Idle? && Prompt(s, Reconcile(fault)) && ReconcileStep(s, fault).WellFormed()
    ensures One(Misses(s, Reconcile(fault))) + Lag(ReconcileStep(s, fault)) <= Lag(s)
  {}

  lemma LagRoutine(s: State, r: nat, a: GoAction)
    requires s.WellFormed() && GoEnabled(s, r, a) && GoStep(s, r, a).WellFormed()
    ensures Lag(GoStep(s, r, a)) <= Lag(s) + One(GoStep(s, r, a).hist != s.hist)
  {}

  lemma LagStep(s: State, a: Action)
    requires s.WellFormed() && Enabled(s, a) && Calm(s, a) && Prompt(s, a) && Step(s, a).WellFormed()
    ensures One(Misses(s, a)) + Lag(Step(s, a)) <= Lag(s) + One(Stores(s, a))
  {
    match a
    case Disturb(_) =>
    case Get(_) =>
    case Reconcile(fault) => LagReconcile(s, fault);
    case Routine(r, g) => LagRoutine(s, r, g);
  }

  lemma {:induction false} PromptRunMisses(s: State, acts: seq<Action>)
    requires Inv(s) && Valid(s, acts) && AllCalm(s, acts) && AllPrompt(s, acts)
    ensures Final(s, acts).WellFormed() && Missed(s, acts) + Lag(Final(s, acts)) <= Lag(s) + StoredByRoutines(s, acts)
    decreases |acts|
  {
    hide Inv, Step, Enabled, Lag, Stores, Misses, Calm, Prompt;
    if acts != [] {
      StepKeeps(s, acts[0]);
      LagStep(s, acts[0]);
      PromptRunMisses(Step(s, acts[0]), acts[1..]);
    }
  }

  // Main result.  When every reconcile reads what is current, the misses pay for
  // themselves and the bound needs none of them: evictions are finitely many.
  lemma PromptReadsBoundEvictions(s: State, acts: seq<Action>)
    requires Reachable(s) && Valid(s, acts) && AllCalm(s, acts) && AllPrompt(s, acts)
    ensures Evictions(s, acts) <= Effects(s, acts) <= Potential(s) + Lag(s)
  {
    ReachableInv(s);
    CalmRunSpends(s, acts);
    PromptRunMisses(s, acts);
  }
}
