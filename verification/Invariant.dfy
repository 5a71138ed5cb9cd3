// What holds in every reachable state of the protocol, whatever the schedule.
module Invariant {
  import opened Basics
  import opened Conditions
  import opened Taints
  import opened Executions
  import opened Protocol
  import opened History

  // The object is alive, untouched by NHC and carries the finalizer.
  predicate Active(cr: CR) { cr.finalizer && !cr.deleting && !cr.timedOut }
  predicate Untouched(cr: CR) { !cr.finalizer && !cr.deleting && !cr.timedOut }
  predicate Gate(cr: CR) {
    Active(cr) && cr.status.Is(Processing, True) && !cr.status.Is(FenceAgentActionSucceeded, True)
  }
  predicate Fenced(cr: CR) {
    cr.status.Is(FenceAgentActionSucceeded, True) && !cr.status.Is(Succeeded, True)
  }

  // Why the reconciler may be where it is, read off its local copy.
  ghost predicate Justified(h: Versions, pc: Pc)
    requires !pc.Idle? ==> pc.ver < |h| && h[pc.ver].Some?
  {
    pc.Idle? ||
    var cr := h[pc.ver].value;
    match pc
    case GetNode(_) => true
    case Cancel(_, after) => (
      match after
      case ForDeletion(_) => cr.deleting && !cr.status.Blank()
      case ForTimeout => cr.timedOut && !cr.deleting
      case ForCompletion => Active(cr) && Fenced(cr))
    case AddFinalizer(_) => !cr.deleting && !cr.timedOut && !cr.finalizer
    case ReadNode(_, job) => JobJustified(cr, job)
    case WriteNode(_, job, copy) => JobJustified(cr, job) && !JobIdle(job, copy.taints)
    case CheckRunning(_) | Build(_) | Launch(_) => Gate(cr)
    case EvictPods(_) => Active(cr) && Fenced(cr) && (cr.strategy.ResourceDeletion? || cr.strategy.Default?)
    case DropFinalizer(_) => cr.deleting && !cr.status.Blank()
    case Finish(ver, why) =>
      why.Some? ==> (
        match why.value
        case NodeNotFound => !cr.deleting && !cr.timedOut
        case InterruptedByNHC => cr.timedOut && !cr.deleting
        case Started =>
          Active(cr) && 0 < ver && h[ver - 1].Some? && h[ver - 1].value.uid == cr.uid && !h[ver - 1].value.finalizer
        case FinishedSuccessfully => Active(cr) && Fenced(cr)
        case _ => false)
  }

  ghost predicate JobJustified(cr: CR, job: Job) {
    match job
    case TaintNode => Active(cr)
    case TaintOutOfService => Active(cr) && Fenced(cr) && cr.strategy.OutOfService?
    case UntaintOutOfService => cr.deleting && !cr.status.Blank() && cr.strategy.OutOfService?
    case UntaintNode => cr.deleting && !cr.status.Blank()
  }

  // The reconciler is past stopping the routine of a deleted or timed-out object.
  predicate Draining(pc: Pc) {
    pc.DropFinalizer? || ((pc.ReadNode? || pc.WriteNode?) && !Adds(pc.job)) ||
    (pc.Finish? && pc.why == Some(InterruptedByNHC))
  }

  ghost predicate PcInv(s: State)
    requires s.WellFormed()
  {
    && Justified(s.hist, s.pc)
    && (!s.pc.Idle? ==>
          var cr := s.hist[s.pc.ver].value;
          && (s.pc.ver <= s.cache || (s.pc.Finish? && s.pc.why == Some(Started)))
          && (cr.finalizer && !cr.deleting ==> s.Current().Some? && s.Current().value.uid == cr.uid)
          && (Draining(s.pc) ==> cr.uid !in s.exec.routines))
  }

  // The incarnation the cache shows and the current one are uid's, and uid is under
  // the finalizer and started.
  ghost predicate Owned(s: State, uid: Uid)
    requires s.WellFormed()
  {
    && s.Current().Some? && s.Current().value.uid == uid && s.Current().value.finalizer
    && s.Seen().Some? && s.Seen().value.uid == uid && !s.Seen().value.status.Blank()
  }

  ghost predicate ExecInv(s: State)
    requires s.WellFormed()
  {
    && Corresponds(s.exec)
    && (forall u :: u in s.exec.routines ==> Owned(s, u))
    && (forall r :: 0 <= r < |s.exec.gos| ==> GoSound(s.hist, s.exec.gos[r]))
  }

  // A goroutine about to store a result holds a version of its own object.
  ghost predicate GoSound(h: Versions, g: Go) {
    g.pc.Store? ==>
      && g.pc.ver < |h| && h[g.pc.ver].Some? && h[g.pc.ver].value.uid == g.uid
      && (!g.cancelled ==> !h[g.pc.ver].value.status.Blank())
  }

  // A node that carries one of the operator's taints belongs to the current object.
  ghost predicate TaintInv(s: State)
    requires s.WellFormed()
  {
    && (Tainted(s.node) || OutOfServiceTainted(s.node) ==>
          && s.Current().Some? && s.Current().value.finalizer
          && s.Seen().Some? && s.Seen().value.uid == s.Current().value.uid
          && (!s.pc.Idle? ==> s.hist[s.pc.ver].value.uid == s.Current().value.uid))
    && (OutOfServiceTainted(s.node) ==> s.Current().value.strategy.OutOfService?)
    && (s.pc.DropFinalizer? ==> !Tainted(s.node))
    && (s.pc.DropFinalizer? || ((s.pc.ReadNode? || s.pc.WriteNode?) && s.pc.job.UntaintNode?) ==>
          !OutOfServiceTainted(s.node))
    && (s.pc.Cancel? && s.pc.after == ForDeletion(false) ==> !Tainted(s.node) && !OutOfServiceTainted(s.node))
    && (s.node.Some? ==> s.node.value.ver < s.clock)
    && (s.pc.WriteNode? ==> s.pc.copy.ver < s.clock)
    && (s.pc.WriteNode? && s.node.Some? && s.node.value.ver == s.pc.copy.ver ==> s.node.value == s.pc.copy)
  }

  // A uid that ran in this process and is no longer in the map can never run again.
  ghost predicate LaunchInv(s: State)
    requires s.WellFormed()
  {
    && (forall u :: u in s.exec.routines ==> u in s.launched)
    && (forall u :: u in s.launched ==> u <= s.cache && (u in s.exec.routines || Past(s.hist, s.cache, u)))
    && (!s.pc.Idle? && !s.pc.Finish? && Gate(s.hist[s.pc.ver].value) && s.hist[s.pc.ver].value.uid in s.launched ==>
          s.hist[s.pc.ver].value.uid in s.exec.routines)
  }

  ghost predicate Inv(s: State)
    ensures Inv(s) ==> s.WellFormed()
  {
    && s.WellFormed()
    && Sound(s.hist) && Drained(s.hist, s.cache)
    && PcInv(s) && ExecInv(s) && TaintInv(s) && LaunchInv(s)
  }

  lemma VersionSound(s: State, i: nat)
    requires Inv(s) && i < |s.hist| && s.hist[i].Some?
    ensures SoundVersion(s.hist[i].value, i)
  {}

  lemma SoundHistory(s: State)
    requires Inv(s)
    ensures Sound(s.hist)
  {}

  lemma RoutinesCorrespond(s: State)
    requires Inv(s)
    ensures Corresponds(s.exec)
  {}

  // The version a goroutine is about to update is one of its own object.
  lemma StoresItsOwn(s: State, r: nat)
    requires Inv(s) && r < |s.exec.gos| && s.exec.gos[r].pc.Store?
    ensures var g := s.exec.gos[r];
            g.pc.ver < |s.hist| && s.hist[g.pc.ver].Some? && s.hist[g.pc.ver].value.uid == g.uid
  {
    assert GoSound(s.hist, s.exec.gos[r]);
  }

  lemma AddsToUntouched(s: State)
    requires Inv(s) && s.pc.AddFinalizer?
    ensures Untouched(s.hist[s.pc.ver].value)
  {}

  // The reconciler never records that the command succeeded.
  lemma FinishReasons(s: State)
    requires Inv(s) && s.pc.Finish? && s.pc.why.Some?
    ensures !s.pc.why.value.FenceAgentSucceeded?
  {}

  lemma NoObjectNoTaint(s: State)
    requires Inv(s) && s.Current().None?
    ensures !Tainted(s.node) && !OutOfServiceTainted(s.node)
  {}

  lemma InitInv(s: State)
    requires Init(s)
    ensures Inv(s)
  {}

  lemma NotedKeeps(s: State, e: Event)
    requires Inv(s)
    ensures Inv(Noted(s, e))
  {
    hide Sound, Drained, Tainted, OutOfServiceTainted;
    var t := Noted(s, e);
    assert forall u :: u in s.exec.routines ==> Owned(s, u) && Owned(t, u);
  }

  // ---------------------------------------------------------------- the environment

  // v may be stored next: it keeps the current incarnation, starts one, or ends one
  // that never had the finalizer.
  ghost predicate Storable(s: State, v: Option<CR>)
    requires s.WellFormed()
  {
    && Follows(s.hist + [v], |s.hist| - 1)
    && (v.Some? ==> SoundVersion(v.value, |s.hist|))
    && (v.None? && s.Current().Some? ==> !s.Current().value.finalizer)
  }

  lemma StoredPc(s: State, v: Option<CR>)
    requires Inv(s) && Storable(s, v)
    ensures PcInv(Put(s, v))
  {
    if !s.pc.Idle? {
      var cr := s.hist[s.pc.ver].value;
      assert Put(s, v).hist[s.pc.ver] == Some(cr);
      if cr.finalizer && !cr.deleting { SameLife(s.hist, s.pc.ver, s.Last()); }
    }
  }

  lemma StoredLaunch(s: State, v: Option<CR>)
    requires Inv(s) && Storable(s, v)
    ensures LaunchInv(Put(s, v))
  {
    var t := Put(s, v);
    assert t.hist[t.cache] == s.hist[s.cache];
    assert s.cache > 0 ==> t.hist[s.cache - 1] == s.hist[s.cache - 1];
    assert forall u :: u in s.launched && Past(s.hist, s.cache, u) ==> Past(t.hist, t.cache, u);
  }

  // Storing such a version disturbs nothing else.
  lemma Stored(s: State, v: Option<CR>)
    requires Inv(s) && Storable(s, v)
    ensures Inv(Put(s, v))
  {
    hide Tainted, OutOfServiceTainted, PcInv, LaunchInv;
    Extend(s.hist, v);
    StoredPc(s, v);
    StoredLaunch(s, v);
    var t := Put(s, v);
    assert t.hist[t.cache] == s.hist[s.cache];
    assert forall u :: u in s.exec.routines ==> Owned(s, u) && Owned(t, u);
    if Tainted(s.node) || OutOfServiceTainted(s.node) { assert s.Current().value.finalizer; }
  }

  lemma ObservedOwned(s: State, v: nat)
    requires Inv(s) && s.cache <= v < |s.hist|
    ensures ExecInv(s.(cache := v)) && TaintInv(s.(cache := v))
  {
    hide Tainted, OutOfServiceTainted, LaunchInv, Drained;
    var t := s.(cache := v);
    if s.Seen().Some? && s.Current().Some? && s.Seen().value.uid == s.Current().value.uid {
      SameLife(s.hist, s.cache, s.Last());
    }
    assert forall u :: u in s.exec.routines ==> Owned(s, u) && Owned(t, u);
  }

  lemma Observed(s: State, v: nat)
    requires Inv(s) && s.cache <= v < |s.hist|
    ensures Inv(s.(cache := v))
  {
    ObservedOwned(s, v);
    forall u | u in s.launched && u !in s.exec.routines ensures Past(s.hist, v, u) {
      PastStays(s.hist, s.cache, v, u);
    }
  }

  lemma NodeChanged(s: State, taints: seq<Taint>)
    requires Inv(s)
    requires Has(taints, RemediationTaint()) ==> Tainted(s.node)
    requires Has(taints, OutOfServiceTaint(0)) ==> OutOfServiceTainted(s.node)
    ensures Inv(SetNode(s, taints))
  {}

  lemma CrashKeeps(s: State)
    requires Inv(s)
    ensures Inv(Restarted(s))
  {
    hide Tainted, OutOfServiceTainted, Sound;
    var t := Restarted(s);
    if Tainted(s.node) || OutOfServiceTainted(s.node) { assert t.Seen() == t.Current(); }
  }

  lemma EnvironmentKeeps(s: State, a: Disturbance)
    requires Inv(s) && EnvironmentEnabled(s, a)
    ensures Inv(EnvironmentStep(s, a))
  {
    if s.Current().Some? { assert SoundVersion(s.Current().value, s.Last()); }
    match a
    case Observe(v) => Observed(s, v);
    case NodeGone =>
    case NodeBack(ts) => NodeChanged(s, ts);
    case NodeEdit(ts) => NodeChanged(s, ts);
    case Crash => CrashKeeps(s);
    case Create(strategy, retries) => Stored(s, Some(CR(|s.hist|, false, false, false, strategy, retries, EMPTY)));
    case Touch(retries) => Stored(s, Some(s.Current().value.(retries := retries)));
    case Annotate => Stored(s, Some(s.Current().value.(timedOut := true)));
    case Delete =>
      Stored(s, if s.Current().value.finalizer then Some(s.Current().value.(deleting := true)) else None);
  }

  // ---------------------------------------------------------------- status writes

  // When a status write for this reason is legal on the current version.
  ghost predicate Timely(s: State, reason: Reason)
    requires s.WellFormed() && s.Current().Some?
  {
    var cr := s.Current().value;
    match reason
    case NodeNotFound | InterruptedByNHC | FenceAgentFailed | FenceAgentTimedOut => true
    case Started =>
      cr.finalizer && 1 < |s.hist| && s.hist[s.Last() - 1].Some? && s.hist[s.Last() - 1].value.uid == cr.uid &&
      !s.hist[s.Last() - 1].value.finalizer
    case FenceAgentSucceeded => cr.finalizer && !cr.status.Blank()
    case FinishedSuccessfully => cr.finalizer && Fenced(cr)
    case Unrecognised => false
  }

  lemma TimelyStatus(s: State, reason: Reason)
    requires Inv(s) && s.Current().Some? && Timely(s, reason)
    ensures var cr := s.Current().value;
            Storable(s, Some(cr.(status := Updated(reason, cr.status, |s.hist|))))
  {
    var cr := s.Current().value;
    assert SoundVersion(cr, s.Last());
    var st := Updated(reason, cr.status, |s.hist|);
    assert StatusFollows(cr.status, st, |s.hist|);
    if reason.Started? {
      assert SoundVersion(s.hist[s.Last() - 1].value, s.Last() - 1);
      assert Follows(s.hist, s.Last() - 1);
    }
  }

  lemma StatusKeeps(s: State, reason: Reason)
    requires Inv(s) && s.Current().Some? && Timely(s, reason)
    ensures var cr := s.Current().value;
            Inv(PutStatus(s, cr, Updated(reason, cr.status, |s.hist|)))
  {
    var cr := s.Current().value;
    TimelyStatus(s, reason);
    Stored(s, Some(cr.(status := Updated(reason, cr.status, |s.hist|))));
  }

  // ---------------------------------------------------------------- the reconciler

  lemma GetKeeps(s: State, fault: bool)
    requires Inv(s) && s.pc.Idle?
    ensures Inv(GetStep(s, fault))
  {
    if !fault && s.Seen().Some? {
      var cr := s.Seen().value;
      if cr.finalizer && !cr.deleting { StillCurrent(s.hist, s.cache, s.Last()); }
    }
  }

  // pc is a step of the reconcile in progress that the current state allows.
  ghost predicate Allowed(s: State, pc: Pc)
    requires s.WellFormed()
  {
    && !s.pc.Idle? && !s.pc.Finish? && !pc.Idle? && pc.ver == s.pc.ver <= s.cache
    && Justified(s.hist, pc)
    && (Draining(pc) ==> s.hist[pc.ver].value.uid !in s.exec.routines)
    && (pc.DropFinalizer? ==> !Tainted(s.node) && !OutOfServiceTainted(s.node))
    && ((pc.ReadNode? || pc.WriteNode?) && pc.job.UntaintNode? ==> !OutOfServiceTainted(s.node))
    && (pc.Cancel? && pc.after == ForDeletion(false) ==> !Tainted(s.node) && !OutOfServiceTainted(s.node))
    && (pc.WriteNode? ==> s.node == Some(pc.copy))
  }

  lemma AdvancedTaint(s: State, pc: Pc)
    requires Inv(s) && Allowed(s, pc)
    ensures TaintInv(s.(pc := pc))
  {}

  lemma AdvancedPc(s: State, pc: Pc)
    requires Inv(s) && Allowed(s, pc)
    ensures PcInv(s.(pc := pc)) && LaunchInv(s.(pc := pc))
  {}

  // Moving to another step of the same reconcile without touching anything shared.
  lemma Advanced(s: State, pc: Pc)
    requires Inv(s) && Allowed(s, pc)
    ensures Inv(s.(pc := pc))
  {
    hide Sound, Drained, PcInv, TaintInv, LaunchInv;
    AdvancedTaint(s, pc);
    AdvancedPc(s, pc);
    var t := s.(pc := pc);
    assert forall u :: u in s.exec.routines ==> Owned(s, u) && Owned(t, u);
  }

  lemma GivenUp(s: State)
    requires Inv(s) && !s.pc.Idle? && !s.pc.Finish?
    ensures Inv(s.(pc := Finish(s.pc.ver, None)))
  {
    Advanced(s, Finish(s.pc.ver, None));
  }

  lemma GetNodeKeeps(s: State, fault: bool)
    requires Inv(s) && s.pc.GetNode?
    ensures Inv(ReconcileStep(s, fault))
  {
    var cr := s.hist[s.pc.ver].value;
    Advanced(s, if fault then Finish(s.pc.ver, None) else AfterNode(cr, s.pc.ver, s.node.Some?));
  }

  lemma CancelLaunch(s: State, fault: bool)
    requires Inv(s) && s.pc.Cancel?
    ensures LaunchInv(ReconcileStep(s, fault))
  {
    var ver := s.pc.ver;
    var cr := s.hist[ver].value;
    RemovedCorresponds(s.exec, cr.uid);
    assert SoundVersion(cr, ver);
    if s.pc.after.ForCompletion? { ShutIsBarred(s.hist, ver); }
    PastStays(s.hist, ver, s.cache, cr.uid);
  }

  lemma CancelTaint(s: State, fault: bool)
    requires Inv(s) && s.pc.Cancel?
    ensures PcInv(ReconcileStep(s, fault)) && TaintInv(ReconcileStep(s, fault))
  {
    hide Drained, LaunchInv;
    RemovedCorresponds(s.exec, s.hist[s.pc.ver].value.uid);
    if OutOfServiceTainted(s.node) { SameLife(s.hist, s.pc.ver, s.Last()); }
  }

  lemma CancelExec(s: State, fault: bool)
    requires Inv(s) && s.pc.Cancel?
    ensures ReconcileStep(s, fault).WellFormed() && ExecInv(ReconcileStep(s, fault))
  {
    hide Tainted, OutOfServiceTainted, TaintInv, LaunchInv, Sound, Drained;
    RemovedCorresponds(s.exec, s.hist[s.pc.ver].value.uid);
    var t := ReconcileStep(s, fault);
    assert forall u :: u in t.exec.routines ==> Owned(s, u) && Owned(t, u);
    assert forall r :: 0 <= r < |s.exec.gos| ==> GoSound(s.hist, s.exec.gos[r]);
  }

  lemma CancelKeeps(s: State, fault: bool)
    requires Inv(s) && s.pc.Cancel?
    ensures Inv(ReconcileStep(s, fault))
  {
    CancelExec(s, fault);
    CancelLaunch(s, fault);
    CancelTaint(s, fault);
  }

  lemma FinalizerStored(s: State)
    requires Inv(s) && s.pc.AddFinalizer? && s.pc.ver == s.Last()
    ensures Inv(Put(s, Some(s.hist[s.pc.ver].value.(finalizer := true))))
  {
    var cr := s.hist[s.pc.ver].value;
    assert SoundVersion(cr, s.pc.ver);
    Stored(s, Some(cr.(finalizer := true)));
  }

  // The copy becomes the version just stored, and its start is about to be recorded.
  lemma StartPending(s: State)
    requires Inv(s) && s.pc.AddFinalizer? && s.pc.ver + 1 == s.Last()
    requires s.Current() == Some(s.hist[s.pc.ver].value.(finalizer := true))
    ensures Inv(s.(pc := Finish(s.Last(), Some(Started))))
  {
    hide Tainted, OutOfServiceTainted, Sound, Drained;
    var t := s.(pc := Finish(s.Last(), Some(Started)));
    assert forall u :: u in s.exec.routines ==> Owned(s, u) && Owned(t, u);
  }

  lemma AddFinalizerKeeps(s: State, fault: bool)
    requires Inv(s) && s.pc.AddFinalizer?
    ensures Inv(AddFinalizerStep(s, fault))
  {
    hide Inv;
    if fault || s.pc.ver != s.Last() {
      GivenUp(s);
    } else {
      FinalizerStored(s);
      var u := Put(s, Some(s.hist[s.pc.ver].value.(finalizer := true)));
      assert u.hist[s.pc.ver] == s.hist[s.pc.ver];
      StartPending(u);
    }
  }

  lemma SettledJob(s: State, job: Job)
    requires Inv(s) && (s.pc.ReadNode? || s.pc.WriteNode?) && s.pc.job == job
    requires !Adds(job) ==> !Carries(s.node, JobTaint(job))
    ensures Inv(s.(pc := AfterJob(s.hist[s.pc.ver].value, s.pc.ver, job)))
  {
    var pc := AfterJob(s.hist[s.pc.ver].value, s.pc.ver, job);
    Advanced(s, pc);
  }

  lemma ReadNodeKeeps(s: State, fault: bool)
    requires Inv(s) && s.pc.ReadNode?
    ensures Inv(ReconcileStep(s, fault))
  {
    var ver, job := s.pc.ver, s.pc.job;
    if fault {
      Advanced(s, Finish(ver, None));
    } else if s.node.None? || JobIdle(job, s.node.value.taints) {
      SettledJob(s, job);
    } else {
      Advanced(s, WriteNode(ver, job, s.node.value));
    }
  }

  lemma JobTaints(job: Job, ts: seq<Taint>, now: nat, t: Taint)
    requires Adds(job) ==> !Has(ts, JobTaint(job))
    ensures Has(JobResult(job, ts, now), t) <==>
              if Matches(JobTaint(job), t) then Adds(job) else Has(ts, t)
  {
    if Adds(job) {
      HasAppended(ts, JobTaint(job).(timeAdded := Some(now)), t);
    } else {
      HasWithout(ts, JobTaint(job), t);
    }
  }

  // An unchanged version means an unchanged node.
  lemma CopyIsCurrent(s: State)
    requires Inv(s) && s.pc.WriteNode? && s.node.Some? && s.node.value.ver == s.pc.copy.ver
    ensures s.node == Some(s.pc.copy) && !JobIdle(s.pc.job, s.pc.copy.taints)
  {}

  lemma WrittenTaints(s: State)
    requires Inv(s) && s.pc.WriteNode? && s.node == Some(s.pc.copy)
    ensures var ts := JobResult(s.pc.job, s.pc.copy.taints, s.clock);
            && Inv(SetNode(s, ts))
            && (!Adds(s.pc.job) ==> !Has(ts, JobTaint(s.pc.job)))
  {
    var ts := JobResult(s.pc.job, s.pc.copy.taints, s.clock);
    JobTaints(s.pc.job, s.pc.copy.taints, s.clock, RemediationTaint());
    JobTaints(s.pc.job, s.pc.copy.taints, s.clock, OutOfServiceTaint(0));
    if Adds(s.pc.job) { SameLife(s.hist, s.pc.ver, s.Last()); }
    var t := SetNode(s, ts);
    assert TaintInv(t);
  }

  lemma WriteNodeKeeps(s: State, fault: bool)
    requires Inv(s) && s.pc.WriteNode?
    ensures Inv(WriteNodeStep(s, fault))
  {
    hide Inv, JobResult, AfterJob;
    var job := s.pc.job;
    if fault || (s.node.None? && Adds(job)) || (s.node.Some? && s.node.value.ver != s.pc.copy.ver) {
      GivenUp(s);
    } else if s.node.None? {
      SettledJob(s, job);
    } else {
      CopyIsCurrent(s);
      WrittenTaints(s);
      var t := SetNode(s, JobResult(job, s.pc.copy.taints, s.clock));
      SettledJob(t, job);
      var u := t.(pc := AfterJob(s.hist[s.pc.ver].value, s.pc.ver, job));
      NotedKeeps(u, OutOfServiceAdded(s.hist[s.pc.ver].value.uid));
    }
  }

  lemma LaunchExec(s: State, fault: bool)
    requires Inv(s) && s.pc.Launch?
    ensures ExecInv(ReconcileStep(s, fault))
  {
    hide Tainted, OutOfServiceTainted, TaintInv, Drained;
    var cr := s.hist[s.pc.ver].value;
    var t := ReconcileStep(s, fault);
    LaunchedCorresponds(s.exec, cr.uid, cr.retries);
    SameLife(s.hist, s.pc.ver, s.Last());
    assert Owned(t, cr.uid);
    assert forall u :: u in s.exec.routines ==> Owned(s, u) && Owned(t, u);
  }

  lemma LaunchOnce(s: State, fault: bool)
    requires Inv(s) && s.pc.Launch?
    ensures LaunchInv(ReconcileStep(s, fault))
  {
    assert SoundVersion(s.hist[s.pc.ver].value, s.pc.ver);
  }

  lemma LaunchTaint(s: State, fault: bool)
    requires Inv(s) && s.pc.Launch?
    ensures PcInv(ReconcileStep(s, fault)) && TaintInv(ReconcileStep(s, fault))
  {}

  lemma LaunchKeeps(s: State, fault: bool)
    requires Inv(s) && s.pc.Launch?
    ensures Inv(ReconcileStep(s, fault))
  {
    LaunchExec(s, fault);
    LaunchOnce(s, fault);
    LaunchTaint(s, fault);
    LaunchedCorresponds(s.exec, s.hist[s.pc.ver].value.uid, s.hist[s.pc.ver].value.retries);
  }

  lemma DropFinalizerKeeps(s: State, fault: bool)
    requires Inv(s) && s.pc.DropFinalizer?
    ensures Inv(DropFinalizerStep(s, fault))
  {
    hide Tainted, OutOfServiceTainted;
    if !fault && s.pc.ver == s.Last() {
      Extend(s.hist, None);
      var t := DropFinalizerStep(s, fault);
      assert s.cache == s.Last();
      assert t.hist[t.cache] == s.hist[s.cache];
      assert s.cache > 0 ==> t.hist[s.cache - 1] == s.hist[s.cache - 1];
      assert forall u :: u in s.launched && Past(s.hist, s.cache, u) ==> Past(t.hist, t.cache, u);
      assert forall u :: u in s.exec.routines ==> Owned(s, u);
    }
  }

  lemma IdleKeeps(s: State)
    requires Inv(s)
    ensures Inv(s.(pc := Idle))
  {}

  lemma FinishTimely(s: State)
    requires Inv(s) && s.pc.Finish? && s.pc.ver == s.Last() && s.pc.why.Some?
    ensures Timely(s, s.pc.why.value)
  {}

  lemma FinishKeeps(s: State, fault: bool)
    requires Inv(s) && s.pc.Finish?
    ensures Inv(FinishStep(s, fault))
  {
    hide Inv;
    IdleKeeps(s);
    if !fault && s.pc.ver == s.Last() && s.pc.why.Some? {
      FinishTimely(s);
      StatusKeeps(s.(pc := Idle), s.pc.why.value);
    }
  }

  lemma GateKeeps(s: State, fault: bool)
    requires Inv(s) && (s.pc.CheckRunning? || s.pc.Build?)
    ensures Inv(ReconcileStep(s, fault))
  {
    var ver := s.pc.ver;
    Advanced(s, Finish(ver, None));
    if s.pc.CheckRunning? { Advanced(s, Build(ver)); } else { Advanced(s, Launch(ver)); }
  }

  lemma EvictKeeps(s: State, fault: bool)
    requires Inv(s) && s.pc.EvictPods?
    ensures Inv(ReconcileStep(s, fault))
  {
    var pc := if fault then Finish(s.pc.ver, None) else Cancel(s.pc.ver, ForCompletion);
    Advanced(s, pc);
    NotedKeeps(s.(pc := pc), PodsDeleted(s.hist[s.pc.ver].value.uid));
  }

  lemma ReconcileKeeps(s: State, fault: bool)
    requires Inv(s) && !s.pc.Idle?
    ensures Inv(ReconcileStep(s, fault))
  {
    hide Inv;
    match s.pc
    case GetNode(_) => GetNodeKeeps(s, fault);
    case Cancel(_, _) => CancelKeeps(s, fault);
    case AddFinalizer(_) => AddFinalizerKeeps(s, fault);
    case ReadNode(_, _) => ReadNodeKeeps(s, fault);
    case WriteNode(_, _, _) => WriteNodeKeeps(s, fault);
    case CheckRunning(_) | Build(_) => GateKeeps(s, fault);
    case Launch(_) => LaunchKeeps(s, fault);
    case EvictPods(_) => EvictKeeps(s, fault);
    case DropFinalizer(_) => DropFinalizerKeeps(s, fault);
    case Finish(_, _) => FinishKeeps(s, fault);
  }

  // ---------------------------------------------------------------- the fence goroutines

  // A goroutine that only moves: to a status write only with a version of its own object.
  lemma MovedKeeps(s: State, r: nat, pc: GoPc)
    requires Inv(s) && r < |s.exec.gos|
    requires GoSound(s.hist, s.exec.gos[r].(pc := pc))
    ensures Inv(s.(exec := Stepped(s.exec, r, pc)))
  {
    hide Tainted, OutOfServiceTainted, Sound, Drained;
    SteppedCorresponds(s.exec, r, pc);
    var t := s.(exec := Stepped(s.exec, r, pc));
    assert ExecInv(t) by {
      assert forall u :: u in s.exec.routines ==> Owned(s, u) && Owned(t, u);
      assert forall q :: 0 <= q < |s.exec.gos| ==> GoSound(s.hist, s.exec.gos[q]);
    }
  }

  // The routine of an uncancelled goroutine belongs to the current object.
  lemma LiveOwned(s: State, r: nat)
    requires Inv(s) && r < |s.exec.gos| && !s.exec.gos[r].cancelled
    ensures Owned(s, s.exec.gos[r].uid)
  {
    assert s.exec.gos[r].uid in s.exec.routines;
  }

  // What a live goroutine is about to record on the current version is legal there.
  lemma RecordTimely(s: State, r: nat)
    requires Inv(s) && r < |s.exec.gos| && s.exec.gos[r].pc.Store? && !s.exec.gos[r].cancelled
    requires s.exec.gos[r].pc.ver == s.Last()
    ensures s.Current().Some? && Timely(s, ReasonFor(s.exec.gos[r].pc.verdict))
  {
    LiveOwned(s, r);
    assert GoSound(s.hist, s.exec.gos[r]);
  }

  lemma RecordKeeps(s: State, r: nat)
    requires Inv(s) && r < |s.exec.gos| && s.exec.gos[r].pc.Store? && !s.exec.gos[r].cancelled
    requires s.exec.gos[r].pc.ver == s.Last()
    ensures var g := s.exec.gos[r];
            var cr := s.hist[g.pc.ver].value;
            Inv(PutStatus(s.(exec := Stepped(s.exec, r, Ended)), cr,
                          Updated(ReasonFor(g.pc.verdict), cr.status, |s.hist|)))
  {
    hide Inv;
    RecordTimely(s, r);
    MovedKeeps(s, r, Ended);
    StatusKeeps(s.(exec := Stepped(s.exec, r, Ended)), ReasonFor(s.exec.gos[r].pc.verdict));
  }

  lemma WriteKeeps(s: State, r: nat, fault: bool)
    requires Inv(s) && r < |s.exec.gos| && s.exec.gos[r].pc.Store?
    ensures Inv(WriteStep(s, r, fault))
  {
    hide Inv;
    var g := s.exec.gos[r];
    if Panics(ReasonFor(g.pc.verdict), s.hist[g.pc.ver].value.status) {
      CrashKeeps(s);
    } else if g.cancelled || fault || s.Current().None? {
      MovedKeeps(s, r, Ended);
    } else if g.pc.ver == s.Last() {
      RecordKeeps(s, r);
    } else {
      MovedKeeps(s, r, if g.pc.tries <= 1 then Ended else RecordPause(g.pc.tries - 1, g.pc.verdict));
    }
  }

  lemma ListKeeps(s: State, r: nat, fault: bool, alone: bool)
    requires Inv(s) && r < |s.exec.gos| && s.exec.gos[r].pc.Lookup?
    ensures Inv(ListStep(s, r, fault, alone))
  {
    var g := s.exec.gos[r];
    if !g.cancelled { LiveOwned(s, r); }
    MovedKeeps(s, r, Ended);
    if s.Seen().None? {
      CrashKeeps(s);
    } else if s.Seen().value.uid == g.uid {
      MovedKeeps(s, r, Store(g.pc.tries, g.pc.verdict, s.cache));
    }
  }

  lemma RunKeeps(s: State, r: nat, o: Outcome)
    requires Inv(s) && GoEnabled(s, r, Run(o))
    ensures Inv(GoStep(s, r, Run(o)))
  {
    var g := s.exec.gos[r];
    MovedKeeps(s, r, Ran(g.pc.left, o));
    if o.Ok? { NotedKeeps(s.(exec := Stepped(s.exec, r, Ran(g.pc.left, o))), FenceOk(g.uid)); }
  }

  lemma CheckKeeps(s: State, r: nat)
    requires Inv(s) && GoEnabled(s, r, Check)
    ensures Inv(GoStep(s, r, Check))
  {
    hide Inv;
    var g := s.exec.gos[r];
    MovedKeeps(s, r, Checked(g));
    NotedKeeps(s.(exec := Stepped(s.exec, r, Checked(g))), CommandRun(g.uid));
  }

  lemma GoKeeps(s: State, r: nat, a: GoAction)
    requires Inv(s) && GoEnabled(s, r, a)
    ensures Inv(GoStep(s, r, a))
  {
    hide Inv;
    var g := s.exec.gos[r];
    match a
    case Check => CheckKeeps(s, r);
    case Run(o) => RunKeeps(s, r, o);
    case Wake(byCancel) => MovedKeeps(s, r, Woken(g.pc, byCancel));
    case List(fault, alone) => ListKeeps(s, r, fault, alone);
    case Write(fault) => WriteKeeps(s, r, fault);
  }

  lemma StepKeeps(s: State, a: Action)
    requires Inv(s) && Enabled(s, a)
    ensures Inv(Step(s, a))
  {
    hide Inv;
    match a
    case Disturb(d) => EnvironmentKeeps(s, d);
    case Get(fault) => GetKeeps(s, fault);
    case Reconcile(fault) => ReconcileKeeps(s, fault);
    case Routine(r, g) => GoKeeps(s, r, g);
  }
}
