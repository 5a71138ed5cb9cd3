// Fence before evict, and at most one fence run per process lifetime.
module Safety {
  import opened Basics
  import opened Conditions
  import opened Taints
  import opened Executions
  import opened Protocol
  import opened History
  import opened Invariant
  import opened Runs

  // The hypothesis on the environment: every object asks for at least one attempt.
  predicate Admissible(a: Action) {
    match a
    case Disturb(Create(_, retries)) => retries >= 1
    case Disturb(Touch(retries)) => retries >= 1
    case _ => true
  }

  ghost predicate AllAdmissible(acts: seq<Action>) {
    forall i :: 0 <= i < |acts| ==> Admissible(acts[i])
  }

  ghost predicate Before(log: seq<Event>, i: nat, e: Event)
    requires i <= |log|
  {
    exists k :: 0 <= k < i && log[k] == e
  }

  // What has to come before an event: evicting needs an Ok answer of the fence command,
  // an answer needs the command to run, and that needs a routine started for the uid.
  function Cause(e: Event): Option<Event> {
    match e
    case PodsDeleted(u) => Some(FenceOk(u))
    case OutOfServiceAdded(u) => Some(FenceOk(u))
    case SucceededStored(u) => Some(FenceOk(u))
    case FenceOk(u) => Some(CommandRun(u))
    case CommandRun(u) => Some(FenceStarted(u))
    case _ => None
  }

  ghost predicate FencedFirst(log: seq<Event>) {
    forall i {:trigger log[i]} :: 0 <= i < |log| && Cause(log[i]).Some? ==> Before(log, i, Cause(log[i]).value)
  }

  ghost predicate GoEvidence(log: seq<Event>, g: Go) {
    && FenceStarted(g.uid) in log
    && (g.pc.Attempt? || g.pc.Running? || g.pc.Pause? ==> g.pc.left >= 1)
    && (g.pc.Running? ==> CommandRun(g.uid) in log)
    && ((g.pc.Record? || g.pc.Lookup? || g.pc.Store? || g.pc.RecordPause?) && g.pc.verdict.Won? ==>
          FenceOk(g.uid) in log)
  }

  ghost predicate VersionEvidence(log: seq<Event>, cr: CR) {
    cr.retries >= 1 && (Shut(cr.status) ==> FenceOk(cr.uid) in log)
  }

  ghost predicate Evidence(s: State) {
    && FencedFirst(s.log)
    && (forall r :: 0 <= r < |s.exec.gos| ==> GoEvidence(s.log, s.exec.gos[r]))
    && (forall i :: 0 <= i < |s.hist| && s.hist[i].Some? ==> VersionEvidence(s.log, s.hist[i].value))
  }

  lemma NotedEvidence(s: State, e: Event)
    requires Evidence(s)
    requires Cause(e).Some? ==> Cause(e).value in s.log
    ensures Evidence(Noted(s, e))
  {
    var log := s.log + [e];
    forall i | 0 <= i < |log| && Cause(log[i]).Some? ensures Before(log, i, Cause(log[i]).value) {
      if i < |s.log| {
        assert log[i] == s.log[i];
        var k :| 0 <= k < i && s.log[k] == Cause(log[i]).value;
        assert log[k] == s.log[k];
      } else {
        var k :| 0 <= k < |s.log| && s.log[k] == Cause(e).value;
        assert log[k] == s.log[k];
      }
    }
  }

  lemma StatusEvidence(s: State, reason: Reason)
    requires Inv(s) && Evidence(s) && s.Current().Some? && Timely(s, reason)
    requires reason.FenceAgentSucceeded? ==> FenceOk(s.Current().value.uid) in s.log
    ensures var cr := s.Current().value;
            Evidence(PutStatus(s, cr, Updated(reason, cr.status, |s.hist|)))
  {
    var cr := s.Current().value;
    var st := Updated(reason, cr.status, |s.hist|);
    assert VersionEvidence(s.log, cr);
    assert SoundVersion(cr, s.Last());
    if st != cr.status && st.Is(Succeeded, True) && !cr.status.Is(Succeeded, True) {
      NotedEvidence(Put(s, Some(cr.(status := st))), SucceededStored(cr.uid));
    }
  }

  lemma CrashEvidence(s: State)
    requires Inv(s) && Evidence(s)
    ensures Evidence(Restarted(s))
  {
    NotedEvidence(s.(cache := s.Last(), pc := Idle, exec := NOTHING_RUNNING, launched := {}), Crashed);
  }

  lemma EnvironmentEvidence(s: State, a: Disturbance)
    requires Inv(s) && Evidence(s) && EnvironmentEnabled(s, a) && Admissible(Disturb(a))
    ensures Evidence(EnvironmentStep(s, a))
  {
    if s.Current().Some? { assert VersionEvidence(s.log, s.Current().value); }
    if a.Crash? { CrashEvidence(s); }
  }

  lemma LaunchEvidence(s: State, fault: bool)
    requires Inv(s) && Evidence(s) && s.pc.Launch?
    ensures Evidence(ReconcileStep(s, fault))
  {
    var cr := s.hist[s.pc.ver].value;
    assert VersionEvidence(s.log, cr);
    if cr.uid !in s.exec.routines {
      var t := s.(pc := Finish(s.pc.ver, None), launched := s.launched + {cr.uid});
      NotedEvidence(t, FenceStarted(cr.uid));
    }
  }

  lemma WriteNodeEvidence(s: State, fault: bool)
    requires Inv(s) && Evidence(s) && s.pc.WriteNode?
    ensures Evidence(WriteNodeStep(s, fault))
  {
    var ver, job, copy := s.pc.ver, s.pc.job, s.pc.copy;
    var cr := s.hist[ver].value;
    assert VersionEvidence(s.log, cr);
    if job.TaintOutOfService? {
      NotedEvidence(SetNode(s, JobResult(job, copy.taints, s.clock)).(pc := AfterJob(cr, ver, job)),
                    OutOfServiceAdded(cr.uid));
    }
  }

  lemma FinishEvidence(s: State, fault: bool)
    requires Inv(s) && Evidence(s) && s.pc.Finish?
    ensures Evidence(FinishStep(s, fault))
  {
    hide Inv;
    if !fault && s.pc.ver == s.Last() && s.pc.why.Some? {
      IdleKeeps(s);
      FinishTimely(s);
      FinishReasons(s);
      StatusEvidence(s.(pc := Idle), s.pc.why.value);
    }
  }

  lemma EvictEvidence(s: State, fault: bool)
    requires Inv(s) && Evidence(s) && s.pc.EvictPods?
    ensures Evidence(ReconcileStep(s, fault))
  {
    var cr := s.hist[s.pc.ver].value;
    assert VersionEvidence(s.log, cr);
    NotedEvidence(s.(pc := if fault then Finish(s.pc.ver, None) else Cancel(s.pc.ver, ForCompletion)),
                  PodsDeleted(cr.uid));
  }

  lemma CancelEvidence(s: State, fault: bool)
    requires Inv(s) && Evidence(s) && s.pc.Cancel?
    ensures Evidence(ReconcileStep(s, fault))
  {
    RemovedCorresponds(s.exec, s.hist[s.pc.ver].value.uid);
    assert forall r :: 0 <= r < |s.exec.gos| ==> GoEvidence(s.log, s.exec.gos[r]);
  }

  lemma ReconcileEvidence(s: State, fault: bool)
    requires Inv(s) && Evidence(s) && !s.pc.Idle?
    ensures Evidence(ReconcileStep(s, fault))
  {
    hide Inv;
    if s.pc.Launch? {
      LaunchEvidence(s, fault);
    } else if s.pc.WriteNode? {
      WriteNodeEvidence(s, fault);
    } else if s.pc.Finish? {
      FinishEvidence(s, fault);
    } else if s.pc.EvictPods? {
      EvictEvidence(s, fault);
    } else if s.pc.Cancel? {
      CancelEvidence(s, fault);
    } else if s.pc.AddFinalizer? {
      assert VersionEvidence(s.log, s.hist[s.pc.ver].value);
    }
  }

  lemma MovedEvidence(s: State, r: nat, pc: GoPc)
    requires Evidence(s) && r < |s.exec.gos| && GoEvidence(s.log, s.exec.gos[r].(pc := pc))
    ensures Evidence(s.(exec := Stepped(s.exec, r, pc)))
  {}

  lemma RecordEvidence(s: State, r: nat)
    requires Inv(s) && Evidence(s) && r < |s.exec.gos| && s.exec.gos[r].pc.Store? && !s.exec.gos[r].cancelled
    requires s.exec.gos[r].pc.ver == s.Last()
    ensures var g := s.exec.gos[r];
            var cr := s.hist[g.pc.ver].value;
            Evidence(PutStatus(s.(exec := Stepped(s.exec, r, Ended)), cr,
                               Updated(ReasonFor(g.pc.verdict), cr.status, |s.hist|)))
  {
    var g := s.exec.gos[r];
    assert GoEvidence(s.log, g);
    LiveOwned(s, r);
    MovedKeeps(s, r, Ended);
    MovedEvidence(s, r, Ended);
    StatusEvidence(s.(exec := Stepped(s.exec, r, Ended)), ReasonFor(g.pc.verdict));
  }

  lemma WriteEvidence(s: State, r: nat, fault: bool)
    requires Inv(s) && Evidence(s) && r < |s.exec.gos| && s.exec.gos[r].pc.Store?
    ensures Evidence(WriteStep(s, r, fault))
  {
    hide Inv;
    var g := s.exec.gos[r];
    assert GoEvidence(s.log, g);
    if Panics(ReasonFor(g.pc.verdict), s.hist[g.pc.ver].value.status) {
      CrashEvidence(s);
    } else if g.cancelled || fault || s.Current().None? {
      MovedEvidence(s, r, Ended);
    } else if g.pc.ver == s.Last() {
      RecordEvidence(s, r);
    } else {
      MovedEvidence(s, r, if g.pc.tries <= 1 then Ended else RecordPause(g.pc.tries - 1, g.pc.verdict));
    }
  }

  lemma ListEvidence(s: State, r: nat, fault: bool, alone: bool)
    requires Inv(s) && Evidence(s) && r < |s.exec.gos| && s.exec.gos[r].pc.Lookup?
    ensures Evidence(ListStep(s, r, fault, alone))
  {
    var g := s.exec.gos[r];
    assert GoEvidence(s.log, g);
    MovedEvidence(s, r, Ended);
    MovedEvidence(s, r, Store(g.pc.tries, g.pc.verdict, s.cache));
    CrashEvidence(s);
  }

  lemma GoEvidenceKept(s: State, r: nat, a: GoAction)
    requires Inv(s) && Evidence(s) && GoEnabled(s, r, a)
    ensures Evidence(GoStep(s, r, a))
  {
    hide Inv;
    var g := s.exec.gos[r];
    assert GoEvidence(s.log, g);
    match a
    case Check =>
      NotedEvidence(s, CommandRun(g.uid));
      MovedEvidence(if Checked(g).Running? then Noted(s, CommandRun(g.uid)) else s, r, Checked(g));
    case Run(o) =>
      if o.Ok? {
        NotedEvidence(s, FenceOk(g.uid));
        MovedEvidence(Noted(s, FenceOk(g.uid)), r, Ran(g.pc.left, o));
      } else {
        MovedEvidence(s, r, Ran(g.pc.left, o));
      }
    case Wake(byCancel) => MovedEvidence(s, r, Woken(g.pc, byCancel));
    case List(fault, alone) => ListEvidence(s, r, fault, alone);
    case Write(fault) => WriteEvidence(s, r, fault);
  }

  lemma StepEvidence(s: State, a: Action)
    requires Inv(s) && Evidence(s) && Enabled(s, a) && Admissible(a)
    ensures Evidence(Step(s, a))
  {
    hide Inv;
    match a
    case Disturb(d) => EnvironmentEvidence(s, d);
    case Get(_) =>
    case Reconcile(fault) => ReconcileEvidence(s, fault);
    case Routine(r, g) => GoEvidenceKept(s, r, g);
  }

  lemma {:induction false} RunEvidence(s: State, acts: seq<Action>)
    requires Inv(s) && Evidence(s) && Valid(s, acts) && AllAdmissible(acts)
    ensures Evidence(Final(s, acts))
    decreases |acts|
  {
    if acts != [] {
      StepKeeps(s, acts[0]);
      StepEvidence(s, acts[0]);
      RunEvidence(Step(s, acts[0]), acts[1..]);
    }
  }

  ghost predicate OnlyFencedSucceed(s: State) {
    forall i :: 0 <= i < |s.hist| && s.hist[i].Some? && s.hist[i].value.status.Is(Succeeded, True) ==>
      FenceOk(s.hist[i].value.uid) in s.log
  }

  // Main result.  In every run whose objects ask for at least one attempt, pods are
  // deleted, the out-of-service taint is added and Succeeded becomes True only after
  // the fence command answered Ok in a run started for that uid.
  lemma FenceBeforeEvict(s0: State, acts: seq<Action>)
    requires Init(s0) && Valid(s0, acts) && AllAdmissible(acts)
    ensures FencedFirst(Final(s0, acts).log)
    ensures OnlyFencedSucceed(Final(s0, acts))
  {
    InitInv(s0);
    RunEvidence(s0, acts);
    RunInv(s0, acts);
    var s := Final(s0, acts);
    forall i | 0 <= i < |s.hist| && s.hist[i].Some? && s.hist[i].value.status.Is(Succeeded, True)
      ensures FenceOk(s.hist[i].value.uid) in s.log
    {
      assert SoundVersion(s.hist[i].value, i);
      assert VersionEvidence(s.log, s.hist[i].value);
    }
  }

  // ---------------------------------------------------------------- one run per lifetime

  // Two starts for the same uid are separated by a crash of the process.
  ghost predicate StartedOnce(log: seq<Event>) {
    forall i, j {:trigger log[i], log[j]} :: 0 <= i < j < |log| && log[i].FenceStarted? && log[j] == log[i] ==>
      exists k :: i < k < j && log[k].Crashed?
  }

  // A start not followed by a crash is one this process remembers.
  ghost predicate Remembered(s: State) {
    forall i :: 0 <= i < |s.log| && s.log[i].FenceStarted? && s.log[i].uid !in s.launched ==>
      exists k :: i < k < |s.log| && s.log[k].Crashed?
  }

  lemma NotedOnce(s: State, t: State, e: Event)
    requires StartedOnce(s.log) && Remembered(s)
    requires t.log == s.log + [e]
    requires t.launched == if e.FenceStarted? then s.launched + {e.uid} else if e.Crashed? then {} else s.launched
    requires e.FenceStarted? ==> e.uid !in s.launched
    ensures StartedOnce(t.log) && Remembered(t)
  {
    var n := |s.log|;
    assert forall k :: 0 <= k < n ==> t.log[k] == s.log[k];
    forall i, j | 0 <= i < j < |t.log| && t.log[i].FenceStarted? && t.log[j] == t.log[i]
      ensures exists k :: i < k < j && t.log[k].Crashed?
    {
      assert s.log[i].FenceStarted?;
      if j < n {
        var k :| i < k < j && s.log[k].Crashed?;
        assert t.log[k].Crashed?;
      } else {
        var k :| i < k < n && s.log[k].Crashed?;
        assert t.log[k].Crashed?;
      }
    }
    forall i | 0 <= i < |t.log| && t.log[i].FenceStarted? && t.log[i].uid !in t.launched
      ensures exists k :: i < k < |t.log| && t.log[k].Crashed?
    {
      assert i < n;
      if e.Crashed? {
        assert t.log[n].Crashed?;
      } else {
        var k :| i < k < n && s.log[k].Crashed?;
        assert t.log[k].Crashed?;
      }
    }
  }

  // A step appends at most one event, and remembers the start it appends.
  ghost predicate OneEvent(s: State, t: State) {
    || (t.log == s.log && t.launched == s.launched)
    || (exists e: Event ::
          && t.log == s.log + [e]
          && t.launched == (if e.FenceStarted? then s.launched + {e.uid} else if e.Crashed? then {} else s.launched)
          && (e.FenceStarted? ==> e.uid !in s.launched))
  }

  lemma LaunchOneEvent(s: State, fault: bool)
    requires Inv(s) && s.pc.Launch?
    ensures OneEvent(s, ReconcileStep(s, fault))
  {
    var t := ReconcileStep(s, fault);
    if t.log != s.log { assert t.log == s.log + [FenceStarted(s.hist[s.pc.ver].value.uid)]; }
  }

  lemma ReconcileOneEvent(s: State, fault: bool)
    requires Inv(s) && !s.pc.Idle?
    ensures OneEvent(s, ReconcileStep(s, fault))
  {
    if s.pc.Launch? {
      LaunchOneEvent(s, fault);
    } else {
      var t := ReconcileStep(s, fault);
      if t.log != s.log { assert t.log == s.log + [t.log[|s.log|]]; }
    }
  }

  lemma GoOneEvent(s: State, r: nat, a: GoAction)
    requires Inv(s) && GoEnabled(s, r, a)
    ensures OneEvent(s, GoStep(s, r, a))
  {
    var t := GoStep(s, r, a);
    if t.log != s.log { assert t.log == s.log + [t.log[|s.log|]]; }
  }

  lemma OneEventOnce(s: State, t: State)
    requires StartedOnce(s.log) && Remembered(s) && OneEvent(s, t)
    ensures StartedOnce(t.log) && Remembered(t)
  {
    if t.log == s.log && t.launched == s.launched {
      assert forall i :: 0 <= i < |t.log| ==> t.log[i] == s.log[i];
    } else {
      var e: Event :| t.log == s.log + [e] &&
        t.launched == (if e.FenceStarted? then s.launched + {e.uid} else if e.Crashed? then {} else s.launched) &&
        (e.FenceStarted? ==> e.uid !in s.launched);
      NotedOnce(s, t, e);
    }
  }

  lemma StepOneEvent(s: State, a: Action)
    requires Inv(s) && Enabled(s, a)
    ensures OneEvent(s, Step(s, a))
  {
    hide Inv;
    match a
    case Disturb(d) => assert d.Crash? ==> Step(s, a).log == s.log + [Crashed];
    case Get(_) =>
    case Reconcile(fault) => ReconcileOneEvent(s, fault);
    case Routine(r, g) => GoOneEvent(s, r, g);
  }

  lemma {:induction false} RunOnce(s: State, acts: seq<Action>)
    requires Inv(s) && Valid(s, acts) && StartedOnce(s.log) && Remembered(s)
    ensures StartedOnce(Final(s, acts).log)
    decreases |acts|
  {
    if acts != [] {
      StepKeeps(s, acts[0]);
      StepOneEvent(s, acts[0]);
      OneEventOnce(s, Step(s, acts[0]));
      RunOnce(Step(s, acts[0]), acts[1..]);
    }
  }

  // Main result.  Between two fence runs started for the same uid the process crashed.
  lemma AtMostOneRunPerLifetime(s0: State, acts: seq<Action>)
    requires Init(s0) && Valid(s0, acts)
    ensures StartedOnce(Final(s0, acts).log)
  {
    InitInv(s0);
    RunOnce(s0, acts);
  }
}
