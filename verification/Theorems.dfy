// What every reachable state and every continuation guarantees.
module Theorems {
  import opened Basics
  import opened Conditions
  import opened Taints
  import opened Executions
  import opened Protocol
  import opened History
  import opened Invariant
  import opened Runs

  // ---------------------------------------------------------------- taints

  // Main result.  A node carries one of the operator's taints only while the object
  // exists under the finalizer, and the out-of-service taint only under that strategy.
  lemma NoLeakedTaint(s: State)
    requires Reachable(s)
    ensures Tainted(s.node) || OutOfServiceTainted(s.node) ==> s.Current().Some? && s.Current().value.finalizer
    ensures OutOfServiceTainted(s.node) ==> s.Current().Some? && s.Current().value.strategy == OutOfService
    ensures s.Current().None? ==> !Tainted(s.node) && !OutOfServiceTainted(s.node)
  {
    ReachableInv(s);
  }

  // ---------------------------------------------------------------- conditions

  // Main result.  Every stored status is one of six, and each version moves it by at
  // most one reason; LastUpdateTime moves exactly when a condition does.
  lemma NoLostUpdate(s: State, i: nat)
    requires Reachable(s) && i < |s.hist| && s.hist[i].Some?
    ensures Known(s.hist[i].value.status)
    ensures s.hist[i].value.status.Blank() || (s.hist[i].value.status.Complete() && s.hist[i].value.status.stamp.Some?)
    ensures s.hist[i].value.status.Is(Succeeded, True) ==>
              s.hist[i].value.status.Is(FenceAgentActionSucceeded, True) && s.hist[i].value.status.Is(Processing, False)
    ensures i + 1 < |s.hist| && s.hist[i + 1].Some? ==>
              var a, b := s.hist[i].value.status, s.hist[i + 1].value.status;
              && StatusFollows(a, b, i + 1)
              && (a.SameConditions(b) <==> a.stamp == b.stamp)
              && (a.stamp == b.stamp <==> a == b)
  {
    ReachableInv(s);
    assert SoundVersion(s.hist[i].value, i);
    if i + 1 < |s.hist| && s.hist[i + 1].Some? {
      assert Follows(s.hist, i);
      var a, b := s.hist[i].value.status, s.hist[i + 1].value.status;
      if a != b {
        var reason: Reason :| b == Updated(reason, a, i + 1);
      }
    }
  }

  // The dereference of LastUpdateTime in UpdateConditions is safe wherever it is reached.
  lemma UpdateConditionsNeverPanics(s: State)
    requires Reachable(s)
    ensures s.pc.Finish? && s.pc.why.Some? ==> !Panics(s.pc.why.value, s.hist[s.pc.ver].value.status)
    ensures forall r :: 0 <= r < |s.exec.gos| && s.exec.gos[r].pc.Store? ==>
              !Panics(ReasonFor(s.exec.gos[r].pc.verdict), s.hist[s.exec.gos[r].pc.ver].value.status)
  {
    ReachableInv(s);
    if s.pc.Finish? { assert SoundVersion(s.hist[s.pc.ver].value, s.pc.ver); }
    forall r | 0 <= r < |s.exec.gos| && s.exec.gos[r].pc.Store?
      ensures !Panics(ReasonFor(s.exec.gos[r].pc.verdict), s.hist[s.exec.gos[r].pc.ver].value.status)
    {
      assert SoundVersion(s.hist[s.exec.gos[r].pc.ver].value, s.exec.gos[r].pc.ver);
    }
  }

  // ---------------------------------------------------------------- the routine map

  lemma RoutineMap(s: State)
    requires Reachable(s)
    ensures Corresponds(s.exec)
    ensures forall u :: u in s.exec.routines ==> s.Current().Some? && s.Current().value.uid == u
    ensures |s.exec.routines| <= 1
  {
    ReachableInv(s);
    if u :| u in s.exec.routines {
      assert forall v :: v in s.exec.routines ==> Owned(s, v) && Owned(s, u) && v == u;
      assert s.exec.routines.Keys == {u};
      assert |s.exec.routines| == |s.exec.routines.Keys|;
    }
  }

  // Main result.  While a routine is uncancelled its object exists, is current and
  // carries the finalizer, so the lookup by uid finds it.
  lemma LiveRoutineFindsItsObject(s: State, r: nat, alone: bool)
    requires Reachable(s) && r < |s.exec.gos| && !s.exec.gos[r].cancelled
    ensures s.Current().Some? && s.Current().value.uid == s.exec.gos[r].uid && s.Current().value.finalizer
    ensures s.exec.gos[r].pc.Lookup? ==>
              && s.Seen().Some? && s.Seen().value.uid == s.exec.gos[r].uid
              && ListStep(s, r, false, alone) == s.(exec := Stepped(s.exec, r,
                                Store(s.exec.gos[r].pc.tries, s.exec.gos[r].pc.verdict, s.cache)))
  {
    ReachableInv(s);
    LiveOwned(s, r);
  }

  // Main result.  A goroutine stores its result only while uncancelled, and only as the
  // next version of the incarnation it was started for.
  lemma ResultsReachTheirIncarnation(s: State, r: nat, fault: bool)
    requires Reachable(s) && r < |s.exec.gos| && s.exec.gos[r].pc.Store?
    ensures var t := WriteStep(s, r, fault);
            t.hist != s.hist ==>
              && !s.exec.gos[r].cancelled
              && s.Current().Some? && s.Current().value.uid == s.exec.gos[r].uid
              && t.hist == s.hist + [Some(s.Current().value.(status := Updated(
                             ReasonFor(s.exec.gos[r].pc.verdict), s.Current().value.status, |s.hist|)))]
  {
    hide Inv, Reachable, Updated;
    ReachableInv(s);
    if !s.exec.gos[r].cancelled { LiveOwned(s, r); }
  }

  // ---------------------------------------------------------------- NHC interruption

  // uid was interrupted for good: its stored conditions are all False, this and every
  // later process reads it as timed out, and nothing runs for it.
  ghost predicate Sealed(s: State, uid: Uid) {
    && s.WellFormed()
    && s.Current().Some? && s.Current().value.uid == uid && s.Current().value.timedOut
    && s.Current().value.status.Triple(False, False, False)
    && s.Seen().Some? && s.Seen().value.uid == uid && s.Seen().value.timedOut
    && uid !in s.exec.routines
    && (!s.pc.Idle? ==> s.hist[s.pc.ver].value.timedOut && s.hist[s.pc.ver].value.uid == uid)
  }

  // The incarnation uid has left for good.
  ghost predicate Gone(s: State, uid: Uid) {
    s.WellFormed() && uid < |s.hist| && (s.Current().Some? ==> s.Current().value.uid != uid)
  }

  lemma SealEstablished(s: State)
    requires Inv(s) && s.pc.Finish? && s.pc.why == Some(InterruptedByNHC) && s.pc.ver == s.Last()
    ensures Sealed(FinishStep(s, false), s.Current().value.uid)
  {
    var cr := s.Current().value;
    var t := FinishStep(s, false);
    assert s.cache == s.Last();
    assert t.hist[t.cache] == Some(cr);
  }

  lemma SealedEnvironment(s: State, uid: Uid, a: Disturbance)
    requires Inv(s) && EnvironmentEnabled(s, a) && Sealed(s, uid)
    ensures Sealed(EnvironmentStep(s, a), uid) || Gone(EnvironmentStep(s, a), uid)
  {
    hide Inv, Has, Sound;
    VersionSound(s, s.Last());
    SoundHistory(s);
    if a.Observe? { SameLife(s.hist, s.cache, s.Last()); }
  }

  // A reconcile of a timed-out object only stops its routine, cleans up or writes what is there.
  lemma SealedSteps(s: State, uid: Uid)
    requires Inv(s) && !s.pc.Idle? && Sealed(s, uid)
    ensures !s.pc.AddFinalizer? && !s.pc.CheckRunning? && !s.pc.Build? && !s.pc.Launch? && !s.pc.EvictPods?
    ensures (s.pc.ReadNode? || s.pc.WriteNode?) ==> !Adds(s.pc.job)
    ensures s.pc.Finish? ==> s.pc.why.None? || s.pc.why.value == InterruptedByNHC
  {}

  lemma SealedCancel(s: State, uid: Uid, fault: bool)
    requires Inv(s) && s.pc.Cancel? && Sealed(s, uid)
    ensures Sealed(ReconcileStep(s, fault), uid)
  {
    hide Sound, Drained, TaintInv, LaunchInv;
    RemovedCorresponds(s.exec, uid);
    ReconcileKeeps(s, fault);
  }

  lemma SealedDrop(s: State, uid: Uid, fault: bool)
    requires Inv(s) && s.pc.DropFinalizer? && Sealed(s, uid)
    ensures Sealed(DropFinalizerStep(s, fault), uid) || Gone(DropFinalizerStep(s, fault), uid)
  {
    assert SoundVersion(s.Current().value, s.Last());
    DropFinalizerKeeps(s, fault);
  }

  lemma SealedReconcile(s: State, uid: Uid, fault: bool)
    requires Inv(s) && !s.pc.Idle? && Sealed(s, uid)
    ensures Sealed(ReconcileStep(s, fault), uid) || Gone(ReconcileStep(s, fault), uid)
  {
    hide Inv;
    if s.pc.Cancel? {
      SealedCancel(s, uid, fault);
    } else if s.pc.DropFinalizer? {
      SealedDrop(s, uid, fault);
    } else {
      SealedSteps(s, uid);
      ReconcileKeeps(s, fault);
      var t := ReconcileStep(s, fault);
      assert t.hist == s.hist && t.cache == s.cache && t.exec == s.exec;
    }
  }

  // Every goroutine of a uid that is not in the map is cancelled, and a cancelled
  // goroutine stores nothing.
  lemma Silent(s: State, uid: Uid, r: nat, a: GoAction)
    requires Inv(s) && GoEnabled(s, r, a) && uid !in s.exec.routines && s.exec.gos[r].uid == uid
    ensures s.exec.gos[r].cancelled
    ensures var t := GoStep(s, r, a);
            t.hist == s.hist &&
            (t == Restarted(s) || (t.cache == s.cache && t.pc == s.pc && t.exec.routines == s.exec.routines))
  {}

  lemma NobodyRuns(s: State, uid: Uid, r: nat)
    requires Inv(s) && Sealed(s, uid) && r < |s.exec.gos|
    ensures s.exec.gos[r].uid !in s.exec.routines
  {
    hide Sound, Drained, PcInv, TaintInv, LaunchInv;
  }

  lemma SealedRoutine(s: State, uid: Uid, r: nat, a: GoAction)
    requires Inv(s) && GoEnabled(s, r, a) && Sealed(s, uid)
    ensures Sealed(GoStep(s, r, a), uid)
  {
    hide Inv, GoStep;
    NobodyRuns(s, uid, r);
    Silent(s, s.exec.gos[r].uid, r, a);
    GoKeeps(s, r, a);
  }

  lemma GoneIsIdle(s: State, uid: Uid)
    requires Inv(s) && Gone(s, uid)
    ensures uid !in s.exec.routines
  {
    hide Sound, Drained, PcInv, TaintInv, LaunchInv;
    assert uid in s.exec.routines ==> Owned(s, uid);
  }

  lemma GoneStep(s: State, uid: Uid, a: Action)
    requires Inv(s) && Enabled(s, a) && Gone(s, uid)
    ensures Gone(Step(s, a), uid)
  {
    StepKeeps(s, a);
    OneVersion(s, a);
    var t := Step(s, a);
    if t.hist != s.hist { assert Follows(t.hist, s.Last()); }
  }

  lemma SealedStep(s: State, uid: Uid, a: Action)
    requires Inv(s) && Enabled(s, a) && Sealed(s, uid)
    ensures Sealed(Step(s, a), uid) || Gone(Step(s, a), uid)
  {
    hide Inv;
    StepKeeps(s, a);
    match a
    case Disturb(d) => SealedEnvironment(s, uid, d);
    case Get(_) =>
    case Reconcile(fault) => SealedReconcile(s, uid, fault);
    case Routine(r, g) => SealedRoutine(s, uid, r, g);
  }

  ghost predicate AllFalseFrom(h: Versions, n: nat, uid: Uid) {
    forall i :: n <= i < |h| && h[i].Some? && h[i].value.uid == uid ==> h[i].value.status.Triple(False, False, False)
  }

  lemma {:induction false} SealedRun(s: State, uid: Uid, n: nat, acts: seq<Action>)
    requires Inv(s) && Valid(s, acts) && (Sealed(s, uid) || Gone(s, uid)) && AllFalseFrom(s.hist, n, uid)
    ensures Inv(Final(s, acts)) && (Sealed(Final(s, acts), uid) || Gone(Final(s, acts), uid))
    ensures AllFalseFrom(Final(s, acts).hist, n, uid)
    decreases |acts|
  {
    if acts != [] {
      var t := Step(s, acts[0]);
      StepKeeps(s, acts[0]);
      OneVersion(s, acts[0]);
      if Sealed(s, uid) { SealedStep(s, uid, acts[0]); } else { GoneStep(s, uid, acts[0]); }
      SealedRun(t, uid, n, acts[1..]);
    }
  }

  // Main result.  Once an NHC timeout has stopped the routine and its status write has
  // landed, every later version of that object says False three times, no routine runs
  // for it, and no goroutine left over from it stores anything again.
  lemma InterruptionIsFinal(s: State, acts: seq<Action>)
    requires Reachable(s)
    requires s.pc.Finish? && s.pc.why == Some(InterruptedByNHC) && s.pc.ver == s.Last()
    requires Valid(FinishStep(s, false), acts)
    ensures var uid := s.Current().value.uid;
            var t := Final(FinishStep(s, false), acts);
            && t.WellFormed()
            && AllFalseFrom(t.hist, |FinishStep(s, false).hist|, uid)
            && uid !in t.exec.routines
            && forall r: nat, a :: GoEnabled(t, r, a) && t.exec.gos[r].uid == uid ==> GoStep(t, r, a).hist == t.hist
  {
    hide Inv, Reachable, GoStep;
    ReachableInv(s);
    SealEstablished(s);
    FinishKeeps(s, false);
    var uid := s.Current().value.uid;
    SealedRun(FinishStep(s, false), uid, |FinishStep(s, false).hist|, acts);
    var t := Final(FinishStep(s, false), acts);
    if Gone(t, uid) { GoneIsIdle(t, uid); }
    forall r: nat, a | GoEnabled(t, r, a) && t.exec.gos[r].uid == uid ensures GoStep(t, r, a).hist == t.hist {
      Silent(t, uid, r, a);
    }
  }

  // ---------------------------------------------------------------- the deletion wedge

  // The deletion branch reads three conditions; it goes through exactly when there are any.
  lemma DeletionLookupsDefined(s: State)
    requires Reachable(s) && s.pc.GetNode? && s.hist[s.pc.ver].value.deleting
    ensures ReconcileStep(s, false).pc.Cancel? <==> !s.hist[s.pc.ver].value.status.Blank()
  {
    ReachableInv(s);
    assert SoundVersion(s.hist[s.pc.ver].value, s.pc.ver);
  }

  // A deleted object whose finalizer was written but whose start was never recorded.
  ghost predicate Wedged(s: State, uid: Uid) {
    && s.WellFormed() && s.Current().Some?
    && s.Current().value.uid == uid && s.Current().value.deleting && s.Current().value.status.Blank()
  }

  lemma WedgedStep(s: State, uid: Uid, a: Action)
    requires Inv(s) && Enabled(s, a) && Wedged(s, uid)
    ensures Wedged(Step(s, a), uid)
  {
    hide Inv;
    StepKeeps(s, a);
    OneVersion(s, a);
    VersionSound(s, s.Last());
    match a
    case Disturb(_) =>
    case Get(_) =>
    case Reconcile(fault) => WedgedReconcile(s, uid, fault);
    case Routine(r, g) => WedgedRoutine(s, uid, r, g);
  }

  // A reconcile of a wedged object that is up to date has nothing to write.
  lemma WedgedSteps(s: State, uid: Uid)
    requires Inv(s) && !s.pc.Idle? && Wedged(s, uid) && s.pc.ver == s.Last()
    ensures !s.pc.AddFinalizer? && !s.pc.DropFinalizer?
    ensures s.pc.Finish? ==> s.pc.why.None?
  {}

  lemma WedgedReconcile(s: State, uid: Uid, fault: bool)
    requires Inv(s) && !s.pc.Idle? && Wedged(s, uid)
    ensures ReconcileStep(s, fault).hist == s.hist
  {
    hide Inv;
    if s.pc.ver == s.Last() { WedgedSteps(s, uid); }
  }

  lemma WedgedRoutine(s: State, uid: Uid, r: nat, a: GoAction)
    requires Inv(s) && GoEnabled(s, r, a) && Wedged(s, uid)
    ensures GoStep(s, r, a).hist == s.hist
  {
    hide PcInv, TaintInv, LaunchInv, Drained;
    if !s.exec.gos[r].cancelled {
      LiveOwned(s, r);
      SameLife(s.hist, s.cache, s.Last());
    }
  }

  lemma {:induction false} WedgedRun(s: State, uid: Uid, acts: seq<Action>)
    requires Inv(s) && Wedged(s, uid) && Valid(s, acts)
    ensures Wedged(Final(s, acts), uid)
    decreases |acts|
  {
    if acts != [] {
      StepKeeps(s, acts[0]);
      WedgedStep(s, uid, acts[0]);
      WedgedRun(Step(s, acts[0]), uid, acts[1..]);
    }
  }

  // Main result.  A wedged object is never removed: no continuation, with or without
  // crashes, ever drops its finalizer or records a condition on it.
  lemma WedgeIsForever(s: State, uid: Uid, acts: seq<Action>)
    requires Reachable(s) && Wedged(s, uid) && Valid(s, acts)
    ensures Wedged(Final(s, acts), uid)
  {
    ReachableInv(s);
    WedgedRun(s, uid, acts);
  }
}
