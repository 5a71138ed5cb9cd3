// An object whose finalizer was stored and whose start was not recorded.
module LostStarts {
  import opened Basics
  import opened Conditions
  import opened Executions
  import opened Protocol
  import opened History
  import opened Invariant
  import opened Runs

  // uid is current, under the finalizer, and has no conditions.
  ghost predicate Bare(s: State, uid: Uid) {
    && s.WellFormed() && s.Current().Some?
    && s.Current().value.uid == uid && s.Current().value.finalizer && s.Current().value.status.Blank()
  }

  // The reconciler is about to record a start on the current version.
  predicate Starting(s: State)
    requires s.WellFormed()
  {
    s.pc.Finish? && s.pc.why == Some(Started) && s.pc.ver == s.Last()
  }

  ghost predicate LostStart(s: State, uid: Uid) {
    Bare(s, uid) && !Starting(s)
  }

  ghost predicate NeverOpen(h: Versions, uid: Uid) {
    forall i :: 0 <= i < |h| && h[i].Some? && h[i].value.uid == uid ==> !Open(h[i].value.status)
  }

  ghost predicate NoneStarted(log: seq<Event>, from: nat, uid: Uid) {
    forall i :: from <= i < |log| ==> log[i] != FenceStarted(uid)
  }

  // No version of uid had the gate open, and none is about to.
  ghost predicate Unstarted(s: State, uid: Uid) {
    && s.WellFormed() && uid < |s.hist| && NeverOpen(s.hist, uid)
    && (s.Current().Some? && s.Current().value.uid == uid ==> s.Current().value.finalizer && !Starting(s))
  }

  lemma LostIsUnstarted(s: State, uid: Uid)
    requires Inv(s) && LostStart(s, uid)
    ensures Unstarted(s, uid)
  {
    hide Inv;
    SoundHistory(s);
    VersionSound(s, s.Last());
    forall i | 0 <= i < |s.hist| && s.hist[i].Some? && s.hist[i].value.uid == uid
      ensures !Open(s.hist[i].value.status)
    {
      SameLife(s.hist, i, s.Last());
      VersionSound(s, i);
    }
  }

  // Only the write that records a start opens the gate.
  ghost predicate Opens(s: State, t: State)
    requires s.WellFormed() && t.WellFormed()
  {
    && t.hist != s.hist && t.Current().Some? && Open(t.Current().value.status)
    && !(s.Current().Some? && s.Current().value.uid == t.Current().value.uid && Open(s.Current().value.status))
  }

  lemma ReconcileOpens(s: State, fault: bool)
    requires Inv(s) && !s.pc.Idle? && ReconcileStep(s, fault).WellFormed() && Opens(s, ReconcileStep(s, fault))
    ensures Starting(s)
  {
    hide Inv;
  }

  lemma RoutineOpens(s: State, r: nat, a: GoAction)
    requires s.WellFormed() && GoEnabled(s, r, a) && GoStep(s, r, a).WellFormed()
    ensures !Opens(s, GoStep(s, r, a))
  {}

  lemma OnlyStartsOpen(s: State, a: Action)
    requires Inv(s) && Enabled(s, a) && Step(s, a).WellFormed() && Opens(s, Step(s, a))
    ensures Starting(s) && a.Reconcile?
  {
    hide Inv;
    match a
    case Disturb(_) =>
    case Get(_) =>
    case Reconcile(fault) => ReconcileOpens(s, fault);
    case Routine(r, g) => RoutineOpens(s, r, g);
  }

  // A step that leaves another start about to be recorded stored a finalizer.
  lemma StartingStep(s: State, a: Action)
    requires Inv(s) && Enabled(s, a) && Step(s, a).WellFormed() && Starting(Step(s, a)) && !Starting(s)
    ensures s.pc.AddFinalizer? && s.pc.ver == s.Last() && !s.Current().value.finalizer
    ensures Step(s, a).Current().Some? && Step(s, a).Current().value.uid == s.Current().value.uid
  {
    hide Inv, Updated, Removed, Launched, JobResult, Checked, Ran, Woken;
    if s.pc.AddFinalizer? { AddsToUntouched(s); }
  }

  lemma UnstartedStep(s: State, uid: Uid, a: Action)
    requires Inv(s) && Enabled(s, a) && Unstarted(s, uid)
    ensures Unstarted(Step(s, a), uid)
  {
    hide Inv, Step, Enabled;
    StepKeeps(s, a);
    OneVersion(s, a);
    var t := Step(s, a);
    SoundHistory(t);
    if Starting(t) && !Starting(s) { StartingStep(s, a); }
    if t.hist != s.hist {
      assert Follows(t.hist, s.Last());
      if Opens(s, t) { OnlyStartsOpen(s, a); }
    }
  }

  lemma LaunchesOpen(s: State, fault: bool)
    requires Inv(s) && s.pc.Launch?
    ensures Open(s.hist[s.pc.ver].value.status)
  {
    VersionSound(s, s.pc.ver);
  }

  lemma UnstartedLog(s: State, uid: Uid, a: Action)
    requires Inv(s) && Enabled(s, a) && Unstarted(s, uid)
    ensures s.log <= Step(s, a).log && NoneStarted(Step(s, a).log, |s.log|, uid)
  {
    hide Inv;
    LogGrows(s, a);
    if a.Reconcile? && s.pc.Launch? { LaunchesOpen(s, a.fault); }
  }

  lemma {:induction false} UnstartedRun(s: State, uid: Uid, acts: seq<Action>)
    requires Inv(s) && Unstarted(s, uid) && Valid(s, acts)
    ensures Unstarted(Final(s, acts), uid)
    ensures s.log <= Final(s, acts).log && NoneStarted(Final(s, acts).log, |s.log|, uid)
    decreases |acts|
  {
    hide Inv, Step, Enabled;
    if acts != [] {
      var u := Step(s, acts[0]);
      StepKeeps(s, acts[0]);
      UnstartedStep(s, uid, acts[0]);
      UnstartedLog(s, uid, acts[0]);
      UnstartedRun(u, uid, acts[1..]);
      var t := Final(u, acts[1..]);
      forall i | |s.log| <= i < |t.log| ensures t.log[i] != FenceStarted(uid) {
        if i < |u.log| { assert t.log[i] == u.log[i]; }
      }
    }
  }

  // Main result.  Whatever happens next, crashes included, no version of such an object
  // has the fence gate open and no fence run is started for it.
  lemma LostStartIsForever(s: State, uid: Uid, acts: seq<Action>)
    requires Reachable(s) && LostStart(s, uid) && Valid(s, acts)
    ensures NeverOpen(Final(s, acts).hist, uid)
    ensures s.log <= Final(s, acts).log && NoneStarted(Final(s, acts).log, |s.log|, uid)
  {
    ReachableInv(s);
    LostIsUnstarted(s, uid);
    UnstartedRun(s, uid, acts);
  }

  ghost predicate StartsIn(s: State, uid: Uid, acts: seq<Action>) {
    Valid(s, acts) && !NeverOpen(Final(s, acts).hist, uid)
  }

  // Main result.  An object under the finalizer without conditions can still be started
  // exactly while the reconciler that stored the finalizer is about to record the start.
  lemma StartableExactly(s: State, uid: Uid)
    requires Reachable(s) && Bare(s, uid)
    ensures (exists acts: seq<Action> :: StartsIn(s, uid, acts)) <==> Starting(s)
  {
    if Starting(s) {
      var acts := [Reconcile(false)];
      var t := FinishStep(s, false);
      ReachableInv(s);
      VersionSound(s, s.Last());
      assert acts[1..] == [];
      assert Valid(Step(s, acts[0]), acts[1..]);
      assert Final(s, acts) == t;
      assert Open(t.hist[|s.hist|].value.status);
      assert StartsIn(s, uid, acts);
    } else {
      forall acts: seq<Action> | Valid(s, acts) ensures !StartsIn(s, uid, acts) {
        LostStartIsForever(s, uid, acts);
      }
    }
  }
}
