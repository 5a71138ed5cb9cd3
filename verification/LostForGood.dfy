// A lost answer is the only one: no other goroutine of this process can have recorded, or
// will ever record, that the object was fenced.
module LostForGood {
  import opened Basics
  import opened Conditions
  import opened Executions
  import opened Protocol
  import opened History
  import opened Invariant
  import opened Runs
  import opened LostAnswers

  // One goroutine a uid and process.
  ghost predicate OneEach(s: State) {
    && (forall r :: 0 <= r < |s.exec.gos| ==> s.exec.gos[r].uid in s.launched)
    && (forall q, r :: 0 <= q < r < |s.exec.gos| ==> s.exec.gos[q].uid != s.exec.gos[r].uid)
  }

  ghost predicate HasEnded(s: State, uid: Uid) {
    exists r :: 0 <= r < |s.exec.gos| && s.exec.gos[r].uid == uid && s.exec.gos[r].pc.Ended?
  }

  // An earlier process fenced uid, and whatever this one reads or has read of it is past
  // the gate.
  ghost predicate Inherited(s: State, uid: Uid)
    requires s.WellFormed()
  {
    && uid !in s.launched && uid <= s.cache && Past(s.hist, s.cache, uid)
    && (!s.pc.Idle? ==> Past(s.hist, s.pc.ver, uid))
  }

  // Whoever says that uid was fenced: a goroutine that is over, or an earlier process.
  ghost predicate Accounted(s: State) {
    && s.WellFormed()
    && forall i {:trigger s.hist[i]} :: 0 <= i < |s.hist| && s.hist[i].Some? && Shut(s.hist[i].value.status) ==>
         HasEnded(s, s.hist[i].value.uid) || Inherited(s, s.hist[i].value.uid)
  }

  ghost predicate Solo(s: State) {
    OneEach(s) && Accounted(s)
  }

  // ---------------------------------------------------------------- the goroutines

  // The goroutines are the same, each where it was or further.
  ghost predicate SameRoutines(s: State, t: State) {
    && |t.exec.gos| == |s.exec.gos| && t.launched == s.launched
    && forall r :: 0 <= r < |s.exec.gos| ==>
         t.exec.gos[r].uid == s.exec.gos[r].uid && (s.exec.gos[r].pc.Ended? ==> t.exec.gos[r].pc.Ended?)
  }

  lemma RoutinesReconcile(s: State, fault: bool)
    requires s.WellFormed() && !s.pc.Idle? && !s.pc.Launch?
    ensures SameRoutines(s, ReconcileStep(s, fault))
  {}

  lemma RoutinesRoutine(s: State, r: nat, a: GoAction)
    requires s.WellFormed() && GoEnabled(s, r, a) && GoStep(s, r, a) != Restarted(s)
    ensures SameRoutines(s, GoStep(s, r, a))
  {}

  lemma RoutinesStep(s: State, a: Action)
    requires s.WellFormed() && Enabled(s, a) && Survives(s, a) && !(a.Reconcile? && s.pc.Launch?)
    ensures SameRoutines(s, Step(s, a))
  {
    match a
    case Disturb(_) =>
    case Get(_) =>
    case Reconcile(fault) => RoutinesReconcile(s, fault);
    case Routine(r, g) => RoutinesRoutine(s, r, g);
  }

  lemma SameKeepsEnded(s: State, t: State, uid: Uid)
    requires SameRoutines(s, t) && HasEnded(s, uid)
    ensures HasEnded(t, uid)
  {
    var r :| 0 <= r < |s.exec.gos| && s.exec.gos[r].uid == uid && s.exec.gos[r].pc.Ended?;
    assert t.exec.gos[r].pc.Ended?;
  }

  // ---------------------------------------------------------------- what was read stays past

  lemma PastFrame(h: Versions, k: Versions, c: nat, uid: Uid)
    requires c < |h| && h <= k && Past(h, c, uid)
    ensures Past(k, c, uid)
  {
    assert k[c] == h[c];
    assert c > 0 ==> k[c - 1] == h[c - 1];
  }

  // Where the reconciler's copy can come from: it is kept, freshly read, or the version
  // that just got the finalizer.
  ghost predicate CopyStep(s: State, t: State)
    requires s.WellFormed() && t.WellFormed()
  {
    || t.pc.Idle?
    || (!s.pc.Idle? && t.pc.ver == s.pc.ver)
    || t.pc.ver == s.cache
    || (t.pc.ver == |s.hist| && Starts(s, t))
  }

  ghost predicate Starts(s: State, t: State)
    requires s.WellFormed() && t.WellFormed()
  {
    && !s.pc.Idle? && |s.hist| < |t.hist| && t.hist[|s.hist|].Some?
    && t.hist[|s.hist|].value.uid == s.hist[s.pc.ver].value.uid
    && Untouched(s.hist[s.pc.ver].value)
  }

  lemma ReconcileCopy(s: State, fault: bool)
    requires Inv(s) && !s.pc.Idle? && ReconcileStep(s, fault).WellFormed()
    ensures CopyStep(s, ReconcileStep(s, fault)) && ReconcileStep(s, fault).cache == s.cache
  {
    hide Inv;
    if s.pc.AddFinalizer? { AddsToUntouched(s); }
  }

  lemma CopyFrom(s: State, a: Action)
    requires Inv(s) && Enabled(s, a) && Survives(s, a) && Step(s, a).WellFormed()
    ensures CopyStep(s, Step(s, a)) && s.cache <= Step(s, a).cache
  {
    hide Inv;
    if a.Reconcile? { ReconcileCopy(s, a.fault); }
  }

  lemma InheritedKept(s: State, t: State, uid: Uid)
    requires s.WellFormed() && t.WellFormed() && Sound(t.hist)
    requires Inherited(s, uid) && t.launched == s.launched && s.hist <= t.hist && s.cache <= t.cache && CopyStep(s, t)
    ensures Inherited(t, uid)
  {
    hide Sound, Past;
    PastFrame(s.hist, t.hist, s.cache, uid);
    PastStays(t.hist, s.cache, t.cache, uid);
    if !t.pc.Idle? {
      if !s.pc.Idle? && t.pc.ver == s.pc.ver {
        PastFrame(s.hist, t.hist, s.pc.ver, uid);
      } else if t.pc.ver != s.cache {
        OtherIncarnation(s, t, uid);
      }
    }
  }

  lemma OtherIncarnation(s: State, t: State, uid: Uid)
    requires s.WellFormed() && t.WellFormed() && Starts(s, t) && Past(s.hist, s.pc.ver, uid)
    ensures Past(t.hist, |s.hist|, uid)
  {}

  // ---------------------------------------------------------------- steps

  lemma OneEachStep(s: State, a: Action)
    requires Inv(s) && OneEach(s) && Enabled(s, a) && Survives(s, a)
    ensures OneEach(Step(s, a))
  {
    hide Inv;
    if a.Reconcile? && s.pc.Launch? {
      ReconcileActs(s);
    } else {
      RoutinesStep(s, a);
    }
  }

  // Whoever is launched had the gate open in the copy read, so nobody fenced it before.
  lemma LaunchUnfenced(s: State, i: nat)
    requires Inv(s) && Accounted(s) && s.pc.Launch? && OneEach(s)
    requires s.hist[s.pc.ver].value.uid !in s.exec.routines
    requires i < |s.hist| && s.hist[i].Some? && Shut(s.hist[i].value.status)
    ensures s.hist[i].value.uid != s.hist[s.pc.ver].value.uid
  {
    hide Inv;
    GateRead(s);
    ReconcileActs(s);
    assert HasEnded(s, s.hist[i].value.uid) || Inherited(s, s.hist[i].value.uid);
  }

  lemma GateRead(s: State)
    requires Inv(s) && s.pc.Launch?
    ensures Gate(s.hist[s.pc.ver].value) && !Past(s.hist, s.pc.ver, s.hist[s.pc.ver].value.uid)
  {
    VersionSound(s, s.pc.ver);
  }

  lemma LaunchAccounted(s: State, fault: bool)
    requires Inv(s) && Solo(s) && s.pc.Launch?
    ensures Accounted(ReconcileStep(s, fault))
  {
    hide Inv, Past;
    LaunchKeeps(s, fault);
    var t := ReconcileStep(s, fault);
    forall i | 0 <= i < |t.hist| && t.hist[i].Some? && Shut(t.hist[i].value.status)
      ensures HasEnded(t, t.hist[i].value.uid) || Inherited(t, t.hist[i].value.uid)
    {
      var uid := s.hist[i].value.uid;
      assert HasEnded(s, uid) || Inherited(s, uid);
      if HasEnded(s, uid) {
        var r :| 0 <= r < |s.exec.gos| && s.exec.gos[r].uid == uid && s.exec.gos[r].pc.Ended?;
        assert t.exec.gos[r] == s.exec.gos[r];
      } else if s.hist[s.pc.ver].value.uid !in s.exec.routines {
        LaunchUnfenced(s, i);
      }
    }
  }

  // An account of uid survives a step that starts nothing and stores no new answer for it.
  lemma AccountKept(s: State, t: State, uid: Uid)
    requires s.WellFormed() && t.WellFormed() && Sound(t.hist) && SameRoutines(s, t)
    requires s.hist <= t.hist && s.cache <= t.cache && CopyStep(s, t)
    requires HasEnded(s, uid) || Inherited(s, uid)
    ensures HasEnded(t, uid) || Inherited(t, uid)
  {
    hide Inherited, Sound;
    if HasEnded(s, uid) { SameKeepsEnded(s, t, uid); } else { InheritedKept(s, t, uid); }
  }

  lemma OthersAccounted(s: State, a: Action)
    requires Inv(s) && Accounted(s) && Enabled(s, a) && Survives(s, a) && !(a.Reconcile? && s.pc.Launch?)
    ensures Accounted(Step(s, a))
  {
    hide Inv, Step, Enabled, Past, Inherited, HasEnded, SameRoutines, CopyStep;
    var t := Step(s, a);
    StepKeeps(s, a);
    SoundHistory(t);
    OneVersion(s, a);
    CopyFrom(s, a);
    RoutinesStep(s, a);
    forall i | 0 <= i < |t.hist| && t.hist[i].Some? && Shut(t.hist[i].value.status)
      ensures HasEnded(t, t.hist[i].value.uid) || Inherited(t, t.hist[i].value.uid)
    {
      var uid := t.hist[i].value.uid;
      if i < |s.hist| {
        assert t.hist[i] == s.hist[i];
        AccountKept(s, t, uid);
      } else if Shuts(s, t) {
        OnlyRoutinesShut(s, a);
        StoredIsEnded(s, t, a);
      } else {
        assert s.hist[s.Last()] == s.Current();
        AccountKept(s, t, uid);
      }
    }
  }

  lemma StoredIsEnded(s: State, t: State, a: Action)
    requires s.WellFormed() && t.WellFormed() && a.Routine? && a.r < |s.exec.gos| && a.r < |t.exec.gos|
    requires t.Current().Some? && t.Current().value.uid == s.exec.gos[a.r].uid
    requires t.exec.gos[a.r] == s.exec.gos[a.r].(pc := Ended)
    ensures HasEnded(t, t.Current().value.uid)
  {}

  lemma RestartAccounted(s: State)
    requires Inv(s)
    ensures Solo(Restarted(s))
  {
    hide Inv;
    SoundHistory(s);
    var t := Restarted(s);
    forall i | 0 <= i < |s.hist| && s.hist[i].Some? && Shut(s.hist[i].value.status)
      ensures Inherited(t, s.hist[i].value.uid)
    {
      VersionSound(s, i);
      ShutIsBarred(s.hist, i);
      PastStays(s.hist, i, s.Last(), s.hist[i].value.uid);
    }
  }

  lemma SoloStep(s: State, a: Action)
    requires Inv(s) && Solo(s) && Enabled(s, a)
    ensures Solo(Step(s, a))
  {
    hide Inv, Accounted, OneEach;
    if !Survives(s, a) {
      RestartAccounted(s);
    } else {
      OneEachStep(s, a);
      if a.Reconcile? && s.pc.Launch? { LaunchAccounted(s, a.fault); } else { OthersAccounted(s, a); }
    }
  }

  lemma {:induction false} SoloRun(s: State, acts: seq<Action>)
    requires Inv(s) && Solo(s) && Valid(s, acts)
    ensures Solo(Final(s, acts))
    decreases |acts|
  {
    hide Inv, Solo, Step, Enabled;
    if acts != [] {
      StepKeeps(s, acts[0]);
      SoloStep(s, acts[0]);
      SoloRun(Step(s, acts[0]), acts[1..]);
    }
  }

  lemma ReachableSolo(s: State)
    requires Reachable(s)
    ensures Inv(s) && Solo(s) && TriesLeft(s)
  {
    hide Inv;
    var s0: State, acts: seq<Action> :| Reaches(s0, acts, s);
    InitInv(s0);
    RunInv(s0, acts);
    SoloRun(s0, acts);
    TriesLeftRun(s0, acts);
  }

  // ---------------------------------------------------------------- the answer is lost for good

  // A live goroutine that has not recorded yet is the only one of its uid, and no version
  // says that the uid was fenced.
  lemma NotYetFenced(s: State, r: nat)
    requires Inv(s) && Solo(s) && LiveRecording(s, r)
    ensures Unfenced(s.hist, s.exec.gos[r].uid)
  {
    hide Inv, Past;
    var uid := s.exec.gos[r].uid;
    assert forall i {:trigger s.hist[i]} ::
        0 <= i < |s.hist| && s.hist[i].Some? && Shut(s.hist[i].value.status) && s.hist[i].value.uid == uid ==>
          HasEnded(s, uid) || Inherited(s, uid);
  }

  lemma DropIsSpent(s: State, r: nat, a: GoAction)
    requires Reachable(s) && LiveRecording(s, r) && GoEnabled(s, r, a) && Drops(s, r, a)
    ensures var t := GoStep(s, r, a);
            Inv(t) && Spent(t, s.exec.gos[r].uid) && Unfenced(t.hist, s.exec.gos[r].uid)
  {
    hide Inv, Unfenced, Accounted;
    ReachableSolo(s);
    LostStepExactly(s, r, a);
    NotYetFenced(s, r);
    GoKeeps(s, r, a);
    RoutinesRoutine(s, r, a);
  }

  // Main result.  An answer that a goroutine drops is lost for as long as the process
  // lives: in every continuation, whatever is edited, deleted, added or read meanwhile, no
  // version says that the object was fenced, no command runs for it and nothing is evicted
  // for it.
  lemma DroppedIsForGood(s: State, r: nat, a: GoAction, acts: seq<Action>)
    requires Reachable(s) && LiveRecording(s, r) && GoEnabled(s, r, a) && Drops(s, r, a)
    requires Valid(GoStep(s, r, a), acts) && SurvivesAll(GoStep(s, r, a), acts)
    ensures var uid := s.exec.gos[r].uid;
            var t := Final(GoStep(s, r, a), acts);
            && Unfenced(t.hist, uid)
            && GoStep(s, r, a).log <= t.log && NothingAbout(t.log, |GoStep(s, r, a).log|, uid)
  {
    hide Inv;
    DropIsSpent(s, r, a);
    SpentRun(GoStep(s, r, a), s.exec.gos[r].uid, acts);
  }
}
