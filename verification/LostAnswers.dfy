// When the answer of a fence command is lost, and what follows.
module LostAnswers {
  import opened Basics
  import opened Conditions
  import opened Executions
  import opened Protocol
  import opened History
  import opened Invariant
  import opened Runs

  // ---------------------------------------------------------------- the step that loses it

  // The goroutine has its answer and is recording it.
  predicate Recording(pc: GoPc) {
    pc.Record? || pc.Lookup? || pc.Store? || pc.RecordPause?
  }

  ghost predicate LiveRecording(s: State, r: nat) {
    s.WellFormed() && r < |s.exec.gos| && !s.exec.gos[r].cancelled && Recording(s.exec.gos[r].pc)
  }

  // The three ways to give up: an error of the list call, an error of the status write
  // other than a conflict, and a conflict on the last try.
  predicate Drops(s: State, r: nat, a: GoAction)
    requires s.WellFormed() && GoEnabled(s, r, a)
  {
    match a
    case List(fault, _) => fault
    case Write(fault) => fault || (s.exec.gos[r].pc.ver != s.Last() && s.exec.gos[r].pc.tries <= 1)
    case _ => false
  }

  predicate Accepted(s: State, r: nat, a: GoAction)
    requires s.WellFormed() && GoEnabled(s, r, a)
  {
    a == Write(false) && s.exec.gos[r].pc.ver == s.Last()
  }

  // The object shows the answer.
  predicate Says(cr: CR, v: Verdict) {
    cr.status.Is(FenceAgentActionSucceeded, if v.Won? then True else False)
  }

  ghost predicate TriesLeft(s: State) {
    forall r :: 0 <= r < |s.exec.gos| && Recording(s.exec.gos[r].pc) ==> s.exec.gos[r].pc.tries >= 1
  }

  lemma TriesLeftStep(s: State, a: Action)
    requires s.WellFormed() && Enabled(s, a) && TriesLeft(s)
    ensures TriesLeft(Step(s, a))
  {
    match a
    case Disturb(_) =>
    case Get(_) =>
    case Reconcile(fault) => TriesLeftReconcile(s, fault);
    case Routine(r, g) => TriesLeftRoutine(s, r, g);
  }

  lemma TriesLeftRoutine(s: State, r: nat, a: GoAction)
    requires s.WellFormed() && GoEnabled(s, r, a) && TriesLeft(s)
    ensures TriesLeft(GoStep(s, r, a))
  {
    hide Updated, Panics;
  }

  lemma TriesLeftReconcile(s: State, fault: bool)
    requires s.WellFormed() && !s.pc.Idle? && TriesLeft(s)
    ensures TriesLeft(ReconcileStep(s, fault))
  {}

  lemma {:induction false} TriesLeftRun(s: State, acts: seq<Action>)
    requires Valid(s, acts) && TriesLeft(s)
    ensures TriesLeft(Final(s, acts))
    decreases |acts|
  {
    hide Step, Enabled, TriesLeft;
    if acts != [] {
      TriesLeftStep(s, acts[0]);
      TriesLeftRun(Step(s, acts[0]), acts[1..]);
    }
  }

  // What a live goroutine works with while it records.
  lemma LiveWrite(s: State, r: nat)
    requires Inv(s) && LiveRecording(s, r)
    ensures s.Current().Some? && s.Current().value.uid == s.exec.gos[r].uid
    ensures s.Seen().Some? && s.Seen().value.uid == s.exec.gos[r].uid
    ensures s.exec.gos[r].pc.Store? ==>
              !Panics(ReasonFor(s.exec.gos[r].pc.verdict), s.hist[s.exec.gos[r].pc.ver].value.status)
  {
    hide Inv;
    LiveOwned(s, r);
    if s.exec.gos[r].pc.Store? { VersionSound(s, s.exec.gos[r].pc.ver); }
  }

  // A step of a live recording goroutine: it ends by dropping the answer or by storing
  // it, never both, and goes on recording otherwise.
  ghost predicate StepOutcome(s: State, r: nat, a: GoAction)
    requires s.WellFormed() && GoEnabled(s, r, a) && Recording(s.exec.gos[r].pc)
  {
    var v := s.exec.gos[r].pc.verdict;
    var t := GoStep(s, r, a);
    && r < |t.exec.gos| && t != Restarted(s)
    && (t.exec.gos[r].pc.Ended? <==> Drops(s, r, a) || Accepted(s, r, a))
    && !(Drops(s, r, a) && Accepted(s, r, a))
    && (Accepted(s, r, a) ==>
          t.Current().Some? && t.Current().value.uid == s.exec.gos[r].uid && Says(t.Current().value, v))
    && (!Accepted(s, r, a) ==> t.hist == s.hist)
    && (!t.exec.gos[r].pc.Ended? ==> Recording(t.exec.gos[r].pc) && t.exec.gos[r].pc.verdict == v)
  }

  lemma LostStepExactly(s: State, r: nat, a: GoAction)
    requires Inv(s) && TriesLeft(s) && LiveRecording(s, r) && GoEnabled(s, r, a)
    ensures StepOutcome(s, r, a)
  {
    hide Inv;
    LiveWrite(s, r);
    assert s.log != s.log + [Crashed];
  }

  // ---------------------------------------------------------------- the recording phase of a run

  // The process lives through the step.
  ghost predicate Survives(s: State, a: Action)
    requires s.WellFormed() && Enabled(s, a)
  {
    Step(s, a) != Restarted(s)
  }

  // The process lives through the run and r is never cancelled.
  ghost predicate Undisturbed(s: State, r: nat, acts: seq<Action>)
    requires Valid(s, acts)
    decreases |acts|
  {
    && r < |s.exec.gos| && !s.exec.gos[r].cancelled
    && (acts == [] || (Survives(s, acts[0]) && Undisturbed(Step(s, acts[0]), r, acts[1..])))
  }

  ghost predicate DropsIn(s: State, r: nat, acts: seq<Action>)
    requires Valid(s, acts)
    decreases |acts|
  {
    acts != [] &&
    ((acts[0].Routine? && acts[0].r == r && Drops(s, r, acts[0].act)) || DropsIn(Step(s, acts[0]), r, acts[1..]))
  }

  ghost predicate AcceptedIn(s: State, r: nat, acts: seq<Action>)
    requires Valid(s, acts)
    decreases |acts|
  {
    acts != [] &&
    ((acts[0].Routine? && acts[0].r == r && Accepted(s, r, acts[0].act)) || AcceptedIn(Step(s, acts[0]), r, acts[1..]))
  }

  lemma OtherStep(s: State, r: nat, a: Action)
    requires Inv(s) && Enabled(s, a) && Survives(s, a) && r < |s.exec.gos| && !(a.Routine? && a.r == r)
    ensures r < |Step(s, a).exec.gos| && Step(s, a).exec.gos[r].pc == s.exec.gos[r].pc
    ensures Step(s, a).exec.gos[r].uid == s.exec.gos[r].uid
  {
    hide Inv;
    if a.Reconcile? { OtherReconcile(s, r, a.fault); }
  }

  lemma OtherReconcile(s: State, r: nat, fault: bool)
    requires s.WellFormed() && !s.pc.Idle? && r < |s.exec.gos|
    ensures r < |ReconcileStep(s, fault).exec.gos|
    ensures ReconcileStep(s, fault).exec.gos[r].pc == s.exec.gos[r].pc
    ensures ReconcileStep(s, fault).exec.gos[r].uid == s.exec.gos[r].uid
  {}

  lemma {:induction false} EndedStays(s: State, r: nat, acts: seq<Action>)
    requires Inv(s) && Valid(s, acts) && Undisturbed(s, r, acts) && s.exec.gos[r].pc.Ended?
    ensures !DropsIn(s, r, acts) && !AcceptedIn(s, r, acts)
    ensures r < |Final(s, acts).exec.gos| && Final(s, acts).exec.gos[r].pc.Ended?
    decreases |acts|
  {
    hide Inv, Step;
    if acts != [] {
      StepKeeps(s, acts[0]);
      OtherStep(s, r, acts[0]);
      EndedStays(Step(s, acts[0]), r, acts[1..]);
    }
  }

  lemma {:induction false} PhaseOutcome(s: State, r: nat, acts: seq<Action>)
    requires Inv(s) && TriesLeft(s) && Valid(s, acts) && Undisturbed(s, r, acts) && LiveRecording(s, r)
    ensures r < |Final(s, acts).exec.gos|
    ensures Final(s, acts).exec.gos[r].pc.Ended? <==> DropsIn(s, r, acts) || AcceptedIn(s, r, acts)
    ensures !(DropsIn(s, r, acts) && AcceptedIn(s, r, acts))
    decreases |acts|
  {
    hide Inv, Step, TriesLeft, GoStep;
    if acts != [] {
      var t := Step(s, acts[0]);
      StepKeeps(s, acts[0]);
      TriesLeftStep(s, acts[0]);
      if acts[0].Routine? && acts[0].r == r {
        LostStepExactly(s, r, acts[0].act);
        RoutineSteps(s, acts[0]);
      } else {
        OtherStep(s, r, acts[0]);
      }
      if t.exec.gos[r].pc.Ended? { EndedStays(t, r, acts[1..]); } else { PhaseOutcome(t, r, acts[1..]); }
    }
  }

  lemma RoutineSteps(s: State, a: Action)
    requires s.WellFormed() && Enabled(s, a) && a.Routine?
    ensures Step(s, a) == GoStep(s, a.r, a.act)
  {}

  // Main result.  While the process lives and the routine is not cancelled, a goroutine
  // with an answer ends without storing it exactly when one of its steps drops it: an
  // error of the list call or of the write, or a conflict on the last try.
  lemma AnswerLostExactly(s: State, r: nat, acts: seq<Action>)
    requires Reachable(s) && LiveRecording(s, r) && Valid(s, acts) && Undisturbed(s, r, acts)
    ensures r < |Final(s, acts).exec.gos|
    ensures Final(s, acts).exec.gos[r].pc.Ended? && !AcceptedIn(s, r, acts) <==> DropsIn(s, r, acts)
    ensures Final(s, acts).exec.gos[r].pc.Ended? && !DropsIn(s, r, acts) <==> AcceptedIn(s, r, acts)
  {
    ReachableInv(s);
    var s0: State, before: seq<Action> :| Reaches(s0, before, s);
    TriesLeftRun(s0, before);
    PhaseOutcome(s, r, acts);
  }

  // ---------------------------------------------------------------- after the answer is lost

  // uid had its run in this process, and its goroutines are over.
  ghost predicate Spent(s: State, uid: Uid) {
    uid in s.launched && forall r :: 0 <= r < |s.exec.gos| && s.exec.gos[r].uid == uid ==> s.exec.gos[r].pc.Ended?
  }

  // No version of uid says that it was fenced.
  ghost predicate Unfenced(h: Versions, uid: Uid) {
    forall i :: 0 <= i < |h| && h[i].Some? && h[i].value.uid == uid ==> !Shut(h[i].value.status)
  }

  predicate About(e: Event, uid: Uid) {
    !e.Crashed? && e.uid == uid
  }

  ghost predicate NothingAbout(log: seq<Event>, from: nat, uid: Uid) {
    forall i :: from <= i < |log| ==> !About(log[i], uid)
  }

  // A step that stores uid as fenced.
  ghost predicate Shuts(s: State, t: State)
    requires s.WellFormed() && t.WellFormed()
  {
    && t.hist != s.hist && t.Current().Some? && Shut(t.Current().value.status)
    && !(s.Current().Some? && s.Current().value.uid == t.Current().value.uid && Shut(s.Current().value.status))
  }

  lemma ReconcileShutsNothing(s: State, fault: bool)
    requires Inv(s) && !s.pc.Idle? && ReconcileStep(s, fault).WellFormed()
    ensures !Shuts(s, ReconcileStep(s, fault))
  {
    hide Inv;
    if s.pc.Finish? && s.pc.why.Some? { FinishReasons(s); }
  }

  lemma RoutineShutsItsOwn(s: State, r: nat, a: GoAction)
    requires Inv(s) && GoEnabled(s, r, a) && GoStep(s, r, a).WellFormed() && Shuts(s, GoStep(s, r, a))
    ensures GoStep(s, r, a).Current().value.uid == s.exec.gos[r].uid && a.Write?
    ensures r < |GoStep(s, r, a).exec.gos| && GoStep(s, r, a).exec.gos[r] == s.exec.gos[r].(pc := Ended)
  {
    hide Inv;
    if !s.exec.gos[r].cancelled { LiveOwned(s, r); }
  }

  lemma OnlyRoutinesShut(s: State, a: Action)
    requires Inv(s) && Enabled(s, a) && Step(s, a).WellFormed() && Shuts(s, Step(s, a))
    ensures a.Routine? && Step(s, a).Current().value.uid == s.exec.gos[a.r].uid && a.act.Write?
    ensures a.r < |Step(s, a).exec.gos| && Step(s, a).exec.gos[a.r] == s.exec.gos[a.r].(pc := Ended)
  {
    hide Inv;
    match a
    case Disturb(_) =>
    case Get(_) =>
    case Reconcile(fault) => ReconcileShutsNothing(s, fault);
    case Routine(r, g) => RoutineShutsItsOwn(s, r, g);
  }

  lemma UnfencedStep(s: State, uid: Uid, a: Action)
    requires Inv(s) && Enabled(s, a) && Spent(s, uid) && Unfenced(s.hist, uid)
    ensures Unfenced(Step(s, a).hist, uid)
  {
    hide Inv, Step, Enabled;
    StepKeeps(s, a);
    OneVersion(s, a);
    var t := Step(s, a);
    if t.hist != s.hist && Shuts(s, t) { OnlyRoutinesShut(s, a); RoutineEnabled(s, a); }
  }

  lemma RoutineEnabled(s: State, a: Action)
    requires s.WellFormed() && Enabled(s, a) && a.Routine?
    ensures a.r < |s.exec.gos| && !s.exec.gos[a.r].pc.Ended?
  {}

  // What the reconciler would have to have read to act for uid.
  lemma ReconcileActs(s: State)
    requires Inv(s) && !s.pc.Idle?
    ensures s.pc.EvictPods? ==> Shut(s.hist[s.pc.ver].value.status)
    ensures s.pc.WriteNode? && s.pc.job.TaintOutOfService? ==> Shut(s.hist[s.pc.ver].value.status)
    ensures s.pc.Finish? && s.pc.why == Some(FinishedSuccessfully) ==> Shut(s.hist[s.pc.ver].value.status)
    ensures s.pc.Launch? && s.hist[s.pc.ver].value.uid in s.launched ==>
              s.hist[s.pc.ver].value.uid in s.exec.routines
  {}

  lemma SpentReconcile(s: State, uid: Uid, fault: bool)
    requires Inv(s) && !s.pc.Idle? && Spent(s, uid) && Unfenced(s.hist, uid)
    ensures s.log <= ReconcileStep(s, fault).log && NothingAbout(ReconcileStep(s, fault).log, |s.log|, uid)
    ensures Spent(ReconcileStep(s, fault), uid)
  {
    hide Inv;
    ReconcileActs(s);
    if s.pc.Finish? { VersionSound(s, s.pc.ver); }
  }

  lemma SpentRoutine(s: State, uid: Uid, r: nat, a: GoAction)
    requires Inv(s) && GoEnabled(s, r, a) && GoStep(s, r, a) != Restarted(s) && Spent(s, uid)
    ensures s.log <= GoStep(s, r, a).log && NothingAbout(GoStep(s, r, a).log, |s.log|, uid)
    ensures Spent(GoStep(s, r, a), uid)
  {
    hide Inv;
    if a.Write? && !s.exec.gos[r].cancelled { LiveOwned(s, r); StoresItsOwn(s, r); }
  }

  lemma SpentStep(s: State, uid: Uid, a: Action)
    requires Inv(s) && Enabled(s, a) && Survives(s, a) && Spent(s, uid) && Unfenced(s.hist, uid)
    ensures Spent(Step(s, a), uid) && s.log <= Step(s, a).log && NothingAbout(Step(s, a).log, |s.log|, uid)
  {
    hide Inv, Unfenced;
    match a
    case Disturb(_) =>
    case Get(_) =>
    case Reconcile(fault) => SpentReconcile(s, uid, fault);
    case Routine(r, g) => SpentRoutine(s, uid, r, g);
  }

  ghost predicate SurvivesAll(s: State, acts: seq<Action>)
    requires Valid(s, acts)
    decreases |acts|
  {
    acts == [] || (Survives(s, acts[0]) && SurvivesAll(Step(s, acts[0]), acts[1..]))
  }

  lemma {:induction false} SpentRun(s: State, uid: Uid, acts: seq<Action>)
    requires Inv(s) && Valid(s, acts) && SurvivesAll(s, acts) && Spent(s, uid) && Unfenced(s.hist, uid)
    ensures Spent(Final(s, acts), uid) && Unfenced(Final(s, acts).hist, uid)
    ensures s.log <= Final(s, acts).log && NothingAbout(Final(s, acts).log, |s.log|, uid)
    decreases |acts|
  {
    hide Inv, Step, Enabled, Spent, Unfenced;
    if acts != [] {
      var u := Step(s, acts[0]);
      StepKeeps(s, acts[0]);
      SpentStep(s, uid, acts[0]);
      UnfencedStep(s, uid, acts[0]);
      SpentRun(u, uid, acts[1..]);
      var t := Final(u, acts[1..]);
      forall i | |s.log| <= i < |t.log| ensures !About(t.log[i], uid) {
        if i < |u.log| { assert t.log[i] == u.log[i]; }
      }
    }
  }

  // Main result.  Once the goroutine of uid is over and no version says that uid was
  // fenced, then for as long as the process lives no version will, no command is run for
  // it and nothing is evicted for it, whatever is edited, deleted or read meanwhile.
  lemma SpentIsForever(s: State, uid: Uid, acts: seq<Action>)
    requires Reachable(s) && Spent(s, uid) && Unfenced(s.hist, uid) && Valid(s, acts) && SurvivesAll(s, acts)
    ensures Spent(Final(s, acts), uid) && Unfenced(Final(s, acts).hist, uid)
    ensures s.log <= Final(s, acts).log && NothingAbout(Final(s, acts).log, |s.log|, uid)
  {
    ReachableInv(s);
    SpentRun(s, uid, acts);
  }
}
