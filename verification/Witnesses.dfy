// Runs that exist: every status, where the code falls short, and the hypothesis that is needed.
module Witnesses {
  import opened Basics
  import opened Conditions
  import opened Taints
  import opened Executions
  import opened Protocol
  import opened History
  import opened Invariant
  import opened Runs
  import opened Rounds
  import opened Safety
  import opened Theorems
  import opened LostStarts
  import opened LostAnswers
  import opened LostForGood

  lemma Continue(s: State, a: Action)
    requires Reachable(s) && Enabled(s, a)
    ensures Reachable(Step(s, a))
  {
    var s0: State, acts: seq<Action> :| Reaches(s0, acts, s);
    ReachableInv(s);
    RunsCompose(s0, acts, [a]);
    assert Final(s, [a]) == Step(s, a);
    assert Reaches(s0, acts + [a], Step(s, a));
  }

  lemma {:induction false} ContinueRun(s: State, acts: seq<Action>)
    requires Reachable(s) && Valid(s, acts)
    ensures Reachable(Final(s, acts))
    decreases |acts|
  {
    if acts != [] {
      Continue(s, acts[0]);
      ContinueRun(Step(s, acts[0]), acts[1..]);
    }
  }

  lemma RoundReachable(s: State, buildable: bool)
    requires Reachable(s) && s.pc.Idle?
    ensures Inv(s) && Reachable(Round(s, buildable))
  {
    ReachableInv(s);
    Continue(s, Get(false));
    GetKeeps(s, false);
    var acts := SettledIsARun(GetStep(s, false), buildable);
    ContinueRun(GetStep(s, false), acts);
  }

  // The informer catches up.
  lemma CatchUp(s: State) returns (t: State)
    requires Reachable(s)
    ensures Reachable(t) && t == s.(cache := s.Last())
  {
    Continue(s, Disturb(Observe(s.Last())));
    t := s.(cache := s.Last());
  }

  // ---------------------------------------------------------------- the usual path

  // A new object, seen by the operator; the node carries no taints.
  ghost predicate Created(s: State, strategy: Strategy, retries: int) {
    && Reachable(s) && s.pc.Idle? && s.exec == NOTHING_RUNNING && s.launched == {} && s.log == []
    && s.hist == [None, Some(CR(1, false, false, false, strategy, retries, EMPTY))] && s.cache == 1
    && s.node == Some(Node(0, []))
  }

  lemma CreatedState(strategy: Strategy, retries: int) returns (s: State)
    ensures Created(s, strategy, retries)
  {
    var s0 := State([None], 0, Some(Node(0, [])), 1, Idle, NOTHING_RUNNING, {}, []);
    assert Init(s0);
    assert Reaches(s0, [], s0);
    Continue(s0, Disturb(Create(strategy, retries)));
    s := CatchUp(Step(s0, Disturb(Create(strategy, retries))));
  }

  ghost predicate NoneSucceeded(h: Versions) {
    forall i :: 0 <= i < |h| && h[i].Some? ==> !h[i].value.status.Is(Succeeded, True)
  }

  // The remediation has started: one goroutine is about to make its first attempt.
  ghost predicate Fencing(s: State, strategy: Strategy, retries: int) {
    && Reachable(s) && s.pc.Idle? && |s.hist| == 4 && s.cache == 3
    && s.hist[3].Some?
    && s.hist[3].value.uid == 1 && Active(s.hist[3].value) && s.hist[3].value.status.Triple(True, Unknown, Unknown)
    && s.hist[3].value.strategy == strategy
    && s.exec == Exec(map[1 := 0], [Go(1, false, Attempt(retries))])
    && s.log == [FenceStarted(1)]
    && Tainted(s.node) && NoneSucceeded(s.hist)
  }

  // The finalizer is written and the start recorded.
  lemma StartedState(strategy: Strategy, retries: int) returns (s: State)
    ensures Reachable(s) && Fresh(s) && s.pc.Idle? && |s.hist| == 4 && NoneSucceeded(s.hist)
    ensures s.Current().value == CR(1, false, false, true, strategy, retries,
                                    Status(Some(True), Some(Unknown), Some(Unknown), Some(3)))
    ensures s.exec == NOTHING_RUNNING && s.launched == {} && s.log == [] && s.node == Some(Node(0, []))
  {
    hide Inv, Reachable;
    var c := CreatedState(strategy, retries);
    RoundReachable(c, true);
    RoundStarts(c, true);
    s := CatchUp(Round(c, true));
    ReachableInv(s);
  }

  lemma FencingState(strategy: Strategy, retries: int) returns (s: State)
    ensures Fencing(s, strategy, retries)
  {
    hide Inv, Reachable;
    var c := StartedState(strategy, retries);
    RoundReachable(c, true);
    RoundLaunches(c);
    TaintedNodeTainted(c);
    s := Round(c, true);
  }

  // The goroutine's part: check, run the command, check, find the object, write.
  lemma Answered(s: State) returns (t: State)
    requires Reachable(s) && |s.exec.gos| == 1 && !s.exec.gos[0].cancelled
    requires s.exec.gos[0].pc.Attempt? && s.exec.gos[0].pc.left >= 1
    ensures Reachable(t)
    ensures var uid := s.exec.gos[0].uid;
            t == s.(exec := s.exec.(gos := [s.exec.gos[0].(pc := Lookup(STATUS_STEPS, Won))]),
                    log := s.log + [CommandRun(uid)] + [FenceOk(uid)])
  {
    Continue(s, Routine(0, Check));
    var s1 := Step(s, Routine(0, Check));
    Continue(s1, Routine(0, Run(Ok)));
    var s2 := Step(s1, Routine(0, Run(Ok)));
    Continue(s2, Routine(0, Check));
    t := Step(s2, Routine(0, Check));
  }

  lemma Recorded(s: State) returns (t: State)
    requires Reachable(s) && |s.exec.gos| == 1 && !s.exec.gos[0].cancelled
    requires s.exec.gos[0].pc == Lookup(STATUS_STEPS, Won)
    requires s.cache == s.Last()
    ensures Reachable(t) && s.Current().Some?
    ensures t == PutStatus(s.(exec := s.exec.(gos := [s.exec.gos[0].(pc := Ended)])), s.Current().value,
                           Updated(FenceAgentSucceeded, s.Current().value.status, |s.hist|))
  {
    hide Inv, Reachable;
    ReachableInv(s);
    LiveOwned(s, 0);
    Continue(s, Routine(0, List(false, true)));
    var s1 := Step(s, Routine(0, List(false, true)));
    assert s1.exec.gos[0].pc == Store(STATUS_STEPS, Won, s.cache);
    VersionSound(s, s.Last());
    Continue(s1, Routine(0, Write(false)));
    t := Step(s1, Routine(0, Write(false)));
  }

  lemma FencedState(strategy: Strategy) returns (s: State)
    ensures Reachable(s) && Fresh(s) && s.node.Some? && s.Current().value.uid == 1
    ensures Active(s.Current().value) && s.Current().value.strategy == strategy
    ensures s.Current().value.status.Triple(True, True, Unknown)
    ensures Tainted(s.node) && NoneSucceeded(s.hist)
  {
    hide Inv, Reachable;
    var f := FencingState(strategy, 1);
    var a := Answered(f);
    var r := Recorded(a);
    s := CatchUp(r);
    ReachableInv(s);
  }

  lemma SucceededState() returns (s: State)
    ensures Reachable(s) && s.Current().Some? && s.Current().value.status.Triple(False, True, True)
  {
    var f := FencedState(ResourceDeletion);
    RoundReachable(f, true);
    RoundCompletes(f, true);
    s := Round(f, true);
  }

  // The node disappears while the fence command runs; the routine is not cancelled.
  lemma NodeLostState() returns (s: State)
    ensures Reachable(s) && s.cache == s.Last() && s.Current().Some?
    ensures s.Current().value.status.Triple(False, False, False)
    ensures |s.exec.gos| == 1 && !s.exec.gos[0].cancelled && s.exec.gos[0].pc == Attempt(1)
  {
    hide Inv, Reachable;
    var f := FencingState(ResourceDeletion, 1);
    Continue(f, Disturb(NodeGone));
    var g := Step(f, Disturb(NodeGone));
    ReachableInv(g);
    RoundReachable(g, true);
    RoundNodeMissing(g, true);
    s := CatchUp(Round(g, true));
  }

  lemma FencedAfterLossState() returns (s: State)
    ensures Reachable(s) && s.Current().Some? && s.Current().value.status.Triple(False, True, False)
  {
    var f := NodeLostState();
    var a := Answered(f);
    s := Recorded(a);
  }

  // Main result.  The statuses a stored object can have are exactly these six.
  lemma ReachableStatuses(st: Status)
    ensures (exists s: State :: Reachable(s) && s.Current().Some? && s.Current().value.status.SameConditions(st)) <==>
            || st.Blank()
            || st.Triple(True, Unknown, Unknown) || st.Triple(True, True, Unknown) || st.Triple(False, True, True)
            || st.Triple(False, False, False) || st.Triple(False, True, False)
  {
    hide Inv, Reachable;
    if s: State :| Reachable(s) && s.Current().Some? && s.Current().value.status.SameConditions(st) {
      NoLostUpdate(s, s.Last());
    }
    var s0 := CreatedState(ResourceDeletion, 1);
    assert st.Blank() ==> s0.Current().value.status.SameConditions(st);
    var s1 := StartedState(ResourceDeletion, 1);
    assert st.Triple(True, Unknown, Unknown) ==> s1.Current().value.status.SameConditions(st);
    var s2 := FencedState(ResourceDeletion);
    assert st.Triple(True, True, Unknown) ==> s2.Current().value.status.SameConditions(st);
    var s3 := SucceededState();
    assert st.Triple(False, True, True) ==> s3.Current().value.status.SameConditions(st);
    var s4 := NodeLostState();
    assert st.Triple(False, False, False) ==> s4.Current().value.status.SameConditions(st);
    var s5 := FencedAfterLossState();
    assert st.Triple(False, True, False) ==> s5.Current().value.status.SameConditions(st);
  }

  // ---------------------------------------------------------------- where the code fails

  // The finalizer is stored and the start is about to be recorded.
  lemma StartingState() returns (s: State)
    ensures Reachable(s) && |s.hist| == 3 && s.pc == Finish(2, Some(Started))
    ensures s.hist[2] == Some(CR(1, false, false, true, ResourceDeletion, 1, EMPTY))
  {
    var c := CreatedState(ResourceDeletion, 1);
    Continue(c, Get(false));
    var s1 := c.(pc := GetNode(1));
    Continue(s1, Reconcile(false));
    var s2 := c.(pc := AddFinalizer(1));
    assert Step(s1, Reconcile(false)) == s2;
    Continue(s2, Reconcile(false));
    s := Step(s2, Reconcile(false));
  }

  // Main result.  The finalizer can be stored and the start lost: LostStartIsForever says
  // that such an object is never fenced.
  lemma LostStartExists() returns (s: State)
    ensures Reachable(s) && s.pc.Idle? && LostStart(s, 1) && Active(s.Current().value)
  {
    var c := StartingState();
    Continue(c, Disturb(Touch(1)));
    var s1 := Step(c, Disturb(Touch(1)));
    Continue(s1, Reconcile(false));
    s := s1.(pc := Idle);
    assert Step(s1, Reconcile(false)) == s;
  }

  // Main result.  It can then be deleted: WedgeIsForever says that it stays.
  lemma WedgeExists() returns (s: State)
    ensures Reachable(s) && Wedged(s, 1)
  {
    var c := LostStartExists();
    Continue(c, Disturb(Delete));
    s := Step(c, Disturb(Delete));
  }

  // Main result.  The fence command can answer Ok and the answer be lost: an error of the
  // list call ends the goroutine and its entry stays in the map.  DroppedIsForGood says
  // that it stays lost while the process lives.
  lemma LostResultExists() returns (s: State)
    ensures Reachable(s) && Fresh(s) && Stuck(s, true)
    ensures FenceOk(s.Current().value.uid) in s.log && Gate(s.Current().value)
    ensures s.Current().value.uid in s.exec.routines
    ensures Spent(s, s.Current().value.uid) && Unfenced(s.hist, s.Current().value.uid)
  {
    hide Inv, Reachable, Unfenced;
    var f := FencingState(ResourceDeletion, 1);
    var a := Answered(f);
    DropIsSpent(a, 0, GoAction.List(true, false));
    Continue(a, Routine(0, GoAction.List(true, false)));
    s := Step(a, Routine(0, GoAction.List(true, false)));
    ReachableInv(s);
    StuckExactly(s, true);
  }

  // The empty list is met exactly when the cache shows no object, and then only by a
  // routine that was cancelled after it last looked at its context.
  lemma EmptyListExactly(s: State, r: nat)
    requires Reachable(s) && r < |s.exec.gos| && s.exec.gos[r].pc.Lookup?
    ensures ListStep(s, r, false, true) == Restarted(s) <==> s.Seen().None?
    ensures s.Seen().None? ==> s.exec.gos[r].cancelled
  {
    ReachableInv(s);
    if !s.exec.gos[r].cancelled { LiveOwned(s, r); }
    assert Restarted(s).log == s.log + [Crashed];
  }

  // Main result.  It does happen: the process dies of an empty list.
  lemma EmptyListExists() returns (s: State)
    ensures Reachable(s) && |s.exec.gos| == 1 && s.exec.gos[0].pc.Lookup?
    ensures ListStep(s, 0, false, true) == Restarted(s)
  {
    hide Inv, Reachable;
    var f := FencingState(ResourceDeletion, 1);
    var a := Answered(f);
    Continue(a, Disturb(Delete));
    var d := CatchUp(Step(a, Disturb(Delete)));
    ReachableInv(d);
    RoundReachable(d, true);
    RoundDeletes(d, true);
    s := CatchUp(Round(d, true));
    EmptyListExactly(s, 0);
  }

  lemma UnattemptedLookup() returns (s: State)
    ensures Reachable(s) && |s.hist| == 4 && s.cache == 3 && s.node.Some? && s.pc.Idle?
    ensures s.hist[3].Some? && Active(s.hist[3].value) && s.hist[3].value.status.Triple(True, Unknown, Unknown)
    ensures s.hist[3].value.strategy == ResourceDeletion && s.hist[3].value.uid == 1
    ensures s.exec.gos == [Go(1, false, Lookup(STATUS_STEPS, Won))] && s.log == [FenceStarted(1)]
  {
    var f := FencingState(ResourceDeletion, 0);
    Continue(f, Routine(0, Check));
    var s1 := Step(f, Routine(0, Check));
    Continue(s1, Routine(0, Check));
    s := Step(s1, Routine(0, Check));
  }

  // With no attempt asked for, the goroutine records a success at once.
  lemma UnattemptedState() returns (s: State)
    ensures Reachable(s) && Fresh(s) && s.node.Some? && Active(s.Current().value)
    ensures s.Current().value.status.Triple(True, True, Unknown) && s.Current().value.strategy == ResourceDeletion
    ensures s.Current().value.uid == 1 && s.log == [FenceStarted(1)]
  {
    hide Inv, Reachable;
    var l := UnattemptedLookup();
    var r := Recorded(l);
    s := CatchUp(r);
    ReachableInv(s);
  }

  // Main result.  The hypothesis on RetryCount is needed: with no attempt asked for, the
  // object succeeds and its pods are deleted though the fence command never ran at all.
  lemma NoAttemptNoFence() returns (s: State)
    ensures Reachable(s) && s.Current().Some? && s.Current().value.status.Is(Succeeded, True)
    ensures PodsDeleted(s.Current().value.uid) in s.log
    ensures forall uid :: CommandRun(uid) !in s.log && FenceOk(uid) !in s.log
    ensures !OnlyFencedSucceed(s)
  {
    var c := UnattemptedState();
    RoundReachable(c, true);
    RoundCompletes(c, true);
    s := Round(c, true);
    assert s.log == [FenceStarted(1), PodsDeleted(1), SucceededStored(1)];
    assert PodsDeleted(1) == s.log[1];
    assert s.hist[c.Last() + 1] == s.Current();
  }
}
