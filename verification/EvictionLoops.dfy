// When pods are deleted, and when they are deleted again and again.
module EvictionLoops {
  import opened Basics
  import opened Conditions
  import opened Executions
  import opened Protocol
  import opened History
  import opened Invariant
  import opened Runs
  import opened Rounds
  import opened Progress
  import opened Witnesses

  // ---------------------------------------------------------------- when a reconcile evicts

  predicate Deletes(cr: CR) { cr.strategy.ResourceDeletion? || cr.strategy.Default? }

  predicate Due(cr: CR) { Active(cr) && Fenced(cr) && Deletes(cr) }

  // The cache shows a live, fenced object that is not finished, and its node is there.
  predicate Evictable(s: State)
    requires s.WellFormed()
  {
    s.Seen().Some? && Due(s.Seen().value) && s.node.Some?
  }

  // The reconcile in progress deletes pods if it is left alone.
  predicate WillEvict(s: State)
    requires s.WellFormed()
  {
    !s.pc.Idle? &&
    var cr := s.hist[s.pc.ver].value;
    match s.pc
    case GetNode(_) => Due(cr) && s.node.Some?
    case ReadNode(_, job) => job.TaintNode? && Fenced(cr) && Deletes(cr)
    case WriteNode(_, job, copy) =>
      job.TaintNode? && Fenced(cr) && Deletes(cr) && s.node.Some? && s.node.value.ver == copy.ver
    case EvictPods(_) => true
    case _ => false
  }

  lemma WillEvictStep(s: State, fault: bool)
    requires Inv(s) && !s.pc.Idle? && (fault ==> s.pc.Build?)
    ensures var t := ReconcileStep(s, fault);
            && t.WellFormed()
            && One(WillEvict(s)) == One(Evicts(s, t)) + One(WillEvict(t))
            && t.cache == s.cache && s.hist <= t.hist && s.log <= t.log
            && (t.node.Some? <==> s.node.Some?)
  {
    hide Inv, JobResult, Updated, Removed, Launched;
    ReconcileKeeps(s, fault);
  }

  ghost predicate EvictsIn(a: seq<Event>, b: seq<Event>) {
    exists i :: |a| <= i < |b| && b[i].PodsDeleted?
  }

  lemma {:induction false} SettledEvicts(s: State, buildable: bool)
    requires Inv(s)
    ensures var t := Settled(s, buildable);
            s.log <= t.log && (EvictsIn(s.log, t.log) <==> WillEvict(s))
    decreases Rank(s.pc)
  {
    hide Inv, ReconcileStep, WillEvict;
    if s.pc.Idle? {
      NothingWillEvict(s);
    } else {
      var fault := s.pc.Build? && !buildable;
      var t := ReconcileStep(s, fault);
      RankDrops(s, fault);
      ReconcileKeeps(s, fault);
      WillEvictStep(s, fault);
      OneLogged(s, fault);
      SettledEvicts(t, buildable);
      EvictsApart(s, t, Settled(t, buildable));
    }
  }

  lemma NothingWillEvict(s: State)
    requires s.WellFormed() && s.pc.Idle?
    ensures !WillEvict(s)
  {}

  lemma OneLogged(s: State, fault: bool)
    requires s.WellFormed() && !s.pc.Idle?
    ensures |ReconcileStep(s, fault).log| <= |s.log| + 1
  {}

  lemma EvictsApart(s: State, t: State, u: State)
    requires s.log <= t.log <= u.log && |t.log| <= |s.log| + 1
    ensures EvictsIn(s.log, u.log) <==> Evicts(s, t) || EvictsIn(t.log, u.log)
  {
    if Evicts(s, t) { assert u.log[|s.log|] == t.log[|s.log|]; }
  }

  // Main result.  An undisturbed reconcile, whatever its cache shows and however old that
  // is, deletes pods exactly when the cache shows a live, fenced, unfinished object with
  // one of the two deleting strategies and its node is there.
  lemma EvictsExactly(s: State, buildable: bool)
    requires Inv(s) && s.pc.Idle?
    ensures s.log <= Round(s, buildable).log
    ensures EvictsIn(s.log, Round(s, buildable).log) <==> Evictable(s)
  {
    hide Inv;
    GetKeeps(s, false);
    SettledEvicts(GetStep(s, false), buildable);
  }

  // ---------------------------------------------------------------- runs of the reconciler alone

  predicate Faultless(a: Action) {
    (a.Get? || a.Reconcile?) && !a.fault
  }

  // A run of the reconciler alone, without faults, that deletes pods n times and ends in end.
  ghost predicate Onward(s: State, acts: seq<Action>, n: nat, end: State) {
    && Valid(s, acts) && AllCalm(s, acts) && Evictions(s, acts) == n && Final(s, acts) == end
    && (forall i :: 0 <= i < |acts| ==> Faultless(acts[i]))
  }

  ghost predicate CanEvict(s: State, n: nat) {
    exists acts: seq<Action>, end: State :: Onward(s, acts, n, end)
  }

  // It can be back where it was, but for the log.
  ghost predicate CanLap(s: State, n: nat) {
    exists acts: seq<Action>, end: State :: Onward(s, acts, n, end) && end.(log := s.log) == s
  }

  lemma Prepended(s: State, a: Action, acts: seq<Action>, n: nat, end: State)
    requires s.WellFormed() && Enabled(s, a) && Calm(s, a) && Faultless(a) && Onward(Step(s, a), acts, n, end)
    ensures Onward(s, [a] + acts, n + One(Evicts(s, Step(s, a))), end)
  {
    hide Step, Enabled, Calm;
    var all := [a] + acts;
    assert all[1..] == acts;
    assert Valid(s, all);
  }

  // The rest of a reconcile left alone, before a run that follows it.
  lemma {:induction false} AfterSettling(s: State, acts: seq<Action>, n: nat, end: State) returns (all: seq<Action>)
    requires Inv(s) && Onward(Settled(s, true), acts, n, end)
    ensures Onward(s, all, n + One(WillEvict(s)), end)
    decreases Rank(s.pc)
  {
    hide Inv, Onward, ReconcileStep, WillEvict;
    if s.pc.Idle? {
      NothingWillEvict(s);
      all := acts;
    } else {
      RankDrops(s, false);
      ReconcileKeeps(s, false);
      WillEvictStep(s, false);
      var rest := AfterSettling(ReconcileStep(s, false), acts, n, end);
      Prepended(s, Reconcile(false), rest, n + One(WillEvict(ReconcileStep(s, false))), end);
      all := [Reconcile(false)] + rest;
    }
  }

  lemma {:induction false} SettledSees(s: State, buildable: bool)
    requires Inv(s)
    ensures var t := Settled(s, buildable);
            t.cache == s.cache && s.hist <= t.hist && (t.node.Some? <==> s.node.Some?)
    decreases Rank(s.pc)
  {
    hide Inv, ReconcileStep, WillEvict;
    if !s.pc.Idle? {
      var fault := s.pc.Build? && !buildable;
      RankDrops(s, fault);
      ReconcileKeeps(s, fault);
      WillEvictStep(s, fault);
      SettledSees(ReconcileStep(s, fault), buildable);
    }
  }

  lemma {:induction false} EvictsManyTimes(s: State, n: nat)
    requires Inv(s) && s.pc.Idle? && Evictable(s)
    ensures CanEvict(s, n)
    decreases n
  {
    hide Inv, Onward;
    if n == 0 {
      NoRun(s);
    } else {
      var g := GetStep(s, false);
      GetKeeps(s, false);
      SettledSees(g, true);
      EvictsManyTimes(Settled(g, true), n - 1);
      var acts: seq<Action>, end: State :| Onward(Settled(g, true), acts, n - 1, end);
      var rest := AfterSettling(g, acts, n - 1, end);
      assert Step(s, Get(false)) == g;
      Prepended(s, Get(false), rest, n, end);
    }
  }

  lemma NoRun(s: State)
    ensures Onward(s, [], 0, s)
  {}

  // Nothing is due and nothing is under way.
  predicate Calmed(s: State)
    requires s.WellFormed()
  {
    !Evictable(s) && !WillEvict(s)
  }

  lemma CalmedStep(s: State, a: Action)
    requires Inv(s) && Calmed(s) && Enabled(s, a) && Faultless(a)
    ensures Step(s, a).WellFormed() && Calmed(Step(s, a)) && !Evicts(s, Step(s, a))
  {
    hide Inv;
    if a.Reconcile? { WillEvictStep(s, false); }
  }

  lemma {:induction false} CalmedRun(s: State, acts: seq<Action>, n: nat, end: State)
    requires Inv(s) && Calmed(s) && Onward(s, acts, n, end)
    ensures n == 0
    decreases |acts|
  {
    hide Inv, Step, Calmed, Enabled;
    if acts != [] {
      StepKeeps(s, acts[0]);
      CalmedStep(s, acts[0]);
      CalmedRun(Step(s, acts[0]), acts[1..], n, end);
    }
  }

  // Main result.  Between two reconciles, with the cache as it is and no fault at all,
  // nothing bounds how often pods are deleted exactly when the cache shows an object that
  // is due; otherwise they are not deleted once.
  lemma EvictsForeverExactly(s: State)
    requires Reachable(s) && s.pc.Idle?
    ensures (forall n: nat :: CanEvict(s, n)) <==> Evictable(s)
    ensures !Evictable(s) ==> forall n: nat :: CanEvict(s, n) ==> n == 0
  {
    hide Inv, Onward;
    ReachableInv(s);
    if Evictable(s) {
      forall n: nat ensures CanEvict(s, n) { EvictsManyTimes(s, n); }
    } else {
      forall n: nat | CanEvict(s, n) ensures n == 0 {
        var acts: seq<Action>, end: State :| Onward(s, acts, n, end);
        CalmedRun(s, acts, n, end);
      }
      assert CanEvict(s, 1) ==> 1 == 0;
    }
  }

  // ---------------------------------------------------------------- loops that change nothing

  // The cache shows an object that is due and is behind the current version.
  ghost predicate Behind(s: State) {
    s.WellFormed() && s.pc.Idle? && s.cache < s.Last() && Evictable(s) && Tainted(s.node)
  }

  ghost predicate Lagging(s: State) {
    Behind(s) && s.Seen().value.uid !in s.exec.routines
  }

  // The state after one reconcile of the old version: it evicts, stops the routine, and its
  // closing write meets a conflict.
  function Lapped(s: State): State
    requires s.WellFormed() && s.Seen().Some?
  {
    var uid := s.Seen().value.uid;
    Noted(s.(exec := Removed(s.exec, uid)), PodsDeleted(uid))
  }

  lemma OneLap(s: State, acts: seq<Action>, n: nat, end: State) returns (all: seq<Action>)
    requires Behind(s) && Onward(Lapped(s), acts, n, end)
    ensures Onward(s, all, n + 1, end)
  {
    hide Onward, AllCalm, Evictions;
    var c, uid := s.cache, s.Seen().value.uid;
    var e := Noted(s, PodsDeleted(uid));
    var u := Lapped(s);
    var s1 := s.(pc := GetNode(c));
    var s2 := s.(pc := ReadNode(c, TaintNode));
    var s3 := s.(pc := EvictPods(c));
    var s4 := e.(pc := Cancel(c, ForCompletion));
    var s5 := u.(pc := Finish(c, Some(FinishedSuccessfully)));
    assert Step(s5, Reconcile(false)) == u;
    assert Step(s4, Reconcile(false)) == s5;
    assert Step(s3, Reconcile(false)) == s4;
    assert Step(s2, Reconcile(false)) == s3;
    assert Step(s1, Reconcile(false)) == s2;
    assert Step(s, Get(false)) == s1;
    all := acts;
    Prepended(s5, Reconcile(false), all, n, end);
    all := [Reconcile(false)] + all;
    Prepended(s4, Reconcile(false), all, n, end);
    all := [Reconcile(false)] + all;
    Prepended(s3, Reconcile(false), all, n, end);
    all := [Reconcile(false)] + all;
    Prepended(s2, Reconcile(false), all, n + 1, end);
    all := [Reconcile(false)] + all;
    Prepended(s1, Reconcile(false), all, n + 1, end);
    all := [Reconcile(false)] + all;
    Prepended(s, Get(false), all, n + 1, end);
    all := [Get(false)] + all;
  }

  lemma {:induction false} LapsExist(s: State, n: nat) returns (acts: seq<Action>, end: State)
    requires Lagging(s)
    ensures Onward(s, acts, n, end) && end.(log := s.log) == s
    decreases n
  {
    if n == 0 {
      acts, end := [], s;
    } else {
      acts, end := LapsExist(Lapped(s), n - 1);
      acts := OneLap(s, acts, n - 1, end);
    }
  }

  lemma LapsForever(s: State)
    requires Lagging(s)
    ensures forall n: nat :: CanLap(s, n)
  {
    forall n: nat ensures CanLap(s, n) {
      var acts, end := LapsExist(s, n);
    }
  }

  // Main result.  With the success stored and the cache one version behind, reconciles
  // without any fault delete the pods any number of times and leave everything else as it
  // is.  The closing write of each meets a conflict, and the wait that follows a status
  // write is skipped after an error.
  lemma EvictionsUnbounded(strategy: Strategy) returns (s: State)
    requires strategy.ResourceDeletion? || strategy.Default?
    ensures Reachable(s) && s.Current().Some? && s.Current().value.status.Triple(False, True, True)
    ensures forall n: nat :: CanLap(s, n)
  {
    hide Inv, Reachable;
    var f := FencedState(strategy);
    RoundReachable(f, true);
    RoundCompletes(f, true);
    s := Round(f, true);
    RoutinesCorrespond(f);
    RemovedCorresponds(f.exec, f.Current().value.uid);
    assert s.hist[f.Last()] == f.Current();
    LapsForever(s);
  }

  // Main result.  So they do when no success was ever stored and somebody else edited the
  // object since the version the cache shows: the edit is all it takes.
  lemma UnseenEditEvictsForever(strategy: Strategy) returns (s: State)
    requires strategy.ResourceDeletion? || strategy.Default?
    ensures Reachable(s) && s.Current().Some? && s.Current().value.status.Triple(True, True, Unknown)
    ensures NoneSucceeded(s.hist)
    ensures forall n: nat :: CanLap(s, n)
  {
    hide Inv, Reachable;
    var f := FencedState(strategy);
    Continue(f, Disturb(Touch(1)));
    var g := Step(f, Disturb(Touch(1)));
    assert g.hist[g.cache] == f.Current();
    NoRun(Lapped(g));
    var acts := OneLap(g, [], 0, Lapped(g));
    ContinueRun(g, acts);
    s := Lapped(g);
    ReachableInv(f);
    RoutinesCorrespond(f);
    RemovedCorresponds(f.exec, f.Current().value.uid);
    LapsForever(s);
  }
}
