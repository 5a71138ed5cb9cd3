// Left alone, the operator comes to rest: whatever the order in which the cache catches
// up, reconciles run and goroutines move.
module Convergence {
  import opened Basics
  import opened Conditions
  import opened Executions
  import opened Protocol
  import opened Invariant
  import opened Runs
  import opened Rounds
  import opened Progress

  // ---------------------------------------------------------------- a round spends

  // A step of the reconciler that changes nothing only moves on.
  lemma UnchangedStep(s: State, fault: bool)
    requires Inv(s) && !s.pc.Idle? && !Changes(s, ReconcileStep(s, fault))
    ensures ReconcileStep(s, fault) == s.(pc := ReconcileStep(s, fault).pc)
  {
    hide Inv, JobResult, Updated;
    NodeVersion(s);
  }

  lemma NodeVersion(s: State)
    requires Inv(s)
    ensures s.node.Some? ==> s.node.value.ver < s.clock
  {}

  // The reconcile in progress, if any, works with the current version.
  predicate UpToDate(s: State)
    requires s.WellFormed()
  {
    s.pc.Idle? || s.pc.ver == s.Last()
  }

  lemma CurrentStep(s: State, fault: bool)
    requires Inv(s) && !s.pc.Idle? && UpToDate(s) && (fault ==> s.pc.Build?)
    ensures Inv(ReconcileStep(s, fault)) && UpToDate(ReconcileStep(s, fault))
    ensures var t := ReconcileStep(s, fault); Potential(t) + One(Changes(s, t)) <= Potential(s)
  {
    hide Inv, Potential, Changes;
    ReconcileKeeps(s, fault);
    ReconcileSpends(s, fault);
    LagReconcile(s, fault);
  }

  lemma {:induction false} SettledSpends(s: State, buildable: bool)
    requires Inv(s) && UpToDate(s)
    ensures var t := Settled(s, buildable); Potential(t) + One(t != s.(pc := Idle)) <= Potential(s)
    decreases Rank(s.pc)
  {
    hide Inv, Potential, Changes, ReconcileStep;
    if !s.pc.Idle? {
      var fault := s.pc.Build? && !buildable;
      var t := ReconcileStep(s, fault);
      RankDrops(s, fault);
      CurrentStep(s, fault);
      if !Changes(s, t) { UnchangedStep(s, fault); }
      SettledSpends(t, buildable);
      SettledOnce(s, buildable);
    }
  }

  lemma SettledOnce(s: State, buildable: bool)
    requires Inv(s) && !s.pc.Idle?
    ensures var fault := s.pc.Build? && !buildable;
            Inv(ReconcileStep(s, fault)) && Settled(s, buildable) == Settled(ReconcileStep(s, fault), buildable)
  {
    hide Inv, ReconcileStep;
    ReconcileKeeps(s, s.pc.Build? && !buildable);
    RankDrops(s, s.pc.Build? && !buildable);
  }

  lemma RoundSpends(s: State, buildable: bool)
    requires Fresh(s) && Round(s, buildable) != s
    ensures Potential(Round(s, buildable)) < Potential(s)
  {
    hide Inv, Potential;
    GetKeeps(s, false);
    GetSpends(s);
    SettledSpends(GetStep(s, false), buildable);
  }

  lemma GetSpends(s: State)
    requires s.WellFormed() && s.pc.Idle?
    ensures GetStep(s, false).WellFormed() && Potential(GetStep(s, false)) == Potential(s)
  {
    var t := GetStep(s, false);
    assert Reading(t) == Reading(s);
  }

  // ---------------------------------------------------------------- turns

  // What the operator can do between two reconciles.
  datatype Turn = CatchUp | OneRound | Move(r: nat, act: GoAction)

  ghost predicate Between(s: State) {
    Inv(s) && s.pc.Idle?
  }

  // Turns that get somewhere; no process death.
  ghost predicate CanTake(s: State, buildable: bool, turn: Turn)
    requires Between(s)
  {
    match turn
    case CatchUp => s.cache < s.Last()
    case OneRound => Fresh(s) && Round(s, buildable) != s
    case Move(r, a) => GoEnabled(s, r, a) && Calm(s, Routine(r, a))
  }

  ghost function Taken(s: State, buildable: bool, turn: Turn): (t: State)
    requires Between(s) && CanTake(s, buildable, turn)
    ensures Between(t)
  {
    match turn
    case CatchUp => Observed(s, s.Last()); s.(cache := s.Last())
    case OneRound => Round(s, buildable)
    case Move(r, a) => GoKeeps(s, r, a); GoStaysIdle(s, r, a); GoStep(s, r, a)
  }

  lemma GoStaysIdle(s: State, r: nat, a: GoAction)
    requires s.WellFormed() && GoEnabled(s, r, a) && s.pc.Idle?
    ensures GoStep(s, r, a).pc.Idle?
  {}

  ghost function Measure(s: State): int
    requires s.WellFormed()
  {
    2 * Potential(s) + One(s.cache < s.Last())
  }

  lemma GoMoves(s: State, r: nat, a: GoAction)
    requires s.WellFormed() && GoEnabled(s, r, a) && GoStep(s, r, a) != Restarted(s)
    ensures GoStep(s, r, a).exec != s.exec
  {
    assert r < |GoStep(s, r, a).exec.gos| && GoStep(s, r, a).exec.gos[r].pc != s.exec.gos[r].pc;
  }

  lemma CalmGoLives(s: State, r: nat, a: GoAction)
    requires Inv(s) && GoEnabled(s, r, a) && Calm(s, Routine(r, a))
    ensures GoStep(s, r, a) != Restarted(s)
  {
    hide Inv;
    if a.Write? { StoreSound(s, r); }
    assert s.log != s.log + [Crashed];
  }

  lemma TurnSpends(s: State, buildable: bool, turn: Turn)
    requires Between(s) && CanTake(s, buildable, turn)
    ensures Measure(Taken(s, buildable, turn)) < Measure(s)
  {
    hide Inv, Potential, GoStep, Round;
    match turn
    case CatchUp => ObserveSpends(s, s.Last());
    case OneRound => RoundSpends(s, buildable);
    case Move(r, a) =>
      GoKeeps(s, r, a);
      CalmGoLives(s, r, a);
      GoMoves(s, r, a);
      GoSpends(s, r, a);
  }

  ghost predicate CanTakeAll(s: State, buildable: bool, turns: seq<Turn>)
    requires Between(s)
    decreases |turns|
  {
    turns == [] || (CanTake(s, buildable, turns[0]) && CanTakeAll(Taken(s, buildable, turns[0]), buildable, turns[1..]))
  }

  ghost function TakenAll(s: State, buildable: bool, turns: seq<Turn>): (t: State)
    requires Between(s) && CanTakeAll(s, buildable, turns)
    ensures Between(t)
    decreases |turns|
  {
    if turns == [] then s else TakenAll(Taken(s, buildable, turns[0]), buildable, turns[1..])
  }

  lemma {:induction false} TurnsSpend(s: State, buildable: bool, turns: seq<Turn>)
    requires Between(s) && CanTakeAll(s, buildable, turns)
    ensures |turns| + Measure(TakenAll(s, buildable, turns)) <= Measure(s)
    decreases |turns|
  {
    hide Inv, Measure, CanTake, Taken;
    if turns != [] {
      TurnSpends(s, buildable, turns[0]);
      TurnsSpend(Taken(s, buildable, turns[0]), buildable, turns[1..]);
    }
  }

  // ---------------------------------------------------------------- rest

  // The cache is current, every goroutine has ended, and a reconcile changes nothing.
  ghost predicate AtRest(s: State, buildable: bool)
    requires Between(s)
  {
    && s.cache == s.Last()
    && (forall r :: 0 <= r < |s.exec.gos| ==> s.exec.gos[r].pc.Ended?)
    && (s.Current().Some? ==> Quiet(s, buildable))
  }

  lemma MovesExactly(s: State, buildable: bool, r: nat)
    requires Between(s) && r < |s.exec.gos|
    ensures s.exec.gos[r].pc.Ended? <==> forall a: GoAction :: !CanTake(s, buildable, Move(r, a))
  {
    hide Inv;
    var pc := s.exec.gos[r].pc;
    var a := if pc.Attempt? || pc.Record? then Check
             else if pc.Running? then Run(Ok)
             else if pc.Pause? || pc.RecordPause? then Wake(false)
             else if pc.Lookup? then GoAction.List(true, false)
             else Write(false);
    if !pc.Ended? { assert CanTake(s, buildable, Move(r, a)); }
  }

  lemma RestExactly(s: State, buildable: bool)
    requires Between(s)
    ensures AtRest(s, buildable) <==> forall turn: Turn :: !CanTake(s, buildable, turn)
  {
    hide Inv, Quiet, GoEnabled, Calm;
    forall r | 0 <= r < |s.exec.gos|
      ensures s.exec.gos[r].pc.Ended? <==> forall a: GoAction :: !CanTake(s, buildable, Move(r, a))
    {
      MovesExactly(s, buildable, r);
    }
    NoSuchRoutine(s);
    if Fresh(s) { QuietExactly(s, buildable); }
    assert CanTake(s, buildable, CatchUp) <==> s.cache != s.Last();
    assert CanTake(s, buildable, OneRound) <==> Fresh(s) && Round(s, buildable) != s;
    if AtRest(s, buildable) {
      forall turn: Turn ensures !CanTake(s, buildable, turn) {
        match turn
        case CatchUp =>
        case OneRound =>
        case Move(r, a) =>
          if r < |s.exec.gos| { MovesExactly(s, buildable, r); }
      }
    }
  }

  lemma NoSuchRoutine(s: State)
    requires s.WellFormed()
    ensures forall r: nat, a: GoAction :: r >= |s.exec.gos| ==> !GoEnabled(s, r, a)
  {}

  // Main result.  Whatever turns the operator takes from the end of a reconcile on, there
  // are at most twice Potential of them and one more; and when none is left the cache is
  // current, every goroutine has ended and the object is quiet.
  lemma ComesToRest(s: State, buildable: bool, turns: seq<Turn>)
    requires Reachable(s) && Between(s) && CanTakeAll(s, buildable, turns)
    ensures |turns| <= 2 * Potential(s) + 1
    ensures var t := TakenAll(s, buildable, turns);
            AtRest(t, buildable) <==> forall turn: Turn :: !CanTake(t, buildable, turn)
  {
    hide Inv;
    TurnsSpend(s, buildable, turns);
    RestExactly(TakenAll(s, buildable, turns), buildable);
  }

  lemma RestIsNear(s: State, buildable: bool) returns (turns: seq<Turn>)
    requires Between(s)
    ensures CanTakeAll(s, buildable, turns) && AtRest(TakenAll(s, buildable, turns), buildable)
    decreases Measure(s)
  {
    hide Inv, CanTake, Taken, Potential, AtRest;
    RestExactly(s, buildable);
    if AtRest(s, buildable) {
      turns := [];
    } else {
      var turn: Turn :| CanTake(s, buildable, turn);
      TurnSpends(s, buildable, turn);
      var rest := RestIsNear(Taken(s, buildable, turn), buildable);
      turns := [turn] + rest;
      assert turns[1..] == rest;
    }
  }

  // Main result.  So from every reachable state the operator, once it has finished the
  // reconcile it is in, can come to rest and cannot fail to.
  lemma RestIsReached(s: State, buildable: bool) returns (turns: seq<Turn>)
    requires Reachable(s)
    ensures Inv(s) && CanTakeAll(Settled(s, buildable), buildable, turns)
    ensures AtRest(TakenAll(Settled(s, buildable), buildable, turns), buildable)
  {
    ReachableInv(s);
    turns := RestIsNear(Settled(s, buildable), buildable);
  }
}
