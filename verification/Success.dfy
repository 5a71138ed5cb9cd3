// What the operator is for: an object whose fence command answers Ok is fenced, evicted
// and finished, in whatever order its parts get their turns.
module Success {
  import opened Basics
  import opened Conditions
  import opened Executions
  import opened Protocol
  import opened Invariant
  import opened Runs
  import opened Rounds
  import opened Progress
  import opened Convergence

  // A turn that meets no fault; a command that ends, ends with Ok.
  predicate Fortunate(turn: Turn) {
    turn.Move? ==>
      (match turn.act
       case Check => true
       case Run(o) => o.Ok?
       case Wake(byCancel) => !byCancel
       case List(fault, _) => !fault
       case Write(fault) => !fault)
  }

  // A goroutine on its way to record that the command succeeded.
  predicate Willing(pc: GoPc, last: nat) {
    match pc
    case Attempt(n) => n >= 1
    case Running(n) => n >= 1
    case Record(k, v) => k >= 1 && v.Won?
    case Lookup(k, v) => k >= 1 && v.Won?
    case Store(k, v, ver) => k >= 1 && v.Won? && ver == last
    case _ => false
  }

  // The pods are deleted, or the out-of-service taint is on the node.
  ghost predicate Evicted(s: State, cr: CR) {
    if cr.strategy.OutOfService? then OutOfServiceTainted(s.node) else PodsDeleted(cr.uid) in s.log
  }

  ghost predicate Mine(s: State, pc: GoPc -> bool, uid: Uid)
    requires Corresponds(s.exec)
  {
    uid in s.exec.routines ==> pc(s.exec.gos[s.exec.routines[uid]].pc)
  }

  // The object waits for the command, for its eviction, or is done.
  ghost predicate OnTrack(s: State, uid: Uid) {
    && s.WellFormed() && Corresponds(s.exec) && s.Current().Some?
    && var cr := s.Current().value;
       && cr.uid == uid && Active(cr) && s.node.Some? && !cr.strategy.Unsupported? && cr.retries >= 1
       && if cr.status.Triple(True, Unknown, Unknown) then
            s.cache == s.Last() && Mine(s, pc => Willing(pc, s.Last()), uid) &&
            (uid !in s.exec.routines ==> uid !in s.launched)
          else
            Mine(s, (pc: GoPc) => pc.Ended?, uid) &&
            (cr.status.Triple(True, True, Unknown) || Finished(s))
  }

  ghost predicate Finished(s: State)
    requires s.WellFormed() && s.Current().Some?
  {
    s.Current().value.status.Triple(False, True, True) && Evicted(s, s.Current().value)
  }

  // ---------------------------------------------------------------- rounds

  lemma RoundLaunchesOnTrack(s: State, uid: Uid)
    requires Fresh(s) && OnTrack(s, uid) && uid !in s.exec.routines
    requires s.Current().value.status.Triple(True, Unknown, Unknown)
    ensures OnTrack(Round(s, true), uid) && Round(s, true) != s
  {
    hide Inv;
    RoundLaunches(s);
    LaunchedCorresponds(s.exec, uid, s.Current().value.retries);
  }

  lemma RoundWaits(s: State, uid: Uid)
    requires Fresh(s) && OnTrack(s, uid)
    requires s.Current().value.status.Triple(True, Unknown, Unknown) ==> uid in s.exec.routines
    requires !s.Current().value.status.Triple(True, True, Unknown)
    ensures OnTrack(Round(s, true), uid)
  {
    hide Inv;
    RoundOnlyTaints(s, true);
    TaintedNodeTainted(s);
  }

  lemma RoundFinishes(s: State, uid: Uid)
    requires Fresh(s) && OnTrack(s, uid) && s.Current().value.status.Triple(True, True, Unknown)
    ensures OnTrack(Round(s, true), uid) && Round(s, true) != s
  {
    hide Inv;
    var t := Round(s, true);
    RoundCompletes(s, true);
    CompletedChanges(s, t, EvictionEvents(s));
    RemovedCorresponds(s.exec, uid);
    var i := |s.log|;
    assert !s.Current().value.strategy.OutOfService? ==> t.log[i] == PodsDeleted(uid);
  }

  lemma RoundOnTrack(s: State, uid: Uid)
    requires Fresh(s) && OnTrack(s, uid)
    ensures OnTrack(Round(s, true), uid)
  {
    hide Inv, OnTrack;
    OnTrackStatus(s, uid);
    if s.Current().value.status.Triple(True, True, Unknown) {
      RoundFinishes(s, uid);
    } else if uid in s.exec.routines || !s.Current().value.status.Triple(True, Unknown, Unknown) {
      RoundWaits(s, uid);
    } else {
      RoundLaunchesOnTrack(s, uid);
    }
  }

  lemma OnTrackStatus(s: State, uid: Uid)
    requires OnTrack(s, uid)
    ensures s.WellFormed() && s.Current().Some? && s.Current().value.uid == uid
  {}

  // ---------------------------------------------------------------- goroutines

  // A live goroutine is the one of the current object.
  lemma LiveIsMine(s: State, uid: Uid, r: nat)
    requires Inv(s) && OnTrack(s, uid) && r < |s.exec.gos| && !s.exec.gos[r].cancelled
    ensures uid in s.exec.routines && s.exec.routines[uid] == r && s.exec.gos[r].uid == uid
  {
    hide Inv;
    LiveOwned(s, r);
  }

  lemma MoveOnTrack(s: State, uid: Uid, r: nat, a: GoAction)
    requires Between(s) && OnTrack(s, uid) && GoEnabled(s, r, a) && Calm(s, Routine(r, a)) && Fortunate(Move(r, a))
    ensures OnTrack(GoStep(s, r, a), uid)
  {
    hide Inv;
    CalmGoLives(s, r, a);
    GoKeeps(s, r, a);
    RoutinesCorrespond(GoStep(s, r, a));
    if s.exec.gos[r].cancelled {
      CancelledMoves(s, r, a);
    } else {
      LiveIsMine(s, uid, r);
      MineMoves(s, uid, r, a);
    }
  }

  lemma CancelledMoves(s: State, r: nat, a: GoAction)
    requires Inv(s) && GoEnabled(s, r, a) && GoStep(s, r, a) != Restarted(s) && s.exec.gos[r].cancelled
    ensures var t := GoStep(s, r, a);
            && t.hist == s.hist && t.cache == s.cache && t.node == s.node && t.launched == s.launched && s.log <= t.log
            && t.exec.routines == s.exec.routines && |t.exec.gos| == |s.exec.gos|
            && forall q :: 0 <= q < |s.exec.gos| && q != r ==> t.exec.gos[q] == s.exec.gos[q]
  {
    hide Inv;
  }

  lemma MineMoves(s: State, uid: Uid, r: nat, a: GoAction)
    requires Inv(s) && s.pc.Idle? && OnTrack(s, uid) && GoEnabled(s, r, a) && GoStep(s, r, a) != Restarted(s)
    requires Fortunate(Move(r, a)) && !s.exec.gos[r].cancelled
    requires uid in s.exec.routines && s.exec.routines[uid] == r && s.exec.gos[r].uid == uid
    requires Corresponds(GoStep(s, r, a).exec) && GoStep(s, r, a).WellFormed()
    ensures OnTrack(GoStep(s, r, a), uid)
  {
    hide Inv;
    assert Willing(s.exec.gos[r].pc, s.Last());
  }

  // ---------------------------------------------------------------- turns

  lemma TurnOnTrack(s: State, uid: Uid, turn: Turn)
    requires Between(s) && OnTrack(s, uid) && CanTake(s, true, turn) && Fortunate(turn)
    ensures OnTrack(Taken(s, true, turn), uid)
  {
    hide Inv;
    match turn
    case CatchUp =>
    case OneRound => RoundOnTrack(s, uid);
    case Move(r, a) => MoveOnTrack(s, uid, r, a);
  }

  ghost predicate AllFortunate(turns: seq<Turn>) {
    forall i :: 0 <= i < |turns| ==> Fortunate(turns[i])
  }

  lemma {:induction false} TurnsOnTrack(s: State, uid: Uid, turns: seq<Turn>)
    requires Between(s) && OnTrack(s, uid) && CanTakeAll(s, true, turns) && AllFortunate(turns)
    ensures OnTrack(TakenAll(s, true, turns), uid)
    decreases |turns|
  {
    hide Inv, OnTrack, CanTake, Taken;
    if turns != [] {
      TurnOnTrack(s, uid, turns[0]);
      TurnsOnTrack(Taken(s, true, turns[0]), uid, turns[1..]);
    }
  }

  ghost predicate CanGoOn(s: State)
    requires Between(s)
  {
    exists turn: Turn :: CanTake(s, true, turn) && Fortunate(turn)
  }

  function NextOf(pc: GoPc): GoAction {
    match pc
    case Attempt(_) => Check
    case Record(_, _) => Check
    case Running(_) => Run(Ok)
    case Lookup(_, _) => GoAction.List(false, false)
    case _ => Write(false)
  }

  // Until it is finished there is always such a turn.
  lemma GoesOn(s: State, uid: Uid)
    requires Between(s) && OnTrack(s, uid) && !Finished(s)
    ensures CanGoOn(s)
  {
    hide Inv;
    if s.cache < s.Last() {
      assert CanTake(s, true, CatchUp) && Fortunate(CatchUp);
    } else if s.Current().value.status.Triple(True, True, Unknown) {
      RoundFinishes(s, uid);
      assert CanTake(s, true, OneRound) && Fortunate(OneRound);
    } else if uid !in s.exec.routines {
      RoundLaunchesOnTrack(s, uid);
      assert CanTake(s, true, OneRound) && Fortunate(OneRound);
    } else {
      var r := s.exec.routines[uid];
      var turn := Move(r, NextOf(s.exec.gos[r].pc));
      assert CanTake(s, true, turn) && Fortunate(turn);
    }
  }

  // Main result.  Take any live object whose gate is open, whose node is there, whose
  // parameters build, which asks for an attempt and had none in this process.  Whatever
  // turns without a fault the operator takes, the command answering Ok, there are at most
  // twice Potential and one of them, and when no such turn is left the object has
  // succeeded and its workload is evicted.
  lemma Succeeds(s: State, turns: seq<Turn>)
    requires Reachable(s) && Fresh(s) && s.node.Some?
    requires Gate(s.Current().value) && !s.Current().value.strategy.Unsupported? && s.Current().value.retries >= 1
    requires s.Current().value.uid !in s.launched
    requires CanTakeAll(s, true, turns) && AllFortunate(turns)
    ensures |turns| <= 2 * Potential(s) + 1
    ensures var t := TakenAll(s, true, turns);
            && t.Current().Some? && t.Current().value.uid == s.Current().value.uid
            && (Finished(t) || CanGoOn(t))
  {
    hide Inv;
    var uid := s.Current().value.uid;
    GateOnTrack(s);
    TurnsSpend(s, true, turns);
    TurnsOnTrack(s, uid, turns);
    var t := TakenAll(s, true, turns);
    if !Finished(t) { GoesOn(t, uid); }
  }

  lemma GateOnTrack(s: State)
    requires Fresh(s) && s.node.Some?
    requires Gate(s.Current().value) && !s.Current().value.strategy.Unsupported? && s.Current().value.retries >= 1
    requires s.Current().value.uid !in s.launched
    ensures OnTrack(s, s.Current().value.uid)
  {
    VersionSound(s, s.Last());
  }
}
