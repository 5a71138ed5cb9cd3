// The fence goroutine in its own form: fenceAgentRoutine, runWithRetry and
// updateStatusWithRetry of pkg/cli/cliexecuter.go as sequential code over a cluster in
// which everyone else goes on acting between any two of its steps.
module Goroutines {
  import opened Basics
  import opened Conditions
  import opened Executions
  import opened Protocol
  import opened Invariant
  import opened Runs
  import opened Traces
  import Retries

  // A step of somebody else that leaves goroutine r running where it is.
  predicate Elsewhere(s: State, r: nat, a: Action)
    requires s.WellFormed() && r < |s.exec.gos|
  {
    && Enabled(s, a) && !(a.Routine? && a.r == r)
    && var t := Step(s, a);
       r < |t.exec.gos| && t.exec.gos[r].pc == s.exec.gos[r].pc && t.exec.gos[r].uid == s.exec.gos[r].uid
  }

  // The status write of goroutine r that the API server takes.
  predicate Lands(s: State, r: nat, a: Action) {
    && s.WellFormed() && a == Routine(r, Write(false)) && r < |s.exec.gos|
    && s.exec.gos[r].pc.Store? && !s.exec.gos[r].cancelled
    && s.Current().Some? && s.exec.gos[r].pc.ver == s.Last()
  }

  predicate Writes(a: Action, r: nat) {
    a.Routine? && a.r == r && a.act.Write?
  }

  // What a status write of goroutine r comes to.
  lemma WriteOutcome(s: State, r: nat, fault: bool)
    requires Inv(s) && r < |s.exec.gos| && s.exec.gos[r].pc.Store?
    ensures var g := s.exec.gos[r];
            var t := GoStep(s, r, Write(fault));
            var again := !g.cancelled && !fault && s.Current().Some? && g.pc.ver != s.Last() && g.pc.tries > 1;
            && !Panics(ReasonFor(g.pc.verdict), s.hist[g.pc.ver].value.status)
            && r < |t.exec.gos| && t.exec.gos[r].uid == g.uid
            && t.exec.gos[r].pc == (if again then RecordPause(g.pc.tries - 1, g.pc.verdict) else Ended)
            && (if Lands(s, r, Routine(r, Write(fault))) then
                  t.Current().Some? && t.Current().value.uid == g.uid &&
                  t.Current().value.status.Is(FenceAgentActionSucceeded, if g.pc.verdict.Won? then True else False)
                else t.hist == s.hist)
  {
    hide Inv;
    StoresItsOwn(s, r);
    VersionSound(s, s.exec.gos[r].pc.ver);
  }

  lemma LandsExactly(s: State, r: nat, fault: bool)
    requires s.WellFormed() && r < |s.exec.gos| && s.exec.gos[r].pc.Store?
    ensures Lands(s, r, Routine(r, Write(fault))) <==>
              !s.exec.gos[r].cancelled && !fault && s.Current().Some? && s.exec.gos[r].pc.ver == s.Last()
  {}

  class Goroutine {
    var s: State
    const r: nat
    const uid: Uid
    ghost const start: State
    // Everything that happened since start, and the states on the way.
    ghost var trace: seq<Action>
    ghost var states: seq<State>

    ghost predicate Running()
      reads this
    {
      && Inv(s)
      && |states| == |trace| + 1 && Chained(states, trace) && states[0] == start && states[|trace|] == s
    }

    // The goroutine has not ended with the process and is at pc.
    ghost predicate At(pc: GoPc)
      reads this
    {
      Running() && r < |s.exec.gos| && s.exec.gos[r].uid == uid && s.exec.gos[r].pc == pc
    }

    // What happened is kept.
    twostate predicate Kept()
      reads this
    {
      old(trace) <= trace && old(states) <= states && old(s.log) <= s.log
    }

    // And this goroutine wrote no status.
    twostate predicate Went()
      reads this
    {
      Kept() && forall k :: |old(trace)| <= k < |trace| ==> !Writes(trace[k], r)
    }

    // A status write of this goroutine landed since the trace was that long.
    ghost predicate Landed(from: nat)
      reads this
    {
      exists k :: from <= k < |trace| && k < |states| && Writes(trace[k], r) && Lands(states[k], r, trace[k])
    }

    // None of them changed the object since then.
    ghost predicate WroteNothing(from: nat)
      reads this
    {
      forall k :: from <= k < |trace| && k + 1 < |states| && Writes(trace[k], r) ==>
        states[k + 1].hist == states[k].hist
    }

    // It came to record that verdict since then.
    ghost predicate Recorded(from: nat, v: Verdict)
      reads this
    {
      exists k :: from <= k < |states| && r < |states[k].exec.gos| &&
                  states[k].exec.gos[r].pc == Record(STATUS_STEPS, v)
    }

    // What happened is a run of the protocol.
    lemma IsARun()
      requires Running()
      ensures Valid(start, trace) && Final(start, trace) == s
    {
      ChainedRun(states, trace);
    }

    constructor (s: State, r: nat)
      requires Inv(s) && r < |s.exec.gos|
      ensures this.s == s && this.r == r && start == s && trace == []
      ensures At(s.exec.gos[r].pc)
    {
      this.s, this.r, uid, start, trace, states := s, r, s.exec.gos[r].uid, s, [], [s];
    }

    // Everyone else acts, any number of times; the routine may be cancelled meanwhile.
    method Others(ghost pc: GoPc)
      requires At(pc)
      modifies this
      ensures At(pc) && Went()
    {
      hide Inv, Chained;
      var n: nat := *;
      while n > 0
        invariant At(pc) && Went()
        decreases n
      {
        var a: Action := *;
        if Elsewhere(s, r, a) {
          StepKeeps(s, a);
          LogGrows(s, a);
          ChainOn(states, trace, a);
          s := Step(s, a);
          trace, states := trace + [a], states + [s];
        }
        n := n - 1;
      }
    }

    method Act(a: GoAction)
      requires Running() && GoEnabled(s, r, a)
      modifies this
      ensures Running() && Kept() && s == GoStep(old(s), r, a) && trace == old(trace) + [Routine(r, a)]
    {
      hide Inv, Chained;
      GoKeeps(s, r, a);
      LogGrows(s, Routine(r, a));
      ChainOn(states, trace, Routine(r, a));
      s := GoStep(s, r, a);
      trace, states := trace + [Routine(r, a)], states + [s];
    }

    // ---------------------------------------------------------------- what it waits for

    // The look at the context at the head of a backoff loop; without steps left it ends the
    // loop instead.
    method Cancelled(ghost pc: GoPc) returns (cancelled: bool)
      requires At(pc) && (pc.Attempt? || pc.Record?)
      modifies this
      ensures Went()
      ensures At(Checked(Go(uid, cancelled, pc)))
      ensures pc.Attempt? && pc.left > 0 && !cancelled ==> CommandRun(uid) in s.log
    {
      hide Inv, Chained;
      Others(pc);
      cancelled := s.exec.gos[r].cancelled;
      ghost var at := s;
      Act(Check);
      assert pc.Attempt? && pc.left > 0 && !cancelled ==> s.log[|at.log|] == CommandRun(uid);
    }

    // The runner, for one attempt.
    method Runner(ghost left: int) returns (outcome: Outcome)
      requires At(GoPc.Running(left))
      modifies this
      ensures Went() && At(Ran(left, outcome))
      ensures outcome.Ok? ==> FenceOk(uid) in s.log
    {
      hide Inv, Chained;
      Others(GoPc.Running(left));
      outcome := *;
      if outcome.Killed? && !s.exec.gos[r].cancelled { outcome := Failed; }
      ghost var at := s;
      Act(Run(outcome));
      assert outcome.Ok? ==> s.log[|at.log|] == FenceOk(uid);
    }

    // The wait between two steps of a backoff loop.
    method Wait(ghost pc: GoPc) returns (cancelled: bool)
      requires At(pc) && (pc.Pause? || pc.RecordPause?)
      modifies this
      ensures Went() && At(Woken(pc, cancelled))
    {
      hide Inv, Chained;
      Others(pc);
      cancelled := *;
      cancelled := cancelled && s.exec.gos[r].cancelled;
      Act(Wake(cancelled));
    }

    // getFenceAgentsRemediationByUID; crashed says that the empty list was dereferenced.
    method FindByUID(ghost tries: int, ghost verdict: Verdict) returns (ver: Option<nat>, crashed: bool)
      requires At(Lookup(tries, verdict))
      modifies this
      ensures Went() && Running()
      ensures crashed ==> ver.None? && s.exec == NOTHING_RUNNING
      ensures !crashed ==> At(if ver.Some? then Store(tries, verdict, ver.value) else Ended)
      ensures ver.Some? ==> ver.value < |s.hist| && s.hist[ver.value].Some? && s.hist[ver.value].value.uid == uid
    {
      hide Inv, Chained;
      Others(Lookup(tries, verdict));
      var fault: bool, alone: bool := *, *;
      var far := s.Seen();
      ver := if !fault && far.Some? && far.value.uid == uid then Some(s.cache) else None;
      crashed := !fault && far.None? && alone;
      Act(List(fault, alone));
    }

    // UpdateConditions on the copy and the status write.
    method StoreResult(ver: nat, ghost tries: int, verdict: Verdict)
      returns (stored: bool, conflict: bool, crashed: bool)
      requires At(Store(tries, verdict, ver))
      modifies this
      ensures Kept() && Running()
      ensures stored <==> Landed(|old(trace)|)
      ensures !stored ==> WroteNothing(|old(trace)|)
      ensures crashed ==> !stored && !conflict && s.exec == NOTHING_RUNNING
      ensures !crashed ==> !(stored && conflict) &&
                           At(if conflict && tries > 1 then RecordPause(tries - 1, verdict) else Ended)
      ensures stored ==> s.Current().Some? && s.Current().value.uid == uid &&
                         s.Current().value.status.Is(FenceAgentActionSucceeded, if verdict.Won? then True else False)
    {
      hide Inv, Chained, GoStep, Lands;
      Others(Store(tries, verdict, ver));
      var fault: bool := *;
      WriteOutcome(s, r, fault);
      var live := !s.exec.gos[r].cancelled && !fault && s.Current().Some?;
      crashed := Panics(ReasonFor(verdict), s.hist[ver].value.status);
      stored := !crashed && live && ver == s.Last();
      conflict := !crashed && live && ver != s.Last();
      LandsExactly(s, r, fault);
      ghost var at, k := s, |trace|;
      Act(Write(fault));
      assert states[k] == at && states[k + 1] == s && trace[k] == Routine(r, Write(fault));
    }

    // ---------------------------------------------------------------- the routine

    // The loop of Retries.RunWithRetry over the run itself: it looks at its own context,
    // and the command answers whatever the cluster makes it answer.
    method RunWithRetry(retryCount: int) returns (retryErr: Retries.StopError, faErr: Retries.CommandError)
      requires At(Attempt(retryCount))
      modifies this
      ensures Went()
      ensures At(match Retries.Reported(Retries.Result(retryErr, faErr, 0))
                 case Silence => Ended
                 case Says(v) => Record(STATUS_STEPS, v))
      ensures retryCount >= 1 && faErr.Nil? && !retryErr.Canceled? ==> FenceOk(uid) in s.log
    {
      hide Inv, Chained, Writes;
      var steps := retryCount;
      faErr := Retries.Nil;
      while steps > 0
        invariant Went()
        invariant At(Attempt(steps)) && (steps <= 0 ==> faErr.Nil? && retryCount <= 0)
        decreases steps
      {
        var cancelled := Cancelled(Attempt(steps));
        if cancelled { return Retries.Canceled, faErr; }
        var outcome := Runner(steps);
        if outcome.Ok? { return Retries.NoStop, Retries.Nil; }
        if outcome.TimedOut? { return Retries.DeadlineExceeded, Retries.DeadlineHit; }
        if outcome.Killed? { return Retries.Canceled, Retries.ContextCanceled; }
        faErr := Retries.CommandFailed;
        if steps == 1 { return Retries.WaitTimeout, faErr; }
        steps := steps - 1;
        cancelled := Wait(Pause(steps));
        if cancelled { return Retries.Canceled, faErr; }
      }
      var ignored := Cancelled(Attempt(steps));
      retryErr := Retries.WaitTimeout;
    }

    // The body of the second backoff loop: find the object and update its status.
    method TryToStore(ghost tries: int, verdict: Verdict) returns (stored: bool, conflict: bool, crashed: bool)
      requires At(Lookup(tries, verdict))
      modifies this
      ensures Kept() && Running()
      ensures stored <==> Landed(|old(trace)|)
      ensures !stored ==> WroteNothing(|old(trace)|)
      ensures crashed ==> !stored && !conflict && s.exec == NOTHING_RUNNING
      ensures !crashed ==> !(stored && conflict) &&
                           At(if conflict && tries > 1 then RecordPause(tries - 1, verdict) else Ended)
      ensures stored ==> s.Current().Some? && s.Current().value.uid == uid &&
                         s.Current().value.status.Is(FenceAgentActionSucceeded, if verdict.Won? then True else False)
    {
      hide Inv, Chained, Lands, Writes;
      var ver;
      ver, crashed := FindByUID(tries, verdict);
      if ver.None? { return false, false, crashed; }
      stored, conflict, crashed := StoreResult(ver.value, tries, verdict);
    }

    method UpdateStatusWithRetry(verdict: Verdict) returns (stored: bool, crashed: bool)
      requires At(Record(STATUS_STEPS, verdict))
      modifies this
      ensures Kept() && Running()
      ensures stored <==> Landed(|old(trace)|)
      ensures !stored ==> WroteNothing(|old(trace)|)
      ensures if crashed then !stored && s.exec == NOTHING_RUNNING else At(Ended)
      ensures stored ==> s.Current().Some? && s.Current().value.uid == uid &&
                         s.Current().value.status.Is(FenceAgentActionSucceeded, if verdict.Won? then True else False)
    {
      hide Inv, Chained, Lands, Writes;
      var steps := STATUS_STEPS;
      while steps > 0
        invariant Kept() && !Landed(|old(trace)|) && WroteNothing(|old(trace)|) && steps > 0
        invariant At(Record(steps, verdict))
        decreases steps
      {
        var cancelled := Cancelled(Record(steps, verdict));
        if cancelled { return false, false; }
        var conflict;
        stored, conflict, crashed := TryToStore(steps, verdict);
        if !conflict || steps == 1 { return; }
        steps := steps - 1;
        cancelled := Wait(RecordPause(steps, verdict));
        if cancelled { return false, false; }
      }
    }

    // Main result.  From its start to its end the goroutine is a run of the protocol,
    // whatever everyone else does.  What it stores, it stores on its own object, and it is
    // the verdict on the command: with an attempt asked for, a success only if the command
    // answered Ok.
    method FenceAgentRoutine(retryCount: int) returns (stored: bool, crashed: bool, ghost verdict: Option<Verdict>)
      requires At(Attempt(retryCount))
      modifies this
      ensures Kept() && Running()
      ensures stored <==> Landed(|old(trace)|)
      ensures !stored ==> WroteNothing(|old(trace)|)
      ensures verdict.Some? ==> Recorded(|old(trace)|, verdict.value)
      ensures if crashed then !stored && s.exec == NOTHING_RUNNING else At(Ended)
      ensures verdict.None? ==> !stored && !crashed
      ensures stored ==> s.Current().Some? && s.Current().value.uid == uid
      ensures stored ==>
                s.Current().value.status.Is(FenceAgentActionSucceeded, if verdict.value.Won? then True else False)
      ensures retryCount >= 1 && verdict == Some(Won) ==> FenceOk(uid) in s.log
    {
      hide Inv, Chained;
      verdict := None;
      var retryErr, cmdErr := RunWithRetry(retryCount);
      if retryErr.Canceled? { return false, false, None; }
      var v := match cmdErr
        case Nil => Won
        case DeadlineHit | ContextCanceled => Overran
        case CommandFailed | EmptyCommand => Lost;
      verdict := Some(v);
      assert states[|trace|] == s;
      stored, crashed := UpdateStatusWithRetry(v);
    }
  }
}
