// pkg/cli/cliexecuter.go: running the fence command with retries, and what is reported.
module Retries {
  import opened Basics
  import opened Conditions
  import opened Executions
  import opened Protocol

  // Everything the retry loop meets, by attempt: whether its context is cancelled when
  // the loop looks, what the runner answers, and which of two ready channels a wait takes.
  datatype Weather = Weather(
    cancelledAtHead: nat -> bool,
    answer: nat -> Executions.Outcome,
    cancelledInWait: nat -> bool,
    timerWins: nat -> bool)

  // Cancellation is permanent, and only cancellation kills a command.
  ghost predicate Consistent(w: Weather) {
    && (forall i: nat, j: nat :: i <= j && w.cancelledAtHead(i) ==> w.cancelledInWait(j))
    && (forall i: nat, j: nat :: i < j && w.cancelledInWait(i) ==> w.cancelledAtHead(j))
    && (forall i: nat :: w.answer(i).Killed? ==> w.cancelledInWait(i))
  }

  // The error of the backoff loop and the error the closure left in faErr.
  datatype StopError = NoStop | Canceled | DeadlineExceeded | WaitTimeout
  datatype CommandError = Nil | DeadlineHit | ContextCanceled | CommandFailed | EmptyCommand

  datatype Result = Result(stop: StopError, command: CommandError, calls: nat)

  // What fenceAgentRoutine then does: nothing, or record a verdict.
  datatype Report = Silence | Says(verdict: Verdict)

  function Reported(r: Result): Report {
    if r.stop.Canceled? then Silence
    else match r.command
      case Nil => Says(Won)
      case DeadlineHit | ContextCanceled => Says(Overran)
      case CommandFailed | EmptyCommand => Says(Lost)
  }

  // The loop from its head, with left steps to go, at attempt i, faErr being last.
  function Attempts(left: int, i: nat, last: CommandError, w: Weather): Result
    decreases left
  {
    if left <= 0 then Result(WaitTimeout, last, i)
    else if w.cancelledAtHead(i) then Result(Canceled, last, i)
    else match w.answer(i)
      case Ok => Result(NoStop, Nil, i + 1)
      case TimedOut => Result(DeadlineExceeded, DeadlineHit, i + 1)
      case Killed => Result(Canceled, ContextCanceled, i + 1)
      case Failed =>
        if left == 1 then Result(WaitTimeout, CommandFailed, i + 1)
        else if w.cancelledInWait(i) && !w.timerWins(i) then Result(Canceled, CommandFailed, i + 1)
        else Attempts(left - 1, i + 1, CommandFailed, w)
  }

  // runWithRetry: wait.ExponentialBackoffWithContext around the runner.
  method RunWithRetry(command: seq<string>, retryCount: int, w: Weather) returns (r: Result)
    ensures command != [] ==> r == Attempts(retryCount, 0, Nil, w)
    ensures command == [] ==> r == Result(NoStop, EmptyCommand, 0)
    ensures r.calls <= if retryCount < 0 then 0 else retryCount
    ensures forall k :: 0 <= k < r.calls - 1 ==> w.answer(k).Failed?
  {
    if command == [] { return Result(NoStop, EmptyCommand, 0); }
    var steps := retryCount;
    var faErr := Nil;
    var calls: nat := 0;
    while steps > 0
      invariant steps + calls == retryCount && (calls > 0 ==> steps > 0)
      invariant Attempts(steps, calls, faErr, w) == Attempts(retryCount, 0, Nil, w)
      invariant forall k :: 0 <= k < calls ==> w.answer(k).Failed?
    {
      if w.cancelledAtHead(calls) { return Result(Canceled, faErr, calls); }
      var outcome := w.answer(calls);
      calls := calls + 1;
      if outcome.Ok? {
        return Result(NoStop, Nil, calls);
      } else if outcome.TimedOut? {
        return Result(DeadlineExceeded, DeadlineHit, calls);
      } else if outcome.Killed? {
        return Result(Canceled, ContextCanceled, calls);
      }
      faErr := CommandFailed;
      if steps == 1 { return Result(WaitTimeout, faErr, calls); }
      steps := steps - 1;
      if w.cancelledInWait(calls - 1) && !w.timerWins(calls - 1) { return Result(Canceled, faErr, calls); }
    }
    r := Result(WaitTimeout, faErr, calls);
  }

  // ---------------------------------------------------------------- what is reported

  // The first attempt from i on that does not fail ordinarily decides, if there is one
  // within the steps; cancellation silences the loop.
  ghost predicate Decides(left: int, i: nat, w: Weather, r: Result) {
    && left >= 1 && i <= r.calls <= i + left
    && (forall k: nat :: i <= k < r.calls - 1 ==> w.answer(k).Failed?)
    && (Reported(r) == Says(Won) <==> r.calls > i && w.answer(r.calls - 1).Ok?)
    && (Reported(r) == Says(Overran) <==> r.calls > i && w.answer(r.calls - 1).TimedOut?)
    && (Reported(r) == Says(Lost) <==> r.calls == i + left && !r.stop.Canceled? && w.answer(r.calls - 1).Failed?)
    && (Reported(r) == Silence ==> w.cancelledInWait(r.calls))
  }

  lemma {:induction false} AttemptsDecide(left: int, i: nat, last: CommandError, w: Weather)
    requires left >= 1 && Consistent(w)
    ensures Decides(left, i, w, Attempts(left, i, last, w))
    decreases left
  {
    if !w.cancelledAtHead(i) && w.answer(i).Failed? && left > 1 &&
       !(w.cancelledInWait(i) && !w.timerWins(i)) {
      AttemptsDecide(left - 1, i + 1, CommandFailed, w);
    }
    if w.cancelledInWait(i) { assert w.cancelledAtHead(i + 1); }
  }

  // Main result.  With at least one attempt asked for, the runner is called at most
  // retryCount times and stops at the first answer that is not an ordinary failure;
  // success is reported exactly when that answer was Ok, a timeout exactly when it was an
  // interruption, failure exactly when every attempt failed; only cancellation is silent.
  lemma RetryReports(retryCount: int, w: Weather)
    requires retryCount >= 1 && Consistent(w)
    ensures var r := Attempts(retryCount, 0, Nil, w);
            && Decides(retryCount, 0, w, r)
            && ((forall i: nat :: !w.cancelledInWait(i)) ==> Reported(r) != Silence)
  {
    AttemptsDecide(retryCount, 0, Nil, w);
  }

  // wait.Interrupted, on the error of a command.
  predicate CutShort(e: CommandError) { e.DeadlineHit? || e.ContextCanceled? }

  // Main result.  What is written for the error the command left: success without one, a
  // timeout for one that cut it short, a failure for any other; and over the attempts, a
  // timeout exactly when the last of them was interrupted, a failure exactly when they all
  // failed by themselves.
  lemma ReasonsExactly(retryCount: int, w: Weather)
    requires retryCount >= 1 && Consistent(w) && Reported(Attempts(retryCount, 0, Nil, w)).Says?
    ensures var r := Attempts(retryCount, 0, Nil, w);
            var reason := ReasonFor(Reported(r).verdict);
            && reason == (if r.command.Nil? then FenceAgentSucceeded
                          else if CutShort(r.command) then FenceAgentTimedOut else FenceAgentFailed)
            && (reason == FenceAgentSucceeded <==> r.calls > 0 && w.answer(r.calls - 1).Ok?)
            && (reason == FenceAgentTimedOut <==> r.calls > 0 && w.answer(r.calls - 1).TimedOut?)
            && (reason == FenceAgentFailed <==> r.calls == retryCount && w.answer(r.calls - 1).Failed?)
  {
    RetryReports(retryCount, w);
  }

  // The property a caller wants of a retry count: success means the command said Ok.
  ghost predicate HonestCount(retryCount: int) {
    forall w: Weather :: Consistent(w) && Reported(Attempts(retryCount, 0, Nil, w)) == Says(Won) ==>
      exists k: nat :: w.answer(k).Ok? && k < Attempts(retryCount, 0, Nil, w).calls
  }

  // Main result.  It holds exactly for the positive counts: with none or fewer the loop
  // never runs, faErr stays nil and a success is reported.
  lemma HonestExactly(retryCount: int)
    ensures HonestCount(retryCount) <==> retryCount >= 1
  {
    if retryCount >= 1 {
      forall w: Weather | Consistent(w) && Reported(Attempts(retryCount, 0, Nil, w)) == Says(Won)
        ensures exists k: nat :: w.answer(k).Ok? && k < Attempts(retryCount, 0, Nil, w).calls
      {
        RetryReports(retryCount, w);
        var k: nat := Attempts(retryCount, 0, Nil, w).calls - 1;
        assert w.answer(k).Ok?;
      }
    } else {
      var w := Weather(i => false, i => Failed, i => false, i => true);
      assert Consistent(w) && Attempts(retryCount, 0, Nil, w) == Result(WaitTimeout, Nil, 0);
    }
  }

  // ---------------------------------------------------------------- the protocol's goroutine

  // The command phase of a goroutine of the protocol, run to its end in the same weather.
  function Walked(pc: GoPc, i: nat, w: Weather): GoPc
    decreases match pc case Attempt(n) => 3 * n case Running(n) => 3 * n - 1 case Pause(n) => 3 * n + 1 case _ => 0
  {
    match pc
    case Attempt(n) =>
      if n <= 0 then Checked(Go(0, w.cancelledAtHead(i), pc))
      else Walked(Checked(Go(0, w.cancelledAtHead(i), pc)), i, w)
    case Running(n) => if n < 1 then Ended else Walked(Ran(n, w.answer(i)), i, w)
    case Pause(n) =>
      if n < 1 then Ended else Walked(Woken(pc, w.cancelledInWait(i) && !w.timerWins(i)), i + 1, w)
    case _ => pc
  }

  lemma WalksThroughAnAttempt(left: int, i: nat, w: Weather)
    requires left >= 1
    ensures Walked(Attempt(left), i, w) ==
            if w.cancelledAtHead(i) then Ended else Walked(Ran(left, w.answer(i)), i, w)
  {
    assert Walked(Running(left), i, w) == Walked(Ran(left, w.answer(i)), i, w);
  }

  // Main result.  Step by step the goroutine reaches what the retry loop reports.
  lemma {:induction false} GoroutineRefinesRetry(left: int, i: nat, last: CommandError, w: Weather)
    requires left >= 1 || last.Nil?
    ensures Walked(Attempt(left), i, w) ==
            match Reported(Attempts(left, i, last, w))
            case Silence => Ended
            case Says(v) => Record(STATUS_STEPS, v)
    decreases left
  {
    if left >= 1 { WalksThroughAnAttempt(left, i, w); }
    if left >= 2 && !w.cancelledAtHead(i) && w.answer(i).Failed? {
      GoroutineRefinesRetry(left - 1, i + 1, CommandFailed, w);
    }
  }
}
