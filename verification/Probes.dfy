// runFenceStatus of internal/controller/fenceagentsremediationtemplate_controller.go:
// one status command, and what is concluded from it.
module Probes {
  import opened Basics
  import opened Params
  import Executions
  import opened Retries
  import Argv

  // ---------------------------------------------------------------- reading the output

  function Upper(s: string): string {
    seq(|s|, i requires 0 <= i < |s| => if 'a' <= s[i] <= 'z' then (s[i] as int - 32) as char else s[i])
  }

  predicate Contains(s: string, t: string) {
    t <= s || (s != "" && Contains(s[1..], t))
  }

  predicate IsSpace(c: char) {
    c == ' ' || '\t' <= c <= '\r' || c == '\U{0085}' || c == '\U{00A0}'
  }

  function TrimLeft(s: string): string {
    if s != "" && IsSpace(s[0]) then TrimLeft(s[1..]) else s
  }

  function TrimRight(s: string): string {
    if s != "" && IsSpace(s[|s| - 1]) then TrimRight(s[..|s| - 1]) else s
  }

  predicate SaysOn(stdout: string) {
    var upper := Upper(stdout);
    Contains(upper, "STATUS: ON") || Contains(upper, "STATUS:ON") || "ON" <= TrimRight(TrimLeft(upper))
  }

  // s begins with t, whatever the case of its letters; t is in upper case.
  predicate Begins(s: string, t: string) {
    |t| <= |s| && forall j :: 0 <= j < |t| ==> s[j] == t[j] || ('A' <= t[j] <= 'Z' && s[j] as int == t[j] as int + 32)
  }

  predicate OnlySpaces(s: string) {
    forall j :: 0 <= j < |s| ==> s[j] in " \t\n\U{000B}\U{000C}\r\U{0085}\U{00A0}"
  }

  lemma UpperBegins(s: string, t: string)
    requires forall j :: 0 <= j < |t| ==> !('a' <= t[j] <= 'z')
    ensures t <= Upper(s) <==> Begins(s, t)
  {
    if t <= Upper(s) { assert forall j :: 0 <= j < |t| ==> Upper(s)[j] == t[j]; }
    if Begins(s, t) { assert forall j :: 0 <= j < |t| ==> Upper(s)[j] == t[j]; }
  }

  ghost predicate Somewhere(s: string, t: string) {
    exists i :: 0 <= i <= |s| && Begins(s[i..], t)
  }

  lemma {:induction false} ContainsExactly(s: string, t: string)
    requires forall j :: 0 <= j < |t| ==> !('a' <= t[j] <= 'z')
    ensures Contains(Upper(s), t) <==> Somewhere(s, t)
    decreases |s|
  {
    UpperBegins(s, t);
    assert s[0..] == s;
    if s != "" {
      assert Upper(s)[1..] == Upper(s[1..]);
      ContainsExactly(s[1..], t);
      if i :| 0 < i <= |s| && Begins(s[i..], t) { assert s[1..][i - 1..] == s[i..]; }
      if i :| 0 <= i <= |s[1..]| && Begins(s[1..][i..], t) { assert s[1..][i..] == s[i + 1..]; }
    }
  }

  lemma {:induction false} TrimmedRight(s: string)
    ensures "ON" <= TrimRight(s) <==> "ON" <= s
    decreases |s|
  {
    if s != "" && IsSpace(s[|s| - 1]) {
      TrimmedRight(s[..|s| - 1]);
      if "ON" <= s { assert s[0] == 'O' && s[1] == 'N'; }
    }
  }

  ghost predicate StartsOn(s: string) {
    exists i :: 0 <= i <= |s| && OnlySpaces(s[..i]) && Begins(s[i..], "ON")
  }

  lemma StartsLater(s: string, i: nat)
    requires 0 < i <= |s| && OnlySpaces(s[..i]) && Begins(s[i..], "ON")
    ensures IsSpace(s[0]) && StartsOn(s[1..])
  {
    var rest := s[1..];
    assert s[..i][0] == s[0];
    assert rest[..i - 1] == s[..i][1..] && rest[i - 1..] == s[i..];
    assert OnlySpaces(rest[..i - 1]);
  }

  lemma StartsBehindSpace(s: string, i: nat)
    requires s != "" && IsSpace(s[0]) && i <= |s| - 1 && OnlySpaces(s[1..][..i]) && Begins(s[1..][i..], "ON")
    ensures StartsOn(s)
  {
    assert s[..i + 1] == [s[0]] + s[1..][..i] && s[1..][i..] == s[i + 1..];
    assert OnlySpaces(s[..i + 1]);
  }

  lemma StartsExactly(s: string)
    ensures StartsOn(s) <==> Begins(s, "ON") || (s != "" && IsSpace(s[0]) && StartsOn(s[1..]))
  {
    assert s[0..] == s && s[..0] == "";
    if i :| 0 < i <= |s| && OnlySpaces(s[..i]) && Begins(s[i..], "ON") { StartsLater(s, i); }
    if s != "" && IsSpace(s[0]) && StartsOn(s[1..]) {
      var i :| 0 <= i <= |s[1..]| && OnlySpaces(s[1..][..i]) && Begins(s[1..][i..], "ON");
      StartsBehindSpace(s, i);
    }
  }

  lemma {:induction false} TrimmedLeft(s: string)
    ensures "ON" <= TrimLeft(Upper(s)) <==> StartsOn(s)
    decreases |s|
  {
    hide StartsOn;
    StartsExactly(s);
    UpperBegins(s, "ON");
    if s != "" {
      assert Upper(s)[1..] == Upper(s[1..]);
      TrimmedLeft(s[1..]);
    }
  }

  // Main result.  The output says that the node is on when "status: on" or "status:on" is
  // anywhere in it, or "on" is the first thing in it, in any case.
  lemma SaysOnExactly(stdout: string)
    ensures SaysOn(stdout) <==>
              Somewhere(stdout, "STATUS: ON") || Somewhere(stdout, "STATUS:ON") || StartsOn(stdout)
  {
    ContainsExactly(stdout, "STATUS: ON");
    ContainsExactly(stdout, "STATUS:ON");
    TrimmedLeft(stdout);
    TrimmedRight(TrimLeft(Upper(stdout)));
  }

  // ---------------------------------------------------------------- the verdict

  // The message of a failed probe.
  datatype Explanation = CommandTimedOut | RetryFailed | CommandFailedWith | NotOn

  // wait.Interrupted: cancellation, a deadline, and a backoff that ran out of steps.
  predicate Interrupted(e: StopError) {
    e.Canceled? || e.DeadlineExceeded? || e.WaitTimeout?
  }

  // What the fence agent does with each command line: how its single run ends, and what
  // it writes.
  type Agent = seq<string> -> (Weather, string)

  // The verdict on a single run that answers as w and writes stdout.
  ghost predicate Judged(w: Weather, stdout: string, r: Option<Explanation>) {
    && (r.None? <==> Answered(w, Executions.Ok) && SaysOn(stdout))
    && (r == Some(NotOn) <==> Answered(w, Executions.Ok) && !SaysOn(stdout))
    && (r == Some(CommandTimedOut) <==> !Answered(w, Executions.Ok))
    && r != Some(RetryFailed) && r != Some(CommandFailedWith)
  }

  // The verdict is that on one run of the status command of these parameters.
  ghost predicate Probed(agent: string, params: Dict, world: Agent, r: Option<Explanation>) {
    exists command: seq<string> ::
      Argv.IsStatusCommand(command, agent, params) && Judged(world(command).0, world(command).1, r)
  }

  method RunFenceStatus(agent: string, params: Dict, world: Agent) returns (r: Option<Explanation>)
    ensures Probed(agent, params, world, r)
  {
    var command := Argv.StatusCommand(agent, params);
    ProbePassesExactly(world(command).0, world(command).1);
    var answer := RunWithRetry(command, 1, world(command).0);
    if answer.stop != NoStop {
      if Interrupted(answer.stop) { return Some(CommandTimedOut); }
      return Some(RetryFailed);
    }
    if answer.command != Nil { return Some(CommandFailedWith); }
    if SaysOn(world(command).1) { return None; }
    return Some(NotOn);
  }

  // None when the probe passed.
  function Explained(answer: Result, stdout: string): Option<Explanation> {
    if answer.stop != NoStop then Some(if Interrupted(answer.stop) then CommandTimedOut else RetryFailed)
    else if answer.command != Nil then Some(CommandFailedWith)
    else if SaysOn(stdout) then None
    else Some(NotOn)
  }

  // The single attempt was made and answered so.
  predicate Answered(w: Weather, o: Executions.Outcome) {
    !w.cancelledAtHead(0) && w.answer(0) == o
  }

  // Main result.  A probe passes exactly when its one command succeeded and said that the
  // node is on; every other end is called a timeout, an ordinary failure of the command
  // among them, and the two messages for failures are never given.
  lemma ProbePassesExactly(w: Weather, stdout: string)
    ensures Judged(w, stdout, Explained(Attempts(1, 0, Nil, w), stdout))
  {}

  // A command killed at its deadline ends with an exit error, which the code cannot tell
  // from any other: it answers Failed.  Told that this is what happened, the timeout
  // message is right, a timeout reported only of a command that was cut short, exactly
  // unless the command failed by itself.
  lemma TimeoutMessageRightExactly(w: Weather, stdout: string, killedAtDeadline: bool)
    requires killedAtDeadline ==> Answered(w, Executions.Failed)
    ensures (Explained(Attempts(1, 0, Nil, w), stdout) == Some(CommandTimedOut) ==>
               w.cancelledAtHead(0) || w.answer(0).TimedOut? || w.answer(0).Killed? || killedAtDeadline)
            <==> !Answered(w, Executions.Failed) || killedAtDeadline
  {}
}
