// The abstract state of pkg/cli/cliexecuter.go: the routine map of an Executer and
// the goroutines it has started, with what each of its operations does to them.
module Executions {
  import opened Basics
  import opened Conditions

  type Uid = nat

  // What the fence command (the runner) can answer for one attempt.  Killed is
  // context.Canceled: the routine's own context was cancelled under the command.
  datatype Outcome = Ok | TimedOut | Killed | Failed

  // The error the retry loop leaves behind: nil, an interruption, or a command failure.
  datatype Verdict = Won | Overran | Lost

  function ReasonFor(v: Verdict): Reason {
    match v
    case Won => FenceAgentSucceeded
    case Overran => FenceAgentTimedOut
    case Lost => FenceAgentFailed
  }

  // retry.DefaultBackoff.Steps
  const STATUS_STEPS := 4

  // Where a goroutine is.  Attempt/Record are the heads of the two backoff loops,
  // where cancellation is checked; Pause/RecordPause are their waits.
  datatype GoPc =
    | Attempt(left: int)
    | Running(left: int)
    | Pause(left: int)
    | Record(tries: int, verdict: Verdict)
    | Lookup(tries: int, verdict: Verdict)
    | Store(tries: int, verdict: Verdict, ver: nat)
    | RecordPause(tries: int, verdict: Verdict)
    | Ended

  datatype Go = Go(uid: Uid, cancelled: bool, pc: GoPc)

  datatype Exec = Exec(routines: map<Uid, nat>, gos: seq<Go>)

  const NOTHING_RUNNING := Exec(map[], [])

  // Every uncancelled goroutine is the one stored at routines[uid], and every entry
  // of the map is an uncancelled goroutine of that uid.
  ghost predicate Corresponds(e: Exec) {
    && (forall u :: u in e.routines ==>
          e.routines[u] < |e.gos| && e.gos[e.routines[u]].uid == u && !e.gos[e.routines[u]].cancelled)
    && (forall r :: 0 <= r < |e.gos| && !e.gos[r].cancelled ==>
          e.gos[r].uid in e.routines && e.routines[e.gos[r].uid] == r)
  }

  function Launched(e: Exec, uid: Uid, retries: int): Exec {
    if uid in e.routines then e
    else Exec(e.routines[uid := |e.gos|], e.gos + [Go(uid, false, Attempt(retries))])
  }

  function Removed(e: Exec, uid: Uid): Exec {
    if uid in e.routines && e.routines[uid] < |e.gos| then
      var r := e.routines[uid];
      Exec(e.routines - {uid}, e.gos[r := e.gos[r].(cancelled := true)])
    else e
  }

  function Stepped(e: Exec, r: nat, pc: GoPc): Exec
    requires r < |e.gos|
  {
    e.(gos := e.gos[r := e.gos[r].(pc := pc)])
  }

  lemma RemovedCorresponds(e: Exec, uid: Uid)
    requires Corresponds(e)
    ensures Corresponds(Removed(e, uid))
    ensures Removed(e, uid).routines == e.routines - {uid}
    ensures |Removed(e, uid).gos| == |e.gos|
    ensures forall r :: 0 <= r < |e.gos| ==>
              Removed(e, uid).gos[r] == e.gos[r].(cancelled := e.gos[r].cancelled || e.gos[r].uid == uid)
  {}

  lemma LaunchedCorresponds(e: Exec, uid: Uid, retries: int)
    requires Corresponds(e)
    ensures Corresponds(Launched(e, uid, retries))
  {}

  lemma SteppedCorresponds(e: Exec, r: nat, pc: GoPc)
    requires Corresponds(e) && r < |e.gos|
    ensures Corresponds(Stepped(e, r, pc))
  {}
}
