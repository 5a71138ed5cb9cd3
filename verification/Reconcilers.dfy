// The reconciler in its own form: Reconcile, handleFARDeletion, AppendTaint, RemoveTaint
// and updateStatus as sequential code over a cluster in which everyone else goes on
// acting between any two API calls.  Each of its runs is a run of the protocol.
module Reconcilers {
  import opened Basics
  import opened Conditions
  import opened Taints
  import opened TaintEdits
  import opened Executions
  import opened Protocol
  import opened History
  import opened Invariant
  import opened Runs
  import opened Traces
  import Params

  datatype ReconcileResult = Done | Requeue | RequeueAfterSecond | Error | Panicked

  datatype UpdateError = NoError | NotFound | Conflict | OtherError

  // A step of somebody else.
  predicate Elsewhere(s: State, a: Action)
    requires s.WellFormed()
  {
    (a.Disturb? || a.Routine?) && Enabled(s, a) && Step(s, a).pc == s.pc
  }

  // How many reconciles a run begins.
  function Begun(acts: seq<Action>): nat {
    if acts == [] then 0
    else Begun(acts[..|acts| - 1]) + (if acts[|acts| - 1].Get? then 1 else 0)
  }

  lemma BegunOn(trace: seq<Action>, a: Action)
    ensures Begun(trace + [a]) == Begun(trace) + (if a.Get? then 1 else 0)
  {
    assert (trace + [a])[..|trace|] == trace;
  }

  // A call whose failure the reconcile returns: an API error, a conflict on the object, a
  // conflict or a missing node when a taint is to be added, and parameters whose refusal
  // asks for a retry.
  predicate Fatal(s: State, a: Action, retry: bool) {
    && s.WellFormed()
    && ((a.Get? && a.fault) ||
        (a.Reconcile? &&
         match s.pc
         case GetNode(_) => a.fault
         case ReadNode(_, _) => a.fault
         case EvictPods(_) => a.fault
         case AddFinalizer(ver) => a.fault || ver != s.Last()
         case DropFinalizer(ver) => a.fault || ver != s.Last()
         case Finish(ver, _) => a.fault || ver != s.Last()
         case WriteNode(_, job, copy) =>
           a.fault || (Adds(job) && (s.node.None? || s.node.value.ver != copy.ver))
         case Build(_) => a.fault && retry
         case _ => false))
  }

  // A conflict when a taint is to be removed, which asks for another try.
  predicate Clashes(s: State, a: Action) {
    a == Action.Reconcile(false) && s.pc.WriteNode? && !Adds(s.pc.job) && s.node.Some? &&
    s.node.value.ver != s.pc.copy.ver
  }

  function Failures(states: seq<State>, trace: seq<Action>, retries: seq<bool>): nat
    requires |states| == |trace| + 1 && |retries| == |trace|
  {
    if trace == [] then 0
    else
      var n := |trace| - 1;
      Failures(states[..n + 1], trace[..n], retries[..n]) + One(Fatal(states[n], trace[n], retries[n]))
  }

  function Clashings(states: seq<State>, trace: seq<Action>): nat
    requires |states| == |trace| + 1
  {
    if trace == [] then 0
    else
      var n := |trace| - 1;
      Clashings(states[..n + 1], trace[..n]) + One(Clashes(states[n], trace[n]))
  }

  lemma CountsOn(states: seq<State>, trace: seq<Action>, retries: seq<bool>, s: State, a: Action, retry: bool)
    requires |states| == |trace| + 1 && |retries| == |trace|
    ensures Failures(states + [s], trace + [a], retries + [retry]) ==
            Failures(states, trace, retries) + One(Fatal(states[|trace|], a, retry))
    ensures Clashings(states + [s], trace + [a]) == Clashings(states, trace) + One(Clashes(states[|trace|], a))
    ensures NodeWrites(states + [s], trace + [a]) == NodeWrites(states, trace) + One(LandsOnNode(states[|trace|], a))
  {
    var n := |trace|;
    assert (states + [s])[..n + 1] == states && (trace + [a])[..n] == trace && (retries + [retry])[..n] == retries;
  }

  // A write of the node that is taken.
  predicate LandsOnNode(s: State, a: Action) {
    a == Action.Reconcile(false) && s.pc.WriteNode? && s.node.Some? && s.node.value.ver == s.pc.copy.ver
  }

  function NodeWrites(states: seq<State>, trace: seq<Action>): nat
    requires |states| == |trace| + 1
  {
    if trace == [] then 0
    else
      var n := |trace| - 1;
      NodeWrites(states[..n + 1], trace[..n]) + One(LandsOnNode(states[n], trace[n]))
  }

  // The stored copy of an object stays where it was read.
  predicate At(s: State, cr: CR, ver: nat) {
    ver < |s.hist| && s.hist[ver] == Some(cr)
  }

  // The local copy after the reconciler has applied a reason to it, if any; the status
  // of version ver is stored, if at all, as version ver + 1.
  function Local(cr: CR, ver: nat, why: Option<Reason>): CR {
    if why.None? then cr else cr.(status := Updated(why.value, cr.status, ver + 1))
  }

  // What a copy of the object and the look at the node select: deletion first, then the
  // NHC timeout, the missing node, the finalizer, and at last remediation.
  predicate Selected(read: CR, found: bool, r: ReconcileResult, why: Option<Reason>) {
    if read.deleting then
      why.None? &&
      (r.Panicked? <==> !read.status.Is(Succeeded, True) && !read.status.Complete()) && !r.Requeue?
    else if read.timedOut then r.Done? && why == Some(InterruptedByNHC)
    else if !found then r.Done? && why == Some(NodeNotFound)
    else if !read.finalizer then r.Requeue? && why == Some(Started)
    else r.Done? && why == if Fenced(read) && !read.strategy.Unsupported? then Some(FinishedSuccessfully) else None
  }

  // What an object reflects once a reconcile of a live copy of it has come through.
  predicate Reflects(read: CR, found: bool, cur: CR) {
    if read.timedOut || !found then
      cur == read.(status := cur.status) && cur.status.Triple(False, False, False)
    else if !read.finalizer then
      cur == read.(finalizer := true, status := cur.status) && cur.status.Triple(True, Unknown, Unknown)
    else if read.status.fenced == Some(True) && read.status.succeeded != Some(True) && !read.strategy.Unsupported? then
      cur == read.(status := cur.status) && cur.status.Triple(False, True, True)
    else cur == read
  }

  // Storing what was selected makes the object reflect it.
  lemma SelectedReflects(read: CR, found: bool, r: ReconcileResult, why: Option<Reason>, base: CR, ver: nat)
    requires base == if why == Some(Started) then read.(finalizer := true) else read
    ensures !r.Error? && !read.deleting && Selected(read, found, r, why) ==>
              Reflects(read, found, Local(base, ver, why))
  {}

  class Reconciler {
    var s: State
    ghost const start: State
    // Everything that happened since start, and the states on the way.
    ghost var trace: seq<Action>
    ghost var states: seq<State>
    // Whether each asked for a retry, where that is the parameters' answer.
    ghost var retries: seq<bool>
    // How many calls failed for the reconcile, and how many clashed over a taint.
    ghost var failures: nat
    ghost var clashes: nat
    // How many of its node writes landed.
    ghost var nodeWrites: nat

    ghost predicate Running()
      reads this
    {
      && Inv(s)
      && |states| == |trace| + 1 && Chained(states, trace) && states[0] == start && states[|trace|] == s
      && |retries| == |trace| && failures == Failures(states, trace, retries)
      && clashes == Clashings(states, trace) && nodeWrites == NodeWrites(states, trace)
    }

    // What happened is kept, and reconciles more were begun.
    twostate predicate Went(reconciles: nat)
      reads this
    {
      && old(trace) <= trace && old(states) <= states && old(retries) <= retries
      && Begun(trace) == Begun(old(trace)) + reconciles && old(s.log) <= s.log
      && old(failures) <= failures && old(clashes) <= clashes && old(nodeWrites) <= nodeWrites
    }

    // The fence parameters were refused since then, with that answer about a retry.
    ghost predicate RefusedSince(from: nat, retry: bool)
      reads this
    {
      exists k :: from <= k < |trace| && k < |states| && k < |retries| &&
                  states[k].pc.Build? && trace[k] == Action.Reconcile(true) && retries[k] == retry
    }

    // The node was looked up since then, and found or not.
    ghost predicate Looked(from: nat, found: bool)
      reads this
    {
      exists k :: from <= k < |trace| && k < |states| &&
                  states[k].pc.GetNode? && trace[k] == Action.Reconcile(false) && found == states[k].node.Some?
    }

    // What a Get since then returned: nothing with an error, else what the cache showed.
    ghost predicate Read(from: nat, far: Option<CR>)
      reads this
    {
      exists k :: from <= k < |trace| && k < |states| && trace[k].Get? && states[k].WellFormed() &&
                  far == if trace[k].fault then None else states[k].Seen()
    }

    // What happened is a run of the protocol.
    lemma IsARun()
      requires Running()
      ensures Valid(start, trace) && Final(start, trace) == s
    {
      ChainedRun(states, trace);
    }

    constructor (s: State)
      requires Inv(s)
      ensures this.s == s && this.start == s && trace == [] && Running()
    {
      this.s, this.start, this.trace, this.states, retries := s, s, [], [s], [];
      failures, clashes, nodeWrites := 0, 0, 0;
    }

    // Goroutines, users, other controllers and the informer act, any number of times.
    method Others()
      requires Running()
      modifies this
      ensures Running() && Went(0)
      ensures s.pc == old(s.pc) && old(s).hist <= s.hist
      ensures nodeWrites == old(nodeWrites)
      ensures failures == old(failures) && clashes == old(clashes)
    {
      hide Inv, Chained, Begun, Failures, Clashings, NodeWrites;
      var n: nat := *;
      while n > 0
        invariant Running() && Went(0)
        invariant s.pc == old(s.pc) && old(s).hist <= s.hist
        invariant failures == old(failures) && clashes == old(clashes) && nodeWrites == old(nodeWrites)
        decreases n
      {
        var a: Action := *;
        if Elsewhere(s, a) {
          StepKeeps(s, a);
          OneVersion(s, a);
          LogGrows(s, a);
          BegunOn(trace, a);
          ChainOn(states, trace, a);
          CountsOn(states, trace, retries, Step(s, a), a, false);
          s := Step(s, a);
          trace, states, retries := trace + [a], states + [s], retries + [false];
        }
        n := n - 1;
      }
    }

    // One API call, or one locked section of the Executer.
    method Act(fault: bool, ghost retry: bool := false)
      requires Running() && !s.pc.Idle?
      modifies this
      ensures Running() && Went(0)
      ensures s == ReconcileStep(old(s), fault) && old(s).hist <= s.hist
      ensures trace == old(trace) + [Action.Reconcile(fault)] && retries == old(retries) + [retry]
      ensures failures == old(failures) + One(Fatal(old(s), Action.Reconcile(fault), retry))
      ensures clashes == old(clashes) + One(Clashes(old(s), Action.Reconcile(fault)))
      ensures nodeWrites == old(nodeWrites) + One(LandsOnNode(old(s), Action.Reconcile(fault)))
    {
      hide Inv, Chained, Begun, Failures, Clashings, NodeWrites, Fatal, Clashes;
      ReconcileLogs(s, fault);
      ReconcileKeeps(s, fault);
      ReconcileOneVersion(s, fault);
      BegunOn(trace, Action.Reconcile(fault));
      ChainOn(states, trace, Action.Reconcile(fault));
      CountsOn(states, trace, retries, ReconcileStep(s, fault), Action.Reconcile(fault), retry);
      failures := failures + One(Fatal(s, Action.Reconcile(fault), retry));
      clashes := clashes + One(Clashes(s, Action.Reconcile(fault)));
      nodeWrites := nodeWrites + One(LandsOnNode(s, Action.Reconcile(fault)));
      s := ReconcileStep(s, fault);
      trace, states, retries := trace + [Action.Reconcile(fault)], states + [s], retries + [retry];
    }

    // The reconcile in progress works with version ver, which is cr.
    ghost predicate Holds(cr: CR, ver: nat)
      reads this
    {
      Running() && At(s, cr, ver)
    }

    // ---------------------------------------------------------------- the API calls

    // r.Get on the remediation.
    method GetObject() returns (far: Option<CR>, err: bool, ver: nat)
      requires Running() && s.pc.Idle?
      modifies this
      ensures Running() && Went(1)
      ensures if err || far.None? then s.pc.Idle? else s.pc == GetNode(ver) && At(s, far.value, ver)
      ensures Read(|old(trace)|, far) && (err ==> far.None?)
      ensures (err <==> failures > old(failures)) && clashes == old(clashes)
    {
      hide Inv, Chained, Begun, Failures, Clashings, NodeWrites;
      Others();
      err := *;
      far, ver := if err then None else s.Seen(), s.cache;
      GetKeeps(s, err);
      ghost var at, k := s, |trace|;
      BegunOn(trace, Get(err));
      ChainOn(states, trace, Get(err));
      CountsOn(states, trace, retries, GetStep(s, err), Get(err), false);
      failures := failures + One(err);
      s := GetStep(s, err);
      trace, states, retries := trace + [Get(err)], states + [s], retries + [false];
      assert states[k] == at && trace[k] == Get(err);
    }

    // GetNodeWithName; no node and no error means it was not found.
    method FetchNode(far: CR, ghost ver: nat) returns (node: Option<Node>, err: bool)
      requires Holds(far, ver) && s.pc == GetNode(ver)
      modifies this
      ensures Holds(far, ver) && Went(0)
      ensures s.pc == if err then Finish(ver, None) else AfterNode(far, ver, node.Some?)
      ensures (err <==> failures > old(failures)) && clashes == old(clashes)
      ensures !err ==> Looked(|old(trace)|, node.Some?)
    {
      hide Inv, Chained, Begun, Failures, Clashings, NodeWrites;
      Others();
      err := *;
      node := if err then None else s.node;
      ghost var at, k := s, |trace|;
      Act(err);
      assert states[k] == at && trace[k] == Action.Reconcile(err);
    }

    method ReadTaints(far: CR, ghost ver: nat, ghost job: Job) returns (node: Option<Node>, err: bool)
      requires Holds(far, ver) && s.pc == ReadNode(ver, job)
      modifies this
      ensures Holds(far, ver) && Went(0)
      ensures err ==> node.None? && s.pc == Finish(ver, None)
      ensures !err ==> s.node == node
      ensures !err ==> s.pc == if node.None? || JobIdle(job, node.value.taints) then AfterJob(far, ver, job)
                               else WriteNode(ver, job, node.value)
      ensures (err <==> failures > old(failures)) && clashes == old(clashes)
      ensures nodeWrites == old(nodeWrites)
    {
      hide Inv, Chained, Begun, Failures, Clashings, NodeWrites;
      Others();
      err := *;
      node := if err then None else s.node;
      Act(err);
    }

    // r.Update on the node with a new list; no one acts between the call and its effect.
    method UpdateNode(far: CR, ghost ver: nat, ghost job: Job, node: Node, taints: seq<Taint>)
      returns (err: UpdateError)
      requires Holds(far, ver) && s.pc == WriteNode(ver, job, node)
      requires taints == JobResult(job, node.taints, s.clock)
      modifies this
      ensures Holds(far, ver) && Went(0)
      ensures s.pc == if err.NoError? || (err.NotFound? && !Adds(job)) then AfterJob(far, ver, job)
                      else Finish(ver, None)
      ensures err.NoError? ==> s.node.Some? && s.node.value.taints == taints
      ensures err.NotFound? ==> s.node.None?
      ensures err.OtherError? || (Adds(job) && !err.NoError?) <==> failures > old(failures)
      ensures err.Conflict? && !Adds(job) <==> clashes > old(clashes)
      ensures nodeWrites == old(nodeWrites) + One(err.NoError?)
    {
      hide Inv, Chained, Begun, Failures, Clashings, NodeWrites, JobResult;
      var fault: bool := *;
      err := if fault then OtherError
             else if s.node.None? then NotFound
             else if s.node.value.ver != node.ver then Conflict
             else NoError;
      ghost var at := s;
      Act(fault);
      assert s == WriteNodeStep(at, fault);
    }

    // ---------------------------------------------------------------- pkg/utils/taints.go

    method AppendTaint(far: CR, ghost ver: nat, job: Job) returns (added: bool, err: bool)
      requires Holds(far, ver) && s.pc == ReadNode(ver, job) && Adds(job)
      modifies this
      ensures Holds(far, ver) && Went(0)
      ensures s.pc == if err then Finish(ver, None) else AfterJob(far, ver, job)
      ensures added ==> !err && Carries(s.node, JobTaint(job))
      ensures nodeWrites == old(nodeWrites) + One(added)
      ensures (err <==> failures > old(failures)) && clashes == old(clashes)
    {
      hide Inv, Chained, Begun, Failures, Clashings, NodeWrites, Fatal, Clashes;
      var taint := JobTaint(job);
      var node, failed := ReadTaints(far, ver, job);
      if node.None? { return false, failed; }
      var exist := TaintExists(node.value.taints, taint);
      if exist { return false, false; }
      Others();
      var now := s.clock;
      var taints := node.value.taints + [taint.(timeAdded := Some(now))];
      HasAppended(node.value.taints, taint.(timeAdded := Some(now)), taint);
      var e := UpdateNode(far, ver, job, node.value, taints);
      return e.NoError?, !e.NoError?;
    }

    method RemoveTaint(far: CR, ghost ver: nat, job: Job) returns (err: UpdateError)
      requires Holds(far, ver) && s.pc == ReadNode(ver, job) && !Adds(job)
      modifies this
      ensures Holds(far, ver) && Went(0)
      ensures s.pc == if err.NoError? || err.NotFound? then AfterJob(far, ver, job) else Finish(ver, None)
      ensures err.NoError? || err.NotFound? ==> !Carries(s.node, JobTaint(job))
      ensures err.OtherError? <==> failures > old(failures)
      ensures err.Conflict? <==> clashes > old(clashes)
    {
      hide Inv, Chained, Begun, Failures, Clashings, NodeWrites, Fatal, Clashes;
      var taint := JobTaint(job);
      var node, failed := ReadTaints(far, ver, job);
      if node.None? { return if failed then OtherError else NoError; }
      var exist := TaintExists(node.value.taints, taint);
      if !exist { return NoError; }
      var taints, deleted, _ := DeleteTaint(node.value.taints, taint);
      if !deleted { return NoError; }
      HasWithout(node.value.taints, taint, taint);
      Others();
      err := UpdateNode(far, ver, job, node.value, taints);
    }

    // ---------------------------------------------------------------- the other calls

    // r.Executor.Remove
    method RemoveRoutine(far: CR, ghost ver: nat, ghost after: After)
      requires Holds(far, ver) && s.pc == Cancel(ver, after)
      modifies this
      ensures Holds(far, ver) && Went(0)
      ensures s.pc == AfterCancel(far, ver, after)
      ensures failures == old(failures) && clashes == old(clashes)
    {
      hide Inv, Chained, Begun, Failures, Clashings, NodeWrites;
      Others();
      Act(false);
    }

    // r.Client.Update with the finalizer added: on success the copy is the version stored.
    method StoreFinalizer(far: CR, ver: nat) returns (err: bool, stored: nat)
      requires Holds(far, ver) && s.pc == AddFinalizer(ver)
      modifies this
      ensures Running() && Went(0)
      ensures At(s, if err then far else far.(finalizer := true), stored)
      ensures s.pc == if err then Finish(ver, None) else Finish(stored, Some(Started))
      ensures err ==> stored == ver
      ensures (err <==> failures > old(failures)) && clashes == old(clashes)
    {
      hide Inv, Chained, Begun, Failures, Clashings, NodeWrites;
      Others();
      var fault: bool := *;
      err := fault || s.pc.ver != s.Last();
      stored := if err then ver else |s.hist|;
      Act(fault);
    }

    // r.Client.Update with the finalizer removed.
    method StoreNoFinalizer(far: CR, ghost ver: nat) returns (err: bool)
      requires Holds(far, ver) && s.pc == DropFinalizer(ver)
      modifies this
      ensures Running() && Went(0) && s.pc.Idle?
      ensures !err ==> s.Current().None? && !Tainted(s.node) && !OutOfServiceTainted(s.node)
      ensures (err <==> failures > old(failures)) && clashes == old(clashes)
    {
      hide Inv, Chained, Begun, Failures, Clashings, NodeWrites;
      Others();
      var fault: bool := *;
      err := fault || s.pc.ver != s.Last();
      ghost var at := s;
      Act(fault);
      assert s == DropFinalizerStep(at, fault);
      if !err { NoObjectNoTaint(s); }
    }

    // r.Executor.Exists
    method RoutineExists(far: CR, ghost ver: nat) returns (exist: bool)
      requires Holds(far, ver) && s.pc == CheckRunning(ver)
      modifies this
      ensures Holds(far, ver) && Went(0)
      ensures s.pc == if exist then Finish(ver, None) else Build(ver)
      ensures exist <==> far.uid in s.exec.routines
      ensures failures == old(failures) && clashes == old(clashes)
    {
      hide Inv, Chained, Begun, Failures, Clashings, NodeWrites;
      Others();
      exist := far.uid in s.exec.routines;
      Act(false);
    }

    // BuildFenceAgentParams; a refusal says whether to retry.
    method BuildParams(far: CR, ghost ver: nat) returns (built: Params.Built)
      requires Holds(far, ver) && s.pc == Build(ver)
      modifies this
      ensures Holds(far, ver) && Went(0)
      ensures s.pc == if built.Refused? then Finish(ver, None) else Launch(ver)
      ensures built.Refused? ==> RefusedSince(|old(trace)|, built.retry)
      ensures (built == Params.Refused(true) <==> failures > old(failures)) && clashes == old(clashes)
    {
      hide Inv, Chained, Begun, Failures, Clashings, NodeWrites;
      Others();
      built := *;
      ghost var at, k := s, |trace|;
      Act(built.Refused?, built == Params.Refused(true));
      assert states[k] == at && trace[k] == Action.Reconcile(built.Refused?);
    }

    // r.Executor.AsyncExecute
    method StartRoutine(far: CR, ghost ver: nat)
      requires Holds(far, ver) && s.pc == Launch(ver)
      modifies this
      ensures Holds(far, ver) && Went(0)
      ensures s.pc == Finish(ver, None) && far.uid in s.exec.routines
      ensures failures == old(failures) && clashes == old(clashes)
    {
      hide Inv, Chained, Begun, Failures, Clashings, NodeWrites;
      Others();
      Act(false);
    }

    // commonResources.DeletePods
    method DeletePods(far: CR, ghost ver: nat) returns (err: bool)
      requires Holds(far, ver) && s.pc == EvictPods(ver)
      modifies this
      ensures Holds(far, ver) && Went(0)
      ensures s.pc == if err then Finish(ver, None) else Cancel(ver, ForCompletion)
      ensures PodsDeleted(far.uid) in s.log[|old(s).log|..]
      ensures (err <==> failures > old(failures)) && clashes == old(clashes)
    {
      hide Inv, Chained, Begun, Failures, Clashings, NodeWrites;
      Others();
      err := *;
      ghost var at := s;
      Act(err);
      assert s.log[|at.log|] == PodsDeleted(far.uid);
    }

    // r.Client.Status().Update with the local copy.
    method StoreStatus(far: CR, ghost read: CR, ghost ver: nat, ghost why: Option<Reason>) returns (err: bool)
      requires Holds(read, ver) && s.pc == Finish(ver, why) && far == Local(read, ver, why)
      requires far.deleting ==> far.finalizer
      modifies this
      ensures Running() && Went(0) && s.pc.Idle?
      ensures !err ==> s.Current() == Some(far)
      ensures (err <==> failures > old(failures)) && clashes == old(clashes)
    {
      hide Inv, Chained, Begun, Failures, Clashings, NodeWrites;
      Others();
      var fault: bool := *;
      err := fault || s.pc.ver != s.Last();
      ghost var at := s;
      Act(fault);
      assert s == FinishStep(at, fault);
    }

    // ---------------------------------------------------------------- the reconcile

    // handleFARDeletion; the copy returned has lost its finalizer if that was stored or tried.
    method HandleFARDeletion(read: CR, ghost ver: nat, found: bool) returns (r: ReconcileResult, far: CR)
      requires Holds(read, ver) && read.deleting && s.pc == AfterCancel(read, ver, ForDeletion(found))
      modifies this
      ensures Running() && Went(0)
      ensures !r.Panicked? && !r.Requeue?
      ensures if s.pc.Idle? then far == read.(finalizer := false) && (r.Done? || r.Error?)
              else far == read && s.pc == Finish(ver, None) && At(s, read, ver) && !r.Done?
      ensures r.Done? ==> s.Current().None? && !Tainted(s.node) && !OutOfServiceTainted(s.node)
      ensures r.Error? <==> failures > old(failures)
      ensures r.RequeueAfterSecond? <==> clashes > old(clashes)
    {
      hide Inv, Chained, Begun, Failures, Clashings, NodeWrites, Fatal, Clashes, Carries, JobTaint, LandsOnNode;
      far := read;
      if found {
        if far.strategy == OutOfService {
          var e := RemoveTaint(far, ver, UntaintOutOfService);
          if e.Conflict? { return RequeueAfterSecond, far; }
          if !e.NoError? && !e.NotFound? { return Error, far; }
        }
        var e := RemoveTaint(far, ver, UntaintNode);
        if e.Conflict? { return RequeueAfterSecond, far; }
        if !e.NoError? && !e.NotFound? { return Error, far; }
      }
      far := far.(finalizer := false);
      var err := StoreNoFinalizer(read, ver);
      return if err then Error else Done, far;
    }

    // updateStatus, deferred: skipped for an object about to disappear.
    method UpdateStatus(far: CR, ghost read: CR, ghost ver: nat, ghost why: Option<Reason>) returns (err: bool)
      requires Running()
      requires if s.pc.Idle? then far.deleting && !far.finalizer
               else At(s, read, ver) && s.pc == Finish(ver, why) && far == Local(read, ver, why)
      modifies this
      ensures Running() && Went(0) && s.pc.Idle?
      ensures old(s.pc).Idle? ==> !err && s == old(s)
      ensures !old(s.pc).Idle? && !err ==> s.Current() == Some(far)
      ensures (err <==> failures > old(failures)) && clashes == old(clashes)
    {
      hide Inv, Chained, Begun, Failures, Clashings, NodeWrites, Fatal, Clashes;
      if !s.pc.Idle? { VersionSound(s, ver); }
      if !far.finalizer && far.deleting { return false; }
      err := StoreStatus(far, read, ver, why);
    }

    // Through the open gate: one routine, with the parameters built first.
    method StartFencing(far: CR, ver: nat) returns (r: ReconcileResult)
      requires Holds(far, ver) && s.pc == CheckRunning(ver)
      modifies this
      ensures Holds(far, ver) && Went(0) && s.pc == Finish(ver, None) && (r.Done? || r.Error?)
      ensures r.Done? ==> far.uid in s.exec.routines || RefusedSince(|old(trace)|, false)
      ensures (r.Error? <==> failures > old(failures)) && clashes == old(clashes)
    {
      hide Inv, Chained, Begun, Failures, Clashings, NodeWrites, Fatal, Clashes;
      var running := RoutineExists(far, ver);
      if running { return Done; }
      var built := BuildParams(far, ver);
      if built.Refused? { return if built.retry then Error else Done; }
      StartRoutine(far, ver);
      return Done;
    }

    // The eviction of a fenced object, by strategy.
    method Evict(far: CR, ver: nat) returns (unsupported: bool, err: bool)
      requires Holds(far, ver) && Fenced(far) && s.pc == AfterJob(far, ver, TaintNode)
      modifies this
      ensures Holds(far, ver) && Went(0)
      ensures unsupported <==> far.strategy.Unsupported?
      ensures s.pc == if err || unsupported then Finish(ver, None) else Cancel(ver, ForCompletion)
      ensures !err && (far.strategy.ResourceDeletion? || far.strategy.Default?) ==>
                PodsDeleted(far.uid) in s.log[|old(s).log|..]
      ensures (err <==> failures > old(failures)) && clashes == old(clashes)
    {
      hide Inv, Chained, Begun, Failures, Clashings, NodeWrites, Fatal, Clashes;
      match far.strategy {
        case ResourceDeletion | Default =>
          err := DeletePods(far, ver);
          return false, err;
        case OutOfService =>
          var added;
          added, err := AppendTaint(far, ver, TaintOutOfService);
          return false, err;
        case Unsupported => return true, false;
      }
    }

    // The part of Reconcile for a live object on a node that is there.
    method Remediate(read: CR, ver: nat) returns (r: ReconcileResult, far: CR, ghost why: Option<Reason>)
      requires Holds(read, ver) && s.pc == ReadNode(ver, TaintNode)
      modifies this
      ensures Holds(read, ver) && Went(0)
      ensures s.pc == Finish(ver, why) && far == Local(read, ver, why) && (r.Done? || r.Error?)
      // Through the open gate it leaves a routine running, unless the parameters are refused
      // for good.
      ensures r.Done? && Gate(read) ==> read.uid in s.exec.routines || RefusedSince(|old(trace)|, false)
      // It completes exactly the fenced objects of a known strategy, unless an error is met.
      ensures why.Some? <==> r.Done? && Fenced(read) && !read.strategy.Unsupported?
      ensures why.Some? ==> why.value == FinishedSuccessfully
      // By deletion it does so only with the pods deleted.
      ensures why.Some? && !read.strategy.OutOfService? ==> PodsDeleted(read.uid) in s.log[|old(s).log|..]
      ensures (r.Error? <==> failures > old(failures)) && clashes == old(clashes)
    {
      hide Inv, Chained, Begun, Failures, Clashings, NodeWrites, Fatal, Clashes, Updated, Carries, JobTaint;
      far, why := read, None;
      var added, failed := AppendTaint(far, ver, TaintNode);
      if failed { return Error, far, why; }
      if far.status.Is(Processing, True) && !far.status.Is(FenceAgentActionSucceeded, True) {
        r := StartFencing(far, ver);
        return;
      }
      if far.status.Is(FenceAgentActionSucceeded, True) && !far.status.Is(Succeeded, True) {
        var unsupported, err := Evict(far, ver);
        if err { return Error, far, why; }
        if unsupported { return Done, far, why; }
        why := Some(FinishedSuccessfully);
        far := Local(far, ver, Some(FinishedSuccessfully));
        RemoveRoutine(read, ver, ForCompletion);
      }
      return Done, far, why;
    }

    // The deletion branch: the log line first, then the routine, then the cleanup.
    method HandleDeleting(read: CR, ver: nat, found: bool) returns (r: ReconcileResult, far: CR)
      requires Holds(read, ver) && read.deleting && s.pc == AfterNode(read, ver, found)
      modifies this
      ensures Running() && Went(0)
      ensures !r.Requeue?
      ensures r.Panicked? <==> !read.status.Is(Succeeded, True) && !read.status.Complete()
      ensures if s.pc.Idle? then far == read.(finalizer := false) && (r.Done? || r.Error?)
              else far == read && s.pc == Finish(ver, None) && At(s, read, ver) && !r.Done?
      ensures r.Done? ==> s.Current().None? && !Tainted(s.node) && !OutOfServiceTainted(s.node)
      ensures r.Error? <==> failures > old(failures)
      ensures r.RequeueAfterSecond? <==> clashes > old(clashes)
    {
      hide Inv, Chained, Begun, Failures, Clashings, NodeWrites, Fatal, Clashes, Carries, JobTaint;
      if !read.status.Is(Succeeded, True) {
        // FindStatusCondition returns nil for an absent condition and its Status is read.
        if read.status.processing.None? { return Panicked, read; }
        if read.status.fenced.None? { return Panicked, read; }
        if read.status.succeeded.None? { return Panicked, read; }
      }
      RemoveRoutine(read, ver, ForDeletion(found));
      r, far := HandleFARDeletion(read, ver, found);
    }

    // Reconcile between its Get and its deferred status update.
    method Handle(read: CR, readVer: nat)
      returns (r: ReconcileResult, far: CR,
        ghost base: CR, ghost ver: nat, ghost why: Option<Reason>, found: bool)
      requires Holds(read, readVer) && s.pc == GetNode(readVer)
      modifies this
      ensures Running() && Went(0)
      ensures if s.pc.Idle? then read.deleting && far.deleting && !far.finalizer
              else At(s, base, ver) && s.pc == Finish(ver, why) && far == Local(base, ver, why)
      // Without an error, the copy and the node select exactly one outcome.
      ensures !r.Error? ==> Selected(read, found, r, why)
      ensures r.Error? ==> why.None?
      ensures !r.Error? ==> Looked(|old(trace)|, found)
      ensures base == if why == Some(Started) then read.(finalizer := true) else read
      ensures !s.pc.Idle? ==> r.Error? || !read.deleting || !r.Done?
      ensures r.Requeue? ==> !s.pc.Idle? && far.finalizer && why == Some(Started)
      ensures r.Done? && read.deleting ==>
                s.pc.Idle? && s.Current().None? && !Tainted(s.node) && !OutOfServiceTainted(s.node)
      ensures r.Error? <==> failures > old(failures)
      ensures r.RequeueAfterSecond? <==> clashes > old(clashes)
    {
      hide Inv, Chained, Begun, Failures, Clashings, NodeWrites, Fatal, Clashes, Updated, Carries, JobTaint;
      far, base, ver, why := read, read, readVer, None;
      var node, err := FetchNode(far, readVer);
      found := node.Some?;
      if err { r := Error; return; }
      if far.deleting {
        r, far := HandleDeleting(far, readVer, found);
        return;
      }
      if far.timedOut {
        RemoveRoutine(far, readVer, ForTimeout);
        why := Some(InterruptedByNHC);
        far := Local(far, readVer, Some(InterruptedByNHC));
        r := Done;
        return;
      }
      if node.None? {
        why := Some(NodeNotFound);
        far := Local(far, readVer, Some(NodeNotFound));
        r := Done;
        return;
      }
      if !far.finalizer {
        var failed, stored := StoreFinalizer(far, readVer);
        if failed { r := Error; return; }
        base, ver, why := far.(finalizer := true), stored, Some(Started);
        far := Local(far.(finalizer := true), stored, Some(Started));
        r := Requeue;
        return;
      }
      r, far, why := Remediate(far, readVer);
    }

    // Main result.  Reconcile, from its Get to its deferred status update, is a run of
    // the protocol that begins exactly one reconcile and carries it to its end, whatever
    // everyone else does meanwhile.  It returns an error exactly when one of its calls
    // failed, the status update included; else it returns what the object its Get returned
    // selects, and what is stored reflects it.
    method Reconcile() returns (r: ReconcileResult, ghost read: Option<CR>)
      requires Running() && s.pc.Idle?
      modifies this
      ensures Running() && Went(1) && s.pc.Idle?
      ensures Read(|old(trace)|, read)
      ensures !r.Panicked? ==> (r.Error? <==> failures > old(failures))
      ensures r.RequeueAfterSecond? ==> clashes > old(clashes)
      ensures clashes > old(clashes) ==> r.RequeueAfterSecond? || r.Error?
      ensures read.None? ==> r.Done? || r.Error?
      ensures read.Some? && !r.Error? ==> exists found, why :: Selected(read.value, found, r, why)
      ensures (r.Done? || r.Requeue?) && read.Some? && !read.value.deleting ==>
                s.Current().Some? &&
                exists found :: Looked(|old(trace)|, found) && Reflects(read.value, found, s.Current().value)
      ensures r.Done? && read.Some? && read.value.deleting ==>
                s.Current().None? && !Tainted(s.node) && !OutOfServiceTainted(s.node)
    {
      hide Inv, Chained, Begun, Failures, Clashings, NodeWrites, Fatal, Clashes, Selected, Reflects, Updated;
      read := None;
      var far, err, ver := GetObject();
      if far.None? {
        return if err then Error else Done, None;
      }
      read := far;
      ghost var base, at, why, found;
      var copy;
      r, copy, base, at, why, found := Handle(far.value, ver);
      var updateErr := UpdateStatus(copy, base, at, why);
      if !read.value.deleting { SelectedReflects(read.value, found, r, why, base, at); }
      if updateErr && !r.Panicked? { r := Error; }
    }
  }
}
