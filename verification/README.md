# Fence Agents Remediation: the fencing protocol, modelled and proved

A node stops answering. A `FenceAgentsRemediation` object with its name appears, and the
operator has to fence the node before it lets anything evict its workload: put a
finalizer on the object and a taint on the node, run the fence agent once in a goroutine,
record the answer in the object's conditions, evict, and take everything away again when
the object is deleted. It does this with stale reads, conflicting writes, API errors, a
timeout annotation that may come at any moment, nodes that vanish, and its own crashes.
No single function carries the argument that this is safe; this project does.

## How it is modelled

The centre is a state machine at the granularity of API calls (`Protocol.dfy`). Its state
holds every version the API server ever stored under the object's name, the version the
informer's cache shows, the node, the reconciler's program counter with the version its
local copy was read at, the routine map with every goroutine ever started, and a log of
fence runs, commands and answers, pod deletions, out-of-service taints and crashes. The
environment, the informer, the reconciler and the goroutines take steps in any order.
`Invariant.dfy` holds what every step keeps. The results are in `Safety.dfy` and
`Theorems.dfy` (every run), `Rounds.dfy`, `Progress.dfy` and `Convergence.dfy` (what one
undisturbed reconcile does, how much the operator can do, that it comes to rest),
`Success.dfy` (that a remediation whose command answers Ok succeeds), `LostAnswers.dfy`,
`Tries.dfy`, `LostForGood.dfy`, `LostStarts.dfy` and `EvictionLoops.dfy` (where the code falls short,
exactly when, and what follows), and `Witnesses.dfy` (runs that exist). `Traces.dfy` ties
sequential code to runs.

The code that changes things step by step is there in that form too, and is proved to be
the machine:

- `Reconcilers.dfy`: `Reconcile`, `handleFARDeletion`, `AppendTaint`, `RemoveTaint` and
  the deferred status update as sequential code over a cluster in which everyone else may
  act before each API call. A call of `Reconcile` is a run of the machine that begins one
  reconcile and carries it to its end, so no branch can be skipped or swapped.
- `Goroutines.dfy`: `fenceAgentRoutine` with its two backoff loops, in the same way.
- `Executers.dfy`: the `Executer` with its mutable map; `StatusUpdates.dfy`: the list of
  conditions edited in place by `UpdateConditions`; `TaintEdits.dfy`: the taint lists.
- `Retries.dfy`: the retry loop against every sequence of answers and cancellations.

Three pieces beside the protocol: `Params.dfy` and `Argv.dfy` (merging the fence
parameters and assembling the command lines, with maps walked in any order),
`Samples.dfy`, `Templates.dfy` and `Probes.dfy` (the validation round of a template).

## What is assumed

- Every object asks for at least one attempt, for fence-before-evict only
  (`Retries.HonestExactly` and `Witnesses.NoAttemptNoFence` show that it is needed).
- The NHC annotation is never taken away. The environment neither strips nor adds the
  finalizer, and the object has no other finalizer. The strategy and the target node of an
  object do not change.
- One object name for the node, reused by successive incarnations with fresh uids; a uid
  is the number of the version that created it. Other remediations are only a flag that
  tells whether the list of all remediations is empty.
- The cache serves both the reconciler's read and the goroutine's list, never goes back
  within one process, and is current when a process starts. Node reads are current.
- Only the operator adds its two taints; anyone may remove them. A node that comes back
  comes back without them.
- A goroutine's status write is one step that fails if its context is cancelled. The
  context of a reconcile has no deadline.
- A call that reports an API error other than a conflict or NotFound had no effect, except
  that some pods may be gone. A write that lands and is reported as failed is, for the
  finalizer, the lost start described below. For a node write and for the two status
  writes it is not modelled: a goroutine whose write landed and was reported as failed has
  not lost its answer, though `LostAnswers.AnswerLostExactly` counts the failure as a loss.
- A template's sample is one the API server admits (no negative count, at most 100%).

## What the proofs found

- A finalizer that was stored while the start was not recorded, by a conflict or a crash
  between the two writes, leaves an object that is never fenced: no continuation opens its
  gate or starts a run for it (`LostStarts.LostStartIsForever`), and an object without
  conditions can still be started exactly while the reconciler that stored its finalizer
  is about to record the start (`LostStarts.StartableExactly`,
  `Witnesses.LostStartExists`). Once deleted it stays: the deletion branch reads the status
  of three absent conditions and panics on every reconcile (`Witnesses.WedgeExists`,
  `Theorems.WedgeIsForever`). Deletion goes through exactly when there are conditions
  (`Theorems.DeletionLookupsDefined`, `Rounds.DeletionCompletesExactly`).
- A fence answer can be lost. While the process lives and the routine is not cancelled,
  its goroutine ends without storing the answer exactly when a list call fails, a status
  write fails other than by a conflict, or the last of its four tries meets a conflict
  (`LostAnswers.AnswerLostExactly`, `Tries.FourConflicts`). From then on, in every
  continuation of the same process, no version says that the object was fenced, no command
  runs for it and nothing is evicted for it (`LostForGood.DroppedIsForGood`,
  `Witnesses.LostResultExists`).
- A lagging cache deletes pods again and again. An undisturbed reconcile deletes pods
  exactly when the cache shows a live, fenced, unfinished object with a deleting strategy
  and the node is there, however old that version is (`EvictionLoops.EvictsExactly`). With
  the cache as it is and no fault at all, nothing bounds how often this happens exactly
  when the cache shows such an object; otherwise it does not happen once
  (`EvictionLoops.EvictsForeverExactly`). Two ways to get there: the stored success is not
  yet in the cache (`EvictionLoops.EvictionsUnbounded`), or somebody edited the object since
  the version the cache shows, before any success was stored
  (`EvictionLoops.UnseenEditEvictsForever`). The wait after a status write
  (internal/controller/fenceagentsremediation_controller.go:346-362) does not prevent it:
  each of these reconciles ends in a conflict, which is returned at 340-345 before the
  wait; after a write that succeeded the wait gives up in five seconds; and none follows a
  goroutine's status write. In general evictions exceed the reconciles whose eviction or
  closing write missed by no more than the potential of the state, and, without the
  out-of-service strategy, misses exceed evictions by at most one
  (`Progress.EvictionsFollowMisses`).
- The lookup by uid returns neither an object nor an error for an empty list, and the
  absent object is then used. No live routine can meet the empty list; one that was
  cancelled after it last looked at its context can, and then the process dies
  (`Witnesses.EmptyListExactly`, `Witnesses.EmptyListExists`).
- A retry count of zero or less reports success, and lets pods be deleted, without the
  command ever running (`Retries.HonestExactly`, `Witnesses.NoAttemptNoFence`).
- The status probe of a template calls every ordinary failure of the command a timeout;
  its two messages for failures are never given (`Probes.ProbePassesExactly`,
  `Probes.TimeoutMessageRightExactly`). A command that is killed at its deadline reaches
  the code as such a failure too, since the runner returns its exit error
  (pkg/cli/cliexecuter.go:220-233); there the message is right.
- A node that vanishes does not stop the routine, so an object can end with a fence action
  that succeeded and a remediation that did not: False, True, False
  (`Witnesses.ReachableStatuses`).

Where the code and its texts disagree the model follows the code: an interrupted attempt
ends the retry loop at once (pkg/cli/cliexecuter.go:143-145, against the comment at 115);
values from a node's secret are not templated
(api/v1alpha1/fenceagentsremediation_params.go:400-407, against README.md:287); deletion is
looked at before the NHC timeout (internal/controller/fenceagentsremediation_controller.go:123-154,
against ARCHITECTURE.md:34); and the executor is not stopped when conditions are missing
(internal/controller/fenceagentsremediation_controller.go:130-132, against the comment at
137-138).

## Model

| member | source | states |
|---|---|---|
| `Safety.FenceBeforeEvict` | internal/controller/fenceagentsremediation_controller.go:219-258 | in every run whose objects ask for at least one attempt, pods are deleted, the out-of-service taint is added or Succeeded becomes True for a uid only after the fence command answered Ok for that uid, that only after it ran, and that only after a routine was started for it |
| `Safety.AtMostOneRunPerLifetime` | internal/controller/fenceagentsremediation_controller.go:191-217 | between two fence runs started for the same uid the process crashed, even with stale reads |
| `Theorems.NoLeakedTaint` | internal/controller/fenceagentsremediation_controller.go:264-313 | whenever the node carries the remediation or the out-of-service taint the object exists under the finalizer (and has that strategy), so once it is gone both taints are |
| `Theorems.NoLostUpdate` | pkg/utils/conditions.go:61-139 | every stored status is a known one, present in full or not at all; consecutive versions differ by at most one reason; LastUpdateTime changes exactly when a condition does, to the time of that write |
| `Witnesses.ReachableStatuses` | pkg/utils/conditions.go:61-134 | the condition triples a stored object can have are exactly none, TUU, TTU, FTT, FFF and FTF |
| `Theorems.UpdateConditionsNeverPanics` | pkg/utils/conditions.go:135-140 | wherever UpdateConditions is reached, LastUpdateTime is set when it is dereferenced |
| `Theorems.RoutineMap` | pkg/cli/cliexecuter.go:65-80 | every uncancelled goroutine is the one in the map under its uid, which is the current object's, so there is at most one |
| `Theorems.LiveRoutineFindsItsObject` | pkg/cli/cliexecuter.go:235-252 | while a routine is uncancelled its object is current and carries the finalizer, and its lookup by uid finds it |
| `Theorems.ResultsReachTheirIncarnation` | pkg/cli/cliexecuter.go:156-199 | a goroutine stores its result only uncancelled and only as the next version of the incarnation it was started for |
| `Theorems.InterruptionIsFinal` | internal/controller/fenceagentsremediation_controller.go:148-154 | once the status write of an NHC interruption has landed, in every continuation every later version says False three times, no routine of that uid is in the map, and none of its goroutines stores anything |
| `Theorems.DeletionLookupsDefined` | internal/controller/fenceagentsremediation_controller.go:125-139 | the deletion branch gets past its condition lookups exactly when there are conditions |
| `Theorems.WedgeIsForever` | internal/controller/fenceagentsremediation_controller.go:129-135 | a deleted object without conditions is never removed and never gets conditions, in any continuation |
| `Witnesses.WedgeExists` | internal/controller/fenceagentsremediation_controller.go:169-180 | such an object is reachable: the finalizer is written, the start is not, and it is deleted |
| `Witnesses.LostResultExists` | pkg/cli/cliexecuter.go:163-180 | the command can answer Ok, the goroutine end without recording it, and nothing in the operator move any more |
| `LostAnswers.LostStepExactly` | pkg/cli/cliexecuter.go:163-197 | a step of a live recording goroutine ends it exactly by dropping the answer (list error, write error, conflict on the last try) or by having it stored, never both; stored, the object shows it |
| `LostAnswers.AnswerLostExactly` | pkg/cli/cliexecuter.go:156-199 | over a whole run in which the process lives and the routine is not cancelled, the goroutine ends without its answer stored exactly when one of its steps dropped it |
| `Tries.FourConflicts` | pkg/cli/cliexecuter.go:156-199 | a goroutine has its answer refused by at most four conflicts, and gives up without any other error exactly at the fourth |
| `LostAnswers.SpentIsForever` | internal/controller/fenceagentsremediation_controller.go:191-217 | once the goroutine of a uid is over and no version says it was fenced, no continuation of the process stores that, runs a command or evicts for it, whatever is edited, deleted or read |
| `LostForGood.DroppedIsForGood` | pkg/cli/cliexecuter.go:163-199 | an answer dropped by any live goroutine of any reachable state is lost in every continuation of the process |
| `LostStarts.LostStartIsForever` | internal/controller/fenceagentsremediation_controller.go:169-192 | an object under the finalizer whose start is not recorded and not about to be is never started: no version opens the gate and no fence run begins, in any continuation, crashes included |
| `LostStarts.StartableExactly` | internal/controller/fenceagentsremediation_controller.go:169-180 | an object under the finalizer without conditions can still be started exactly while its start is about to be recorded |
| `Witnesses.LostStartExists` | internal/controller/fenceagentsremediation_controller.go:169-180 | such an object is reachable, alive |
| `Witnesses.EmptyListExactly` | pkg/cli/cliexecuter.go:235-240 | the empty list kills the process exactly when the cache shows no object, and then the routine was cancelled |
| `Witnesses.EmptyListExists` | pkg/cli/cliexecuter.go:235-240 | that state is reachable |
| `Witnesses.NoAttemptNoFence` | pkg/cli/cliexecuter.go:112-150 | with a retry count of zero an object reaches Succeeded True and its pods are deleted in a run in which no fence command ever ran |
| `Invariant.StepKeeps` | internal/controller/fenceagentsremediation_controller.go:85-313 | every step of the environment, the reconciler and the goroutines keeps the invariant |
| `Rounds.RoundDeletes` | internal/controller/fenceagentsremediation_controller.go:264-313 | one undisturbed reconcile of a deleted object with conditions removes it, stops its routine and leaves neither taint |
| `Rounds.DeletionCompletesExactly` | internal/controller/fenceagentsremediation_controller.go:123-143 | a deleted object goes away in an undisturbed reconcile exactly when it has conditions |
| `Rounds.RoundInterrupted` | internal/controller/fenceagentsremediation_controller.go:146-154 | an undisturbed reconcile of a timed-out object stops its routine and stores the interruption, nothing else |
| `Rounds.RoundNodeMissing` | internal/controller/fenceagentsremediation_controller.go:156-166 | with the node missing it stores that and nothing else; the routine is left alone |
| `Rounds.RoundStarts` | internal/controller/fenceagentsremediation_controller.go:168-180 | without the finalizer it stores the finalizer and then the start, in two versions |
| `Rounds.RoundLaunches` | internal/controller/fenceagentsremediation_controller.go:182-217 | through the open gate it taints the node and starts one routine with the object's retry count |
| `Rounds.RoundCompletes` | internal/controller/fenceagentsremediation_controller.go:219-258 | a fenced object ends at FTT with its routine removed and the node tainted, and exactly this is logged: the pods deleted, or the out-of-service taint added unless it was there, and then the success |
| `Rounds.QuietExactly` | internal/controller/fenceagentsremediation_controller.go:85-261 | the states an undisturbed reconcile leaves as they are, exactly, wedges included |
| `Rounds.StuckExactly` | pkg/cli/cliexecuter.go:87-199 | the operator has come to rest exactly when the object is quiet and every goroutine has ended |
| `Progress.FinitelyManyEffects` | internal/controller/fenceagentsremediation_controller.go:85-313 | between two disturbances, with API faults and conflicts, the steps that change the object, the node or a goroutine or delete pods are at most a bound on the state plus the reconciles whose eviction or closing status write failed or met a conflict |
| `Progress.PromptReadsBoundEvictions` | internal/controller/fenceagentsremediation_controller.go:93-261 | when every reconcile reads what is current and evictions and closing writes meet no API fault, those steps are bounded by the state alone, evictions included; the code does not see to such reads |
| `Progress.EvictionsFollowMisses` | internal/controller/fenceagentsremediation_controller.go:232-258 | where no version has the out-of-service strategy, evictions exceed the misses by at most the bound and misses exceed evictions by at most one, in every run between two disturbances |
| `EvictionLoops.EvictsExactly` | internal/controller/fenceagentsremediation_controller.go:219-235 | an undisturbed reconcile, whatever its cache shows, deletes pods exactly when the cache shows a live, fenced, unfinished object with a deleting strategy and the node is there |
| `EvictionLoops.EvictsForeverExactly` | internal/controller/fenceagentsremediation_controller.go:93-261 | from a reachable state between two reconciles, faultless reconciles alone delete the pods any number of times exactly when the cache shows such an object, and never otherwise |
| `EvictionLoops.UnseenEditEvictsForever` | internal/controller/fenceagentsremediation_controller.go:340-345 | with no success ever stored and one unseen edit, faultless reconciles delete the pods any number of times and change nothing else |
| `EvictionLoops.EvictionsUnbounded` | internal/controller/fenceagentsremediation_controller.go:219-258 | from a reachable state whose success is stored and not yet in the cache, faultless reconciles delete the pods any number of times and change nothing else |
| `Convergence.ComesToRest` | internal/controller/fenceagentsremediation_controller.go:85-261 | catching up, undisturbed reconciles and goroutine steps that get somewhere are at most twice the bound plus one in number, in any order, and none is left exactly at rest: cache current, goroutines ended, object quiet |
| `Convergence.RestIsReached` | pkg/cli/cliexecuter.go:87-199 | from every reachable state such turns lead to rest |
| `Success.Succeeds` | internal/controller/fenceagentsremediation_controller.go:182-258 | from a live object with the gate open, a node, buildable parameters and no run yet in this process, any turns without a fault in which the command answers Ok are bounded in number, and when none is left the object has succeeded and its workload is evicted |
| `Progress.StepSpends` | pkg/cli/cliexecuter.go:87-199 | every step of the operator takes one from the bound if it changes the object, the node or a goroutine or deletes pods, a stored result one more, and a miss gives one back |
| `Reconcilers.Reconciler.Reconcile` | internal/controller/fenceagentsremediation_controller.go:85-261 | whatever everyone else does meanwhile, one call is a run of the protocol with exactly one reconcile in it, carried to its end; short of a panic it returns an error exactly when one of its calls failed, the deferred status update included; a conflict over a taint to be removed asks for another try; for a live object its own Get returned, no error and no retry mean that what is stored now is that copy with the status its look at the node calls for, and for a deleted one, done means object and taints gone; a panic only for a deleted one with missing conditions |
| `Reconcilers.Reconciler.Handle` | internal/controller/fenceagentsremediation_controller.go:117-180 | without an error the copy and the look at the node select exactly one outcome, in the order deletion, timeout, missing node, finalizer, remediation, with the reason the deferred update stores; an error exactly when a call failed |
| `Reconcilers.Reconciler.Remediate` | internal/controller/fenceagentsremediation_controller.go:182-260 | an error exactly when a call failed, a refusal of the parameters that asks for a retry among them; otherwise, through the open gate, it leaves a routine running or met a refusal that asks for none; it completes exactly the fenced objects of a known strategy when no error is met, by deletion only with the pods deleted within the call |
| `Reconcilers.Reconciler.StartFencing` | internal/controller/fenceagentsremediation_controller.go:191-217 | a refused build is an error exactly when it asks for a retry and ends the reconcile quietly otherwise; a routine is running when it is neither |
| `Reconcilers.Reconciler.HandleFARDeletion` | internal/controller/fenceagentsremediation_controller.go:264-313 | taints off in order, then the finalizer; an error exactly when a call failed, another try exactly when a removal met a conflict; done means object and taints gone |
| `Reconcilers.Reconciler.UpdateStatus` | internal/controller/fenceagentsremediation_controller.go:334-346 | skipped for a deleted copy without finalizer; otherwise it fails exactly when the write met an error or a conflict, and without one the copy is what is stored |
| `Reconcilers.Reconciler.AppendTaint` | pkg/utils/taints.go:67-91 | without an error the job is settled; it reports an added taint exactly when its write of the node landed, and then the node carries it |
| `Reconcilers.Reconciler.RemoveTaint` | pkg/utils/taints.go:93-119 | without an error, or when the node is gone, the node does not carry the taint |
| `Goroutines.Goroutine.FenceAgentRoutine` | pkg/cli/cliexecuter.go:87-110 | from start to end the goroutine is a run of the protocol; it reports a stored result exactly when one of its writes landed, and changed nothing otherwise; what it stores is the verdict it came to record, on its own object, and with an attempt asked for that is a success only if the command answered Ok |
| `Goroutines.Goroutine.RunWithRetry` | pkg/cli/cliexecuter.go:112-154 | it leaves the goroutine where its two errors say, ended or about to record the verdict; a nil error after at least one attempt means an Ok answer |
| `Goroutines.Goroutine.UpdateStatusWithRetry` | pkg/cli/cliexecuter.go:156-199 | it reports a stored result exactly when one of its writes landed, with the verdict then on the routine's object; otherwise none of its writes changed anything, and it or the process has ended |
| `Goroutines.Goroutine.FindByUID` | pkg/cli/cliexecuter.go:235-252 | a version of the routine's own object, an end, or the crash on the empty list |
| `Goroutines.Goroutine.StoreResult` | pkg/cli/cliexecuter.go:254-268 | FenceAgentActionSucceeded is stored True exactly for a won verdict; a conflict is tried again while steps are left |
| `Retries.RunWithRetry` | pkg/cli/cliexecuter.go:112-154 | the loop computes the specification of its answers, calls the runner at most the retry count of times, and only after ordinary failures |
| `Retries.AttemptsDecide` | pkg/cli/cliexecuter.go:120-150 | the first answer that is not an ordinary failure decides; only cancellation is silent |
| `Retries.RetryReports` | pkg/cli/cliexecuter.go:87-110 | with at least one attempt, success is reported iff the last answer was Ok, a timeout iff it was an interruption, failure iff all attempts failed |
| `Retries.ReasonsExactly` | pkg/cli/cliexecuter.go:254-268 | success is written exactly for a nil error, a timeout for one that cut the command short, a failure for any other; over the attempts, a timeout exactly when the last was interrupted and a failure exactly when all failed |
| `Retries.HonestExactly` | pkg/cli/cliexecuter.go:112-150 | a reported success implies an Ok answer exactly for positive retry counts |
| `Retries.GoroutineRefinesRetry` | pkg/cli/cliexecuter.go:87-154 | the goroutine of the protocol, step by step, reaches what the loop reports |
| `Executers.Executer.AsyncExecute` | pkg/cli/cliexecuter.go:65-80 | starts one goroutine for a uid that is not in the map, else changes nothing; other uids keep theirs |
| `Executers.Executer.Exists` | pkg/cli/cliexecuter.go:202-207 | whether the uid is in the map |
| `Executers.Executer.Remove` | pkg/cli/cliexecuter.go:209-217 | cancels exactly the goroutine of that uid and forgets it; other uids keep their entries and goroutines |
| `Executers.RemoveInEitherOrder` | pkg/cli/cliexecuter.go:209-217 | two removals on an Executer end as in the other order |
| `Executers.StartAndRemoveInEitherOrder` | pkg/cli/cliexecuter.go:65-80 | starting one uid and removing another end as in the other order |
| `Executers.StartAndStop` | pkg/cli/cliexecuter.go:65-80 | starting a new uid and removing it leaves the map as it was and one more goroutine, cancelled |
| `StatusUpdates.RemediationStatus.UpdateConditions` | pkg/utils/conditions.go:50-143 | the edited list reads as the transition function says, LastUpdateTime with it; the entries that move carry the reason and the time of the call and the others stay; no kind is listed twice, and it panics exactly when it is said to |
| `StatusUpdates.SetReads` | pkg/utils/conditions.go:104-134 | setting one condition changes what is read of that one only |
| `TaintEdits.TaintExists` | pkg/utils/taints.go:23-30 | true iff some taint has that key and that effect |
| `TaintEdits.DeleteTaint` | pkg/utils/taints.go:33-44 | exactly the taints of another key or another effect, in order, each as it was; deleted iff there was one of both |
| `TaintEdits.EditLaws` | pkg/utils/taints.go:67-119 | appending and removing are idempotent, removing leaves no match, and removing what was appended restores the exact list |
| `TaintEdits.EditsKeepOthers` | pkg/utils/taints.go:67-119 | neither edit touches the taints of another key or of another effect: they stay as many and in order; removal leaves none of its own |
| `TaintEdits.JobKeepsForeign` | pkg/utils/taints.go:67-119 | none of the four node writes changes the ordered list of the taints other than the two of the operator, told by key and effect |
| `TaintEdits.JobWrites` | pkg/utils/taints.go:47-119 | of its own two taints a node write leaves what was there or one with the right value and time, or none |
| `TaintEdits.ForeignTaintsSurvive` | pkg/utils/taints.go:67-119 | through any run the taints on the node that differ from the two of the operator in key or effect are exactly what the other writers made them |
| `Params.BuildFenceAgentParams` | api/v1alpha1/fenceagentsremediation_params.go:332-356 | for every order the maps are walked in, the same map or a refusal of the same kind, whose error names a defect that is there |
| `Params.RefusedExactly` | api/v1alpha1/fenceagentsremediation_params.go:249-356 | it refuses exactly when there is a defect: an unreadable secret, a template, an unsupported action, a parameter defined twice, or none specific to a node |
| `Params.RetryExactly` | api/v1alpha1/fenceagentsremediation_params.go:332-356 | a refusal asks for a retry exactly when a secret named for the node cannot be read or a value of the shared one does not render |
| `Params.UnsupportedActionExactly` | api/v1alpha1/fenceagentsremediation_params.go:256-328 | unsupported action is a defect exactly when `action` or `--action` has a value other than empty, reboot and off in the shared parameters, the node's own or the secrets; parameters with one are refused for good |
| `Params.CollectAllSecretParams` | api/v1alpha1/fenceagentsremediation_params.go:371-411 | the rendered shared secret overridden by the node's secret, or an error when one cannot be read or rendered |
| `Params.ValidateFenceAgentParams` | api/v1alpha1/fenceagentsremediation_params.go:249-316 | accepts exactly valid actions, rendering templates, disjoint secrets and something specific to a node, and returns the merge |
| `Params.BuiltSources` | api/v1alpha1/fenceagentsremediation_params.go:249-316 | each built value is the node's inline one, else the rendered shared one, else the node secret's, else the rendered shared secret's, else the default action, and nothing else is built |
| `Params.BuiltDisjoint` | api/v1alpha1/fenceagentsremediation_params.go:293-306 | no parameter comes both inline and from a secret |
| `Params.BuiltActions` | api/v1alpha1/fenceagentsremediation_params.go:319-328 | `action` and `--action` are built only as reboot, off or empty, and `--action` is always there |
| `Params.GetNodeNamesFromSpec` | api/v1alpha1/fenceagentsremediation_params.go:234-246 | exactly the nodes named in either map, once each |
| `Params.ValidateFenceAgentForNodes` | api/v1alpha1/fenceagentsremediation_params.go:191-232 | accepts iff something is configured and every name tried builds |
| `Params.AdmittedExactly` | api/v1alpha1/fenceagentsremediation_params.go:191-246 | accepted iff shared or node parameters or a secret are given and the parameters build for every node named by a parameter or a secret, or for the placeholder when none is |
| `Params.AdmissionImpliesBuildable` | api/v1alpha1/fenceagentsremediation_params.go:332-368 | an accepted spec builds for every node it names, when the remediation carries that name in its annotation or, without one, as its own, while its secrets stay the same; a refused one fails for a name that was tried |
| `Argv.MapToSliceConvert` | internal/controller/fenceagentsremediation_controller.go:316-322 | in every order, one token a parameter, name=value or the bare name for an empty value, and they read back as the parameter map exactly when no name contains an equals sign |
| `Argv.TokenReadsBack` | internal/controller/fenceagentsremediation_controller.go:367-375 | a token splits at its first equals sign into its name and value |
| `Argv.StatusCommand` | internal/controller/fenceagentsremediationtemplate_controller.go:268-279 | `--action status` once, every other parameter once, no action parameter of the node |
| `Probes.RunFenceStatus` | internal/controller/fenceagentsremediationtemplate_controller.go:262-317 | the verdict is that on a single run of the status command of the parameters: passed iff it succeeded and its output says on, not on iff it succeeded and does not, a timeout in every other case |
| `Probes.ProbePassesExactly` | internal/controller/fenceagentsremediationtemplate_controller.go:283-316 | it passes iff the command succeeded and said the node is on; every failure of the command is called a timeout, and the two failure messages are never given |
| `Probes.SaysOnExactly` | internal/controller/fenceagentsremediationtemplate_controller.go:304-308 | the output says on iff "status: on" or "status:on" is in it or "on" comes first after white space, in any case |
| `Samples.SortStrings` | internal/controller/fenceagentsremediationtemplate_controller.go:132-137 | the same names, each as often, in order |
| `Samples.LessExactly` | internal/controller/fenceagentsremediationtemplate_controller.go:132-137 | names are ordered by their first difference, and a proper prefix comes first |
| `Samples.AscendingUnique` | internal/controller/fenceagentsremediationtemplate_controller.go:132-162 | a set of names has one ascending list, so map order and sorting algorithm do not matter |
| `Samples.SampleSizeIs` | internal/controller/fenceagentsremediationtemplate_controller.go:234-252 | the least number of nodes that is at least the share asked for, or the capped count; zero exactly when zero was asked for |
| `Samples.SamplesNest` | internal/controller/fenceagentsremediationtemplate_controller.go:140-162 | a larger percentage or count selects a longer prefix of the same list |
| `Templates.TemplateStatus.ValidateNodes` | internal/controller/fenceagentsremediationtemplate_controller.go:183-208 | the first selected node without a verdict gets one, and a requeue is asked for iff there was one |
| `Templates.TemplateStatus.Validate` | internal/controller/fenceagentsremediationtemplate_controller.go:119-232 | one reconcile computes the specified next status from the node names of the spec, whatever order they are collected in |
| `Templates.EditStartsOver` | internal/controller/fenceagentsremediationtemplate_controller.go:124-181 | a verdict of another generation is dropped: after one reconcile it is unknown for the new generation, and only the first node has an entry, what its probe said |
| `Templates.NothingToValidate` | internal/controller/fenceagentsremediationtemplate_controller.go:132-161 | a sample of nothing clears every result, a malformed one fails the template at this generation and keeps the entries, no nodes leave all as it is; none asks for another reconcile |
| `Templates.HalfwayFirst` | internal/controller/fenceagentsremediationtemplate_controller.go:183-208 | after k verdicts the next node is the k-th, and no node both failed and passed |
| `Templates.RoundVerdict` | internal/controller/fenceagentsremediationtemplate_controller.go:119-232 | a round of a generation without a verdict takes exactly sample size plus one reconciles, each but the last asks for another and leaves the verdict unknown; the condition ends, for that generation, True iff every sampled node passed, and exactly the failures are reported, with what their probes said |
| `Templates.FinishedStays` | internal/controller/fenceagentsremediationtemplate_controller.go:126-129 | a verdict of this generation stays as it is through any number of reconciles |

## Left out

- Safety.FenceBeforeEvict: holds for runs whose objects ask for at least one attempt; an evicted pod is one log entry, since what deleting the pods of a node does is a library's.
- Theorems.NoLeakedTaint: one remediation per node, and no one but the operator adds its two taints.
- Rounds.QuietExactly: speaks of one undisturbed, fault-free reconcile that reads the current object; reconciles with faults and interference are covered by the invariant and by Progress.
- Progress.FinitelyManyEffects: counts steps, not time, and ends where the process dies of the empty list, which counts as a disturbance.
- Reconcilers.Reconciler.UpdateStatus: the wait of up to five seconds for the cache after a successful write is not a step of the model; it is an assumption of no result.
- Progress.PromptReadsBoundEvictions: assumes that every reconcile reads the current version, which nothing in the code ensures.
- Reconcilers.Reconciler.Reconcile: a process that dies in the middle of a reconcile is a step of the machine, not of this method.
- Goroutines.Goroutine.FenceAgentRoutine: a crash of the process in the middle of the routine is a step of the machine, not of this method, unless the routine causes it.
- Executers.Executer.AsyncExecute: the lock is not modelled; each operation is one step, as the lock makes it. A goroutine is shown where it starts, its progress being the protocol's.
- Params.BuildFenceAgentParams: with several defects the one reported depends on map order; a nil and an empty map of node secrets are the same, and neither is accepted alone.
- Params.BuiltActions: assumes that text without a template renders to itself.
- Samples.SampleSizeIs: the sample is already parsed into a count, a percentage or neither, and the rounding up is exact.
- Templates.RoundVerdict: the status read is the one last written, and the merge patch lands on it.
- Probes.ProbePassesExactly: letter case is that of ASCII letters.
- Go's text/template: rendering is any function of value and node name that gives a text or an error.
- Objects with finalizers of others, and objects deleted without the operator's finalizer that linger.
- Several object names in one run of the machine; reconciles of different names share only the routine map, whose operations on different uids are shown to commute.
- Messages of conditions, events, logging and metrics.
- Webhooks for agent name, strategy and shared secret defaults, Kubernetes version parsing: short case tables.
- Real time: backoff durations, the timeout of a command and the age of timestamps; a timestamp is the number of the version that carries it.
- Start-up, leader election (a failover is the crash step), TLS, generated code.
