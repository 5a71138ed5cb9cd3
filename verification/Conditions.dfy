// pkg/utils/conditions.go: the condition transition shared by the reconciler and the fence goroutine.
module Conditions {
  import opened Basics

  datatype Reason =
    | NodeNotFound
    | InterruptedByNHC
    | Started
    | FenceAgentSucceeded
    | FenceAgentFailed
    | FenceAgentTimedOut
    | FinishedSuccessfully
    | Unrecognised

  datatype Kind = Processing | FenceAgentActionSucceeded | Succeeded

  // The status of a remediation, reduced to what the code reads: one entry per
  // condition type (None when absent) and LastUpdateTime.
  datatype Status = Status(
    processing: Option<Tri>,
    fenced: Option<Tri>,
    succeeded: Option<Tri>,
    stamp: Option<nat>)
  {
    function Get(k: Kind): Option<Tri> {
      match k
      case Processing => processing
      case FenceAgentActionSucceeded => fenced
      case Succeeded => succeeded
    }
    predicate Is(k: Kind, t: Tri) {
      Get(k) == Some(t)
    }
    predicate SameConditions(other: Status) {
      processing == other.processing && fenced == other.fenced && succeeded == other.succeeded
    }
    predicate Blank() {
      processing.None? && fenced.None? && succeeded.None?
    }
    predicate Complete() {
      processing.Some? && fenced.Some? && succeeded.Some?
    }
    predicate Triple(p: Tri, f: Tri, s: Tri) {
      processing == Some(p) && fenced == Some(f) && succeeded == Some(s)
    }
  }

  const EMPTY := Status(None, None, None, None)

  // What a reason asks for; None leaves a condition alone (the empty string in the source).
  function Wanted(reason: Reason, k: Kind): Option<Tri> {
    match reason
    case NodeNotFound | InterruptedByNHC | FenceAgentFailed | FenceAgentTimedOut => Some(False)
    case Started => if k == Processing then Some(True) else Some(Unknown)
    case FenceAgentSucceeded => if k == FenceAgentActionSucceeded then Some(True) else None
    case FinishedSuccessfully =>
      if k == Processing then Some(False) else if k == Succeeded then Some(True) else None
    case Unrecognised => None
  }

  function Over(wanted: Option<Tri>, have: Option<Tri>): Option<Tri> {
    if wanted.Some? then wanted else have
  }

  function Moved(reason: Reason, st: Status): Status {
    st.(processing := Over(Wanted(reason, Processing), st.processing),
        fenced := Over(Wanted(reason, FenceAgentActionSucceeded), st.fenced),
        succeeded := Over(Wanted(reason, Succeeded), st.succeeded))
  }

  // The status after UpdateConditions; the stamp moves only when a condition did.
  function Updated(reason: Reason, st: Status, now: nat): Status {
    if Moved(reason, st) == st then st else Moved(reason, st).(stamp := Some(now))
  }

  // The log call at the end dereferences LastUpdateTime, which is nil when no
  // condition has ever been written and none is written now.
  predicate Panics(reason: Reason, st: Status) {
    reason != Unrecognised && Moved(reason, st) == st && st.stamp.None?
  }

  // The statuses a stored remediation can have.
  predicate Known(st: Status) {
    || st == EMPTY
    || (st.stamp.Some? &&
        (st.Triple(True, Unknown, Unknown) || st.Triple(True, True, Unknown) ||
         st.Triple(False, True, True) || st.Triple(False, False, False) ||
         st.Triple(False, True, False)))
  }
}
