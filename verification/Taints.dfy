module Taints {
  import opened Basics

  datatype Effect = NoSchedule | PreferNoSchedule | NoExecute
  datatype Taint = Taint(key: string, val: string, effect: Effect, timeAdded: Option<nat>)

  const REMEDIATION_KEY := "remediation.medik8s.io/fence-agents-remediation"
  const OUT_OF_SERVICE_KEY := "node.kubernetes.io/out-of-service"

  function RemediationTaint(): Taint { Taint(REMEDIATION_KEY, "", NoSchedule, None) }
  function OutOfServiceTaint(now: nat): Taint { Taint(OUT_OF_SERVICE_KEY, "nodeshutdown", NoExecute, Some(now)) }

  // Taints are identified by key and effect, whatever their value.
  predicate Matches(a: Taint, b: Taint) { a.key == b.key && a.effect == b.effect }

  predicate Has(ts: seq<Taint>, t: Taint) { exists i :: 0 <= i < |ts| && Matches(ts[i], t) }

  // The taints that are not t, in order.
  function Without(ts: seq<Taint>, t: Taint): seq<Taint> {
    if ts == [] then []
    else if Matches(ts[|ts| - 1], t) then Without(ts[..|ts| - 1], t)
    else Without(ts[..|ts| - 1], t) + [ts[|ts| - 1]]
  }

  function Appended(ts: seq<Taint>, t: Taint, now: nat): seq<Taint> {
    if Has(ts, t) then ts else ts + [t.(timeAdded := Some(now))]
  }

  lemma HasAppended(ts: seq<Taint>, t: Taint, u: Taint)
    ensures Has(ts + [t], u) <==> Has(ts, u) || Matches(t, u)
  {
    var more := ts + [t];
    if Has(ts, u) {
      var i :| 0 <= i < |ts| && Matches(ts[i], u);
      assert Matches(more[i], u);
    }
    if Matches(t, u) { assert Matches(more[|ts|], u); }
    if Has(more, u) {
      var i :| 0 <= i < |more| && Matches(more[i], u);
      assert i < |ts| ==> Matches(ts[i], u);
    }
  }

  lemma {:induction false} HasWithout(ts: seq<Taint>, t: Taint, u: Taint)
    ensures Has(Without(ts, t), u) <==> Has(ts, u) && !Matches(t, u)
  {
    if ts != [] {
      var front, last := ts[..|ts| - 1], ts[|ts| - 1];
      HasWithout(front, t, u);
      assert ts == front + [last];
      HasAppended(front, last, u);
      HasAppended(Without(front, t), last, u);
    }
  }
}
