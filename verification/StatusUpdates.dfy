// pkg/utils/conditions.go in its own form: the conditions are a list that is edited in place.
module StatusUpdates {
  import opened Basics
  import opened Conditions

  datatype Condition = Condition(kind: Kind, status: Tri, reason: Reason, changed: nat)

  // The first condition of a kind, or the length of the list.
  function First(cs: seq<Condition>, k: Kind): (i: nat)
    ensures i <= |cs|
    ensures i < |cs| ==> cs[i].kind == k
    ensures forall j :: 0 <= j < i ==> cs[j].kind != k
  {
    if cs == [] then 0
    else if cs[0].kind == k then 0
    else
      assert forall j :: 0 < j < |cs| ==> cs[j] == cs[1..][j - 1];
      1 + First(cs[1..], k)
  }

  function Reads(cs: seq<Condition>, k: Kind): Option<Tri> {
    if First(cs, k) < |cs| then Some(cs[First(cs, k)].status) else None
  }

  function Summary(cs: seq<Condition>, stamp: Option<nat>): Status {
    Status(Reads(cs, Processing), Reads(cs, FenceAgentActionSucceeded), Reads(cs, Succeeded), stamp)
  }

  // No kind is listed twice.
  ghost predicate Distinct(cs: seq<Condition>) {
    forall i, j :: 0 <= i < j < |cs| ==> cs[i].kind != cs[j].kind
  }

  // Setting a condition replaces the first of its kind or appends it; LastTransitionTime
  // moves only with the status.
  function Set(cs: seq<Condition>, k: Kind, t: Tri, reason: Reason, now: nat): seq<Condition> {
    var i := First(cs, k);
    if i == |cs| then cs + [Condition(k, t, reason, now)]
    else cs[i := Condition(k, t, reason, if cs[i].status == t then cs[i].changed else now)]
  }

  lemma FirstIs(cs: seq<Condition>, k: Kind, i: nat)
    requires i <= |cs| && (i < |cs| ==> cs[i].kind == k)
    requires forall j :: 0 <= j < i ==> cs[j].kind != k
    ensures First(cs, k) == i
  {
  }

  // The entry of a kind, if it has one.
  function EntryOf(cs: seq<Condition>, k: Kind): Option<Condition> {
    if First(cs, k) < |cs| then Some(cs[First(cs, k)]) else None
  }

  lemma SetEntry(cs: seq<Condition>, k: Kind, t: Tri, reason: Reason, now: nat, other: Kind)
    ensures EntryOf(Set(cs, k, t, reason, now), other) ==
            if other != k then EntryOf(cs, other)
            else Some(Condition(k, t, reason,
                                if Reads(cs, k) == Some(t) then EntryOf(cs, k).value.changed else now))
  {
    var out := Set(cs, k, t, reason, now);
    var i := First(cs, k);
    if other == k {
      FirstIs(out, k, i);
    } else {
      var f := First(cs, other);
      if f == |cs| { FirstIs(out, other, |out|); } else { FirstIs(out, other, f); }
    }
  }

  lemma SetReads(cs: seq<Condition>, k: Kind, t: Tri, reason: Reason, now: nat, other: Kind)
    ensures Reads(Set(cs, k, t, reason, now), other) == if other == k then Some(t) else Reads(cs, other)
  {
    var out := Set(cs, k, t, reason, now);
    var i := First(cs, k);
    if other == k {
      FirstIs(out, k, i);
    } else {
      var f := First(cs, other);
      if f == |cs| { FirstIs(out, other, |out|); } else { FirstIs(out, other, f); }
    }
  }

  lemma SetDistinct(cs: seq<Condition>, k: Kind, t: Tri, reason: Reason, now: nat)
    requires Distinct(cs)
    ensures Distinct(Set(cs, k, t, reason, now))
  {}

  class RemediationStatus {
    var conditions: seq<Condition>
    var lastUpdateTime: Option<nat>

    constructor ()
      ensures conditions == [] && lastUpdateTime == None
    {
      conditions, lastUpdateTime := [], None;
    }

    function Read(): Status
      reads this
    {
      Summary(conditions, lastUpdateTime)
    }

    method FindStatusCondition(k: Kind) returns (i: nat)
      ensures i == First(conditions, k)
    {
      i := 0;
      while i < |conditions| && conditions[i].kind != k
        invariant i <= |conditions|
        invariant forall j :: 0 <= j < i ==> conditions[j].kind != k
      {
        i := i + 1;
      }
      FirstIs(conditions, k, i);
    }

    method IsStatusConditionPresentAndEqual(k: Kind, t: Tri) returns (b: bool)
      ensures b <==> Reads(conditions, k) == Some(t)
    {
      var i := FindStatusCondition(k);
      b := i < |conditions| && conditions[i].status == t;
    }

    method SetStatusCondition(k: Kind, t: Tri, reason: Reason, now: nat)
      modifies this`conditions
      ensures conditions == Set(old(conditions), k, t, reason, now)
    {
      var i := FindStatusCondition(k);
      if i == |conditions| {
        conditions := conditions + [Condition(k, t, reason, now)];
      } else {
        var changed := if conditions[i].status == t then conditions[i].changed else now;
        conditions := conditions[i := Condition(k, t, reason, changed)];
      }
    }

    // One of the three steps: a requested condition that differs is set.
    method Request(k: Kind, wanted: Option<Tri>, reason: Reason, now: nat) returns (changed: bool)
      modifies this`conditions
      ensures changed <==> wanted.Some? && Reads(old(conditions), k) != wanted
      ensures conditions == if changed then Set(old(conditions), k, wanted.value, reason, now) else old(conditions)
    {
      changed := false;
      if wanted.Some? {
        var same := IsStatusConditionPresentAndEqual(k, wanted.value);
        if !same {
          SetStatusCondition(k, wanted.value, reason, now);
          changed := true;
        }
      }
    }

    // The new conditions and LastUpdateTime are exactly those of the transition function,
    // conditions it leaves alone keep their entries, and the final log line panics
    // exactly when the transition function says so.
    method UpdateConditions(reason: Reason, now: nat) returns (panicked: bool)
      modifies this
      ensures Read() == Updated(reason, old(Read()), now)
      ensures panicked <==> Panics(reason, old(Read()))
      ensures old(Distinct(conditions)) ==> Distinct(conditions)
      ensures panicked ==> conditions == old(conditions)
      // An entry that moves says why and when; every other stays as it was.
      ensures forall k :: EntryOf(conditions, k) ==
                          if Wanted(reason, k).Some? && Reads(old(conditions), k) != Wanted(reason, k)
                          then Some(Condition(k, Wanted(reason, k).value, reason, now))
                          else EntryOf(old(conditions), k)
    {
      hide Set, Distinct, Reads, EntryOf;
      if reason.Unrecognised? { return false; }
      ghost var before := conditions;
      var c1 := Request(Processing, Wanted(reason, Processing), reason, now);
      ghost var mid1 := conditions;
      var c2 := Request(FenceAgentActionSucceeded, Wanted(reason, FenceAgentActionSucceeded), reason, now);
      ghost var mid2 := conditions;
      var c3 := Request(Succeeded, Wanted(reason, Succeeded), reason, now);
      if c1 || c2 || c3 { lastUpdateTime := Some(now); }
      panicked := lastUpdateTime.None?;
      Requested(before, mid1, Processing, reason, now);
      Requested(mid1, mid2, FenceAgentActionSucceeded, reason, now);
      Requested(mid2, conditions, Succeeded, reason, now);
    }
  }

  lemma Requested(before: seq<Condition>, after: seq<Condition>, k: Kind, reason: Reason, now: nat)
    requires var w := Wanted(reason, k);
             after == if w.Some? && Reads(before, k) != w then Set(before, k, w.value, reason, now) else before
    ensures Reads(after, k) == Over(Wanted(reason, k), Reads(before, k))
    ensures forall other :: other != k ==> Reads(after, other) == Reads(before, other)
    ensures Distinct(before) ==> Distinct(after)
    ensures EntryOf(after, k) ==
            if Wanted(reason, k).Some? && Reads(before, k) != Wanted(reason, k)
            then Some(Condition(k, Wanted(reason, k).value, reason, now)) else EntryOf(before, k)
    ensures forall other :: other != k ==> EntryOf(after, other) == EntryOf(before, other)
  {
    hide Set, Distinct;
    var w := Wanted(reason, k);
    if w.Some? && Reads(before, k) != w {
      if Distinct(before) { SetDistinct(before, k, w.value, reason, now); }
      forall other ensures Reads(after, other) == if other == k then w else Reads(before, other) {
        SetReads(before, k, w.value, reason, now, other);
      }
      forall other ensures EntryOf(after, other) ==
                           if other == k then Some(Condition(k, w.value, reason, now)) else EntryOf(before, other)
      {
        SetEntry(before, k, w.value, reason, now, other);
      }
    }
  }
}
