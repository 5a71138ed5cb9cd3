// What the stored versions of the object satisfy, and what follows for versions far apart.
module History {
  import opened Basics
  import opened Conditions
  import opened Executions
  import opened Protocol

  type Versions = seq<Option<CR>>

  // b is what some reason makes of a at that time, or a.
  ghost predicate StatusFollows(a: Status, b: Status, now: nat) {
    a == b || exists reason: Reason :: b == Updated(reason, a, now)
  }

  predicate Shut(st: Status) { st.Is(FenceAgentActionSucceeded, True) }
  predicate Open(st: Status) { st.Triple(True, Unknown, Unknown) }

  ghost predicate SoundVersion(cr: CR, i: nat) {
    && cr.uid <= i
    && Known(cr.status)
    && (cr.status.stamp.Some? ==> cr.status.stamp.value <= i)
    && (cr.deleting ==> cr.finalizer)
    && (Open(cr.status) || Shut(cr.status) ==> cr.finalizer)
  }

  // h[i + 1] is a legal successor of h[i]: a new incarnation, a removal, or an
  // update that forgets nothing and moves the conditions by at most one reason.
  ghost predicate Follows(h: Versions, i: nat)
    requires i + 1 < |h|
  {
    if h[i].None? then
      h[i + 1].Some? && h[i + 1].value.uid == i + 1 && h[i + 1].value.status == EMPTY &&
      !h[i + 1].value.finalizer && !h[i + 1].value.timedOut
    else if h[i + 1].None? then
      h[i].value.finalizer ==> h[i].value.deleting
    else
      var a, b := h[i].value, h[i + 1].value;
      && b.uid == a.uid && b.strategy == a.strategy
      && (a.deleting ==> b.deleting)
      && (a.timedOut ==> b.timedOut)
      && (a.finalizer ==> b.finalizer)
      && (a.finalizer != b.finalizer ==> a.status == b.status)
      && StatusFollows(a.status, b.status, i + 1)
      // Remediation starts only right after the finalizer was written.
      && (Open(b.status) && !Open(a.status) ==>
            0 < i && h[i - 1].Some? && h[i - 1].value.uid == a.uid && !h[i - 1].value.finalizer)
  }

  ghost predicate Sound(h: Versions) {
    && 0 < |h| && h[0].None?
    && (forall i :: 0 <= i < |h| && h[i].Some? ==> SoundVersion(h[i].value, i))
    && (forall i {:trigger Follows(h, i)} :: 0 <= i < |h| - 1 ==> Follows(h, i))
  }

  lemma Extend(h: Versions, v: Option<CR>)
    requires Sound(h)
    requires v.Some? ==> SoundVersion(v.value, |h|)
    requires Follows(h + [v], |h| - 1)
    ensures Sound(h + [v])
  {
    var k := h + [v];
    forall i | 0 <= i < |k| - 1 ensures Follows(k, i) {
      if i < |h| - 1 { assert Follows(h, i); }
    }
  }

  // b is a later version of the same incarnation as a.
  ghost predicate Grown(a: CR, b: CR) {
    && b.uid == a.uid && b.strategy == a.strategy
    && (a.deleting ==> b.deleting)
    && (a.timedOut ==> b.timedOut)
    && (a.finalizer ==> b.finalizer)
    && (!a.status.Blank() ==> !b.status.Blank())
  }

  lemma {:induction false} SameLife(h: Versions, i: nat, j: nat)
    requires Sound(h) && i <= j < |h|
    requires h[i].Some? && h[j].Some? && h[i].value.uid == h[j].value.uid
    ensures forall k :: i <= k <= j ==> h[k].Some? && Grown(h[i].value, h[k].value) && Grown(h[k].value, h[j].value)
    decreases j - i
  {
    if i < j {
      assert Follows(h, j - 1);
      assert SoundVersion(h[i].value, i);
      SameLife(h, i, j - 1);
      assert Grown(h[j - 1].value, h[j].value);
    }
  }

  // An incarnation that is known to carry the finalizer at c and whose removal c would
  // have seen coming is still the current one.
  lemma {:induction false} StillCurrent(h: Versions, c: nat, j: nat)
    requires Sound(h) && c <= j < |h|
    requires h[c].Some? && h[c].value.finalizer && !h[c].value.deleting
    requires Drained(h, c)
    ensures h[j].Some? && h[j].value.uid == h[c].value.uid && h[j].value.finalizer
    decreases j
  {
    if c < j {
      StillCurrent(h, c, j - 1);
      assert Follows(h, j - 1);
    }
  }

  // Whenever an object left with its finalizer dropped, the cache had already shown it deleting.
  ghost predicate Drained(h: Versions, cache: nat) {
    forall g {:trigger h[g]} ::
      0 < g < |h| && h[g].None? && h[g - 1].Some? && h[g - 1].value.finalizer ==> g - 1 <= cache
  }

  // From version c on, uid can never again be read with the fence gate open.
  ghost predicate Past(h: Versions, c: nat, uid: Uid)
    requires c < |h|
  {
    || h[c].None?
    || h[c].value.uid != uid
    || h[c].value.deleting
    || h[c].value.timedOut
    || Barred(h, c)
  }

  ghost predicate Barred(h: Versions, c: nat)
    requires c < |h|
  {
    && h[c].Some? && !Open(h[c].value.status) && h[c].value.finalizer
    && 0 < c && h[c - 1].Some? && h[c - 1].value.uid == h[c].value.uid && h[c - 1].value.finalizer
  }

  lemma ShutIsBarred(h: Versions, c: nat)
    requires Sound(h) && c < |h| && h[c].Some? && Shut(h[c].value.status)
    ensures Barred(h, c)
  {
    assert SoundVersion(h[c].value, c);
    assert Follows(h, c - 1);
  }

  lemma {:induction false} PastStays(h: Versions, c: nat, d: nat, uid: Uid)
    requires Sound(h) && uid <= c <= d < |h| && Past(h, c, uid)
    ensures Past(h, d, uid)
    decreases d
  {
    if c < d {
      PastStays(h, c, d - 1, uid);
      assert Follows(h, d - 1);
      if h[d - 1].Some? { assert SoundVersion(h[d - 1].value, d - 1); }
    }
  }
}
