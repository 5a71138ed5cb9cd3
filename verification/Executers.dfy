// pkg/cli/cliexecuter.go: the Executer with its map of routines.  Its operations are
// proved against the functions the protocol uses.
module Executers {
  import opened Basics
  import opened Executions

  // A goroutine and the cancel function of its context.
  class Routine {
    ghost const id: nat
    const uid: Uid
    const retries: int
    var cancelled: bool

    constructor (ghost id: nat, uid: Uid, retries: int)
      ensures this.id == id && this.uid == uid && this.retries == retries && !cancelled
    {
      this.id, this.uid, this.retries, cancelled := id, uid, retries, false;
    }
  }

  class Executer {
    var routines: map<Uid, Routine>
    // Every goroutine this Executer has started.
    ghost var started: seq<Routine>

    ghost predicate Valid()
      reads this, started
    {
      && (forall i :: 0 <= i < |started| ==> started[i].id == i)
      && (forall u :: u in routines ==>
            routines[u].id < |started| && started[routines[u].id] == routines[u] && routines[u].uid == u &&
            !routines[u].cancelled)
      && (forall i :: 0 <= i < |started| && !started[i].cancelled ==>
            started[i].uid in routines && routines[started[i].uid] == started[i])
    }

    // What the protocol keeps of an Executer; goroutines are shown where they start.
    ghost function View(): Exec
      reads this, started
    {
      Exec(map u | u in routines :: routines[u].id,
           seq(|started|, i requires 0 <= i < |started| reads this, started =>
             Go(started[i].uid, started[i].cancelled, Attempt(started[i].retries))))
    }

    lemma Corresponding()
      requires Valid()
      ensures Corresponds(View())
    {}

    constructor ()
      ensures Valid() && View() == NOTHING_RUNNING && started == []
    {
      routines, started := map[], [];
    }

    method Exists(uid: Uid) returns (exist: bool)
      requires Valid()
      ensures exist <==> uid in View().routines
    {
      exist := uid in routines;
    }

    method AsyncExecute(uid: Uid, retries: int)
      requires Valid()
      modifies this
      ensures Valid() && View() == Launched(old(View()), uid, retries)
      ensures old(started) <= started && fresh(started[|old(started)|..])
      ensures uid in old(routines) ==> routines == old(routines) && started == old(started)
      ensures uid !in old(routines) ==> uid in routines && fresh(routines[uid])
      ensures forall v :: v != uid ==> (v in routines <==> v in old(routines))
      ensures forall v :: v != uid && v in routines ==> routines[v] == old(routines[v])
    {
      if uid in routines { return; }
      var routine := new Routine(|started|, uid, retries);
      routines := routines[uid := routine];
      started := started + [routine];
    }

    method Remove(uid: Uid)
      requires Valid()
      modifies this, if uid in routines then {routines[uid]} else {}
      ensures Valid() && View() == Removed(old(View()), uid)
      ensures started == old(started)
      // It cancels every goroutine of that uid and leaves those of other uids alone.
      ensures forall i :: 0 <= i < |started| ==>
                started[i].cancelled == (old(started[i].cancelled) || started[i].uid == uid)
      ensures forall v :: v in routines <==> v in old(routines) && v != uid
      ensures forall v :: v in routines ==> routines[v] == old(routines[v])
    {
      if uid in routines {
        var routine := routines[uid];
        routine.cancelled := true;
        routines := routines - {uid};
      }
    }
  }

  // ---------------------------------------------------------------- what the operations mean

  // Operations on different uids commute.
  lemma RemovesCommute(e: Exec, u: Uid, v: Uid)
    requires Corresponds(e)
    ensures Removed(Removed(e, u), v) == Removed(Removed(e, v), u)
  {}

  lemma LaunchRemoveCommute(e: Exec, u: Uid, n: int, v: Uid)
    requires Corresponds(e) && u != v
    ensures Removed(Launched(e, u, n), v) == Launched(Removed(e, v), u, n)
  {}

  // Removing two uids leaves an Executer as removing them in the other order does.
  method RemoveInEitherOrder(e: Executer, u: Uid, v: Uid)
    requires e.Valid()
    modifies e, e.routines.Values
    ensures e.Valid() && e.View() == Removed(Removed(old(e.View()), v), u)
  {
    e.Corresponding();
    RemovesCommute(e.View(), u, v);
    e.Remove(u);
    e.Remove(v);
  }

  // Starting one uid and then removing another is removing first and then starting.
  method StartAndRemoveInEitherOrder(e: Executer, u: Uid, n: int, v: Uid)
    requires e.Valid() && u != v
    modifies e, e.routines.Values
    ensures e.Valid() && e.View() == Launched(Removed(old(e.View()), v), u, n)
  {
    e.Corresponding();
    LaunchRemoveCommute(e.View(), u, n, v);
    e.AsyncExecute(u, n);
    e.Remove(v);
  }

  // Starting a new uid and removing it leaves the map as it was, with one more goroutine, cancelled.
  method StartAndStop(e: Executer, u: Uid, n: int)
    requires e.Valid() && u !in e.View().routines
    modifies e, e.routines.Values
    ensures e.Valid()
    ensures e.View() == Exec(old(e.View()).routines, old(e.View()).gos + [Go(u, true, Attempt(n))])
  {
    e.Corresponding();
    LaunchThenRemove(e.View(), u, n);
    e.AsyncExecute(u, n);
    e.Remove(u);
  }

  // Starting a uid and removing it leaves the map as it was, with one more goroutine, cancelled.
  lemma LaunchThenRemove(e: Exec, u: Uid, n: int)
    requires Corresponds(e) && u !in e.routines
    ensures Removed(Launched(e, u, n), u) == Exec(e.routines, e.gos + [Go(u, true, Attempt(n))])
  {}
}
