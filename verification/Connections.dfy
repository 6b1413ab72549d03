/** The write-admission gate and the accounting of tracked database connections. */
module Connections {
  import opened Prelude

  /** Atomically closes new writer admission while existing units of work drain. */
  class WriteAdmissionGate {
    var accepting: bool
    var active: nat

    constructor ()
      ensures accepting && active == 0
    {
      accepting, active := true, 0;
    }

    method Enter() returns (admitted: bool)
      modifies this
      ensures admitted == old(accepting) && accepting == old(accepting)
      ensures active == old(active) + (if admitted then 1 else 0)
    {
      admitted := accepting;
      if admitted {
        active := active + 1;
      }
    }

    /** Reports an underflow instead of going below zero. */
    method Exit() returns (ok: bool)
      modifies this
      ensures ok == (old(active) > 0) && accepting == old(accepting)
      ensures active == if ok then old(active) - 1 else 0
    {
      ok := active > 0;
      if ok {
        active := active - 1;
      }
    }

    method Quiesce()
      modifies this
      ensures !accepting && active == old(active)
    {
      accepting := false;
    }

    /** Refused while any writer is active. */
    method Reopen() returns (ok: bool)
      modifies this
      ensures ok == (active == 0) && active == old(active) && accepting == (ok || old(accepting))
    {
      ok := active == 0;
      if ok {
        accepting := true;
      }
    }
  }

  /* ---- Connection accounting ---- */

  datatype Connection = Connection(inTransaction: bool, closed: bool)

  datatype Counters = Counters(open: nat, active: nat)

  /** Every tracked connection ever opened, with the shared counters. */
  datatype Fleet = Fleet(connections: map<Id, Connection>, counters: Counters)

  /** What a tracked connection does; every statement, even one that raises, ends in or out of a transaction. */
  datatype Event = Opened(id: Id) | Executed(id: Id, inTransaction: bool) | Closed(id: Id)

  /** `None` is the runtime failure for a counter about to go below zero. */
  function CountOpened(c: Counters): Counters { c.(open := c.open + 1) }

  function CountTransition(c: Counters, before: bool, after: bool): Option<Counters> {
    if before == after then Some(c)
    else if after then Some(c.(active := c.active + 1))
    else if c.active == 0 then None
    else Some(c.(active := c.active - 1))
  }

  function CountClosed(c: Counters, wasInTransaction: bool): Option<Counters> {
    if c.open == 0 || (wasInTransaction && c.active == 0) then None
    else Some(Counters(c.open - 1, if wasInTransaction then c.active - 1 else c.active))
  }

  /** One event; a closed connection is only closed again, which does nothing. */
  function Track(f: Fleet, e: Event): Option<Fleet> {
    match e
    case Opened(id) =>
      if id in f.connections then Some(f)
      else Some(Fleet(f.connections[id := Connection(false, false)], CountOpened(f.counters)))
    case Executed(id, after) =>
      if id !in f.connections || f.connections[id].closed then Some(f)
      else
        var c := CountTransition(f.counters, f.connections[id].inTransaction, after);
        if c.None? then None else Some(Fleet(f.connections[id := Connection(after, false)], c.value))
    case Closed(id) =>
      if id !in f.connections || f.connections[id].closed then Some(f)
      else
        var c := CountClosed(f.counters, f.connections[id].inTransaction);
        if c.None? then None
        else Some(Fleet(f.connections[id := Connection(false, true)], c.value))
  }

  function TrackAll(f: Fleet, events: seq<Event>): Option<Fleet>
    decreases |events|
  {
    if events == [] then Some(f)
    else
      var g := Track(f, events[0]);
      if g.None? then None else TrackAll(g.value, events[1..])
  }

  function OpenSet(f: Fleet): set<Id> {
    set id | id in f.connections && !f.connections[id].closed
  }

  function ActiveSet(f: Fleet): set<Id> {
    set id | id in f.connections && !f.connections[id].closed && f.connections[id].inTransaction
  }

  ghost predicate Agrees(f: Fleet) {
    f.counters.open == |OpenSet(f)| && f.counters.active == |ActiveSet(f)|
  }

  lemma OpenAgrees(f: Fleet, id: Id)
    requires Agrees(f)
    ensures Track(f, Opened(id)).Some? && Agrees(Track(f, Opened(id)).value)
  {
    if id !in f.connections {
      var g := Track(f, Opened(id)).value;
      assert OpenSet(g) == OpenSet(f) + {id};
      assert ActiveSet(g) == ActiveSet(f);
    }
  }

  lemma ExecuteAgrees(f: Fleet, id: Id, after: bool)
    requires Agrees(f) && id in f.connections && !f.connections[id].closed
    ensures Track(f, Executed(id, after)).Some? && Agrees(Track(f, Executed(id, after)).value)
  {
    assert f.connections[id].inTransaction <==> id in ActiveSet(f);
    var g := Fleet(f.connections[id := Connection(after, false)], f.counters);
    assert OpenSet(g) == OpenSet(f);
    assert ActiveSet(g) == if after then ActiveSet(f) + {id} else ActiveSet(f) - {id};
    assert Track(f, Executed(id, after)).Some? ==> Track(f, Executed(id, after)).value.connections == g.connections;
  }

  lemma CloseAgrees(f: Fleet, id: Id)
    requires Agrees(f) && id in f.connections && !f.connections[id].closed
    ensures Track(f, Closed(id)).Some? && Agrees(Track(f, Closed(id)).value)
  {
    assert id in OpenSet(f) && (f.connections[id].inTransaction <==> id in ActiveSet(f));
    var g := Fleet(f.connections[id := Connection(false, true)], f.counters);
    assert OpenSet(g) == OpenSet(f) - {id};
    assert ActiveSet(g) == ActiveSet(f) - {id};
    assert Track(f, Closed(id)).Some? ==> Track(f, Closed(id)).value.connections == g.connections;
  }

  lemma TrackAgrees(f: Fleet, e: Event)
    requires Agrees(f)
    ensures Track(f, e).Some? && Agrees(Track(f, e).value)
  {
    hide Agrees, CountTransition, CountClosed;
    match e
    case Opened(id) => OpenAgrees(f, id);
    case Executed(id, after) =>
      if id in f.connections && !f.connections[id].closed { ExecuteAgrees(f, id, after); }
    case Closed(id) =>
      if id in f.connections && !f.connections[id].closed { CloseAgrees(f, id); }
  }

  /** The counters are the numbers of open and of in-transaction connections at all times; they never underflow. */
  lemma {:induction false} CountersAgree(f: Fleet, events: seq<Event>)
    requires Agrees(f)
    ensures TrackAll(f, events).Some? && Agrees(TrackAll(f, events).value)
    decreases |events|
  {
    if events != [] {
      TrackAgrees(f, events[0]);
      CountersAgree(Track(f, events[0]).value, events[1..]);
    }
  }

  /** The counters shared by the tracked connections of one factory. */
  class PersistenceMetrics {
    var open: nat
    var active: nat

    constructor ()
      ensures Counts() == Counters(0, 0)
    {
      open, active := 0, 0;
    }

    function Counts(): Counters
      reads this
    {
      Counters(open, active)
    }

    method Opened()
      modifies this
      ensures Counts() == CountOpened(old(Counts()))
    {
      open := open + 1;
    }

    /** An underflow of the active count is reported after the open count has already been taken down. */
    method Closed(wasInTransaction: bool) returns (ok: bool)
      modifies this
      ensures ok == CountClosed(old(Counts()), wasInTransaction).Some?
      ensures ok ==> Counts() == CountClosed(old(Counts()), wasInTransaction).value
    {
      if open == 0 {
        return false;
      }
      open := open - 1;
      if wasInTransaction {
        if active == 0 {
          return false;
        }
        active := active - 1;
      }
      return true;
    }

    method TransactionTransition(before: bool, after: bool) returns (ok: bool)
      modifies this
      ensures ok == CountTransition(old(Counts()), before, after).Some?
      ensures Counts() == if ok then CountTransition(old(Counts()), before, after).value else old(Counts())
    {
      if before == after {
        return true;
      }
      if after {
        active := active + 1;
        return true;
      }
      if active == 0 {
        return false;
      }
      active := active - 1;
      return true;
    }
  }
}
