/**
 One authoritative writer transaction: admission, the per-context nesting guard, the connection, and every way out of
 enter, commit, rollback and exit.
 */
module UnitOfWork {
  import opened Prelude
  import opened CommandSteps
  import opened Connections

  /** The database file: what the last COMMIT left. */
  class Store {
    var committed: Db

    constructor (db: Db)
      ensures committed == db
    {
      committed := db;
    }
  }

  /** The context variable that forbids nesting. */
  class Context {
    var inUnitOfWork: bool

    constructor ()
      ensures !inUnitOfWork
    {
      inUnitOfWork := false;
    }
  }

  /** A tracked connection with its own view of the database while it is in a transaction. */
  class TrackedConnection {
    const store: Store
    const metrics: PersistenceMetrics
    var working: Db
    var inTransaction: bool
    var closed: bool

    constructor (store: Store, metrics: PersistenceMetrics)
      modifies metrics
      ensures this.store == store && this.metrics == metrics && !inTransaction && !closed && working == store.committed
      ensures metrics.Counts() == CountOpened(old(metrics.Counts()))
    {
      this.store, this.metrics, working, inTransaction, closed := store, metrics, store.committed, false, false;
      new;
      metrics.Opened();
    }

    method Begin()
      requires !inTransaction
      modifies this, metrics
      ensures inTransaction && !closed == !old(closed) && working == store.committed
      ensures metrics.Counts() == old(metrics.Counts()).(active := old(metrics.active) + 1)
    {
      working, inTransaction := store.committed, true;
      var _ := metrics.TransactionTransition(false, true);
    }

    /** COMMIT: the transaction may stay open, or end having taken effect, with or without an exception. */
    method Commit(fault: CommitFault) returns (raised: bool)
      requires inTransaction && metrics.active > 0
      modifies this, metrics, store
      ensures raised == (fault != Commits) && inTransaction == fault.CommitFails? && closed == old(closed)
      ensures working == old(working)
      ensures store.committed == if fault.CommitFails? then old(store.committed) else working
      ensures metrics.open == old(metrics.open)
      ensures metrics.active == old(metrics.active) - (if fault.CommitFails? then 0 else 1)
    {
      raised := fault != Commits;
      if !fault.CommitFails? {
        store.committed := working;
        inTransaction := false;
        var _ := metrics.TransactionTransition(true, false);
      }
    }

    method Rollback(fails: bool) returns (raised: bool)
      requires inTransaction && metrics.active > 0
      modifies this, metrics
      ensures raised == fails && inTransaction == fails && closed == old(closed)
      ensures metrics.open == old(metrics.open) && metrics.active == old(metrics.active) - (if fails then 0 else 1)
    {
      raised := fails;
      if !fails {
        inTransaction := false;
        var _ := metrics.TransactionTransition(true, false);
      }
    }

    /** Closing drops whatever transaction is still open. */
    method Close()
      requires !closed && metrics.open > 0 && (inTransaction ==> metrics.active > 0)
      modifies this, metrics
      ensures closed && !inTransaction
      ensures metrics.open == old(metrics.open) - 1
      ensures metrics.active == old(metrics.active) - (if old(inTransaction) then 1 else 0)
    {
      var was := inTransaction;
      closed, inTransaction := true, false;
      var _ := metrics.Closed(was);
    }
  }

  class UnitOfWork {
    const store: Store
    const gate: WriteAdmissionGate?
    const context: Context
    const metrics: PersistenceMetrics
    var connection: TrackedConnection?
    var token: bool
    var committed: bool
    var admitted: bool

    constructor (store: Store, gate: WriteAdmissionGate?, context: Context, metrics: PersistenceMetrics)
      ensures this.store == store && this.gate == gate && this.context == context && this.metrics == metrics
      ensures Idle()
    {
      this.store, this.gate, this.context, this.metrics := store, gate, context, metrics;
      connection, token, committed, admitted := null, false, false, false;
    }

    ghost predicate Idle()
      reads this
    {
      connection == null && !token && !committed && !admitted
    }

    /** Inside the transaction: everything entered is held once. */
    ghost predicate Entered()
      reads this, connection, context, metrics, gate
    {
      && connection != null && connection.store == store && connection.metrics == metrics
      && connection.inTransaction && !connection.closed && token && context.inUnitOfWork && !committed
      && metrics.open > 0 && metrics.active > 0
      && admitted == (gate != null) && (gate != null ==> gate.active > 0)
    }

    method ExitWriteAdmission()
      requires admitted ==> gate != null && gate.active > 0
      modifies this, gate
      ensures !admitted && connection == old(connection) && token == old(token) && committed == old(committed)
      ensures gate != null ==> gate.accepting == old(gate.accepting)
                               && gate.active == old(gate.active) - (if old(admitted) then 1 else 0)
    {
      if admitted && gate != null {
        var _ := gate.Exit();
      }
      admitted := false;
    }

    /** On every failure path what had been taken so far is given back. */
    method Enter(f: Faults) returns (error: Option<Error>)
      requires Idle() && (f.admission ==> gate != null && !gate.accepting)
      requires !f.admission && gate != null ==> gate.accepting
      requires f.nested == context.inUnitOfWork
      modifies this, context, metrics, gate
      ensures error.None? <==> !f.nested && !f.admission && !f.open && !f.begin
      ensures error == if f.nested then Some(Persistence) else if f.admission then Some(Quiescing)
                       else if f.open || f.begin then Some(if f.busy then Busy else Persistence) else None
      ensures error.None? ==>
                && Entered() && fresh(connection) && connection.working == store.committed
                && metrics.open == old(metrics.open) + 1 && metrics.active == old(metrics.active) + 1
                && (gate != null ==> gate.active == old(gate.active) + 1 && gate.accepting == old(gate.accepting))
      ensures error.Some? ==>
                && Idle() && context.inUnitOfWork == old(context.inUnitOfWork)
                && metrics.Counts() == old(metrics.Counts())
                && (gate != null ==> gate.active == old(gate.active) && gate.accepting == old(gate.accepting))
    {
      if context.inUnitOfWork {
        return Some(Persistence);
      }
      if gate != null {
        var ok := gate.Enter();
        if !ok {
          return Some(Quiescing);
        }
        admitted := true;
      }
      context.inUnitOfWork, token := true, true;
      if !f.open {
        connection := new TrackedConnection(store, metrics);
        if !f.begin {
          connection.Begin();
          return None;
        }
        connection.Close();
        connection := null;
      }
      context.inUnitOfWork, token := false, false;
      ExitWriteAdmission();
      return Some(if f.busy then Busy else Persistence);
    }

    /** A rollback that fails closes the connection, which drops the transaction anyway. */
    method Rollback(fails: bool) returns (error: Option<Error>)
      requires connection != null ==>
                 && connection.metrics == metrics && !connection.closed && metrics.open > 0
                 && (connection.inTransaction ==> metrics.active > 0)
      modifies this, connection, metrics
      ensures token == old(token) && committed == old(committed) && admitted == old(admitted)
      ensures error == if old(connection) != null && old(connection.inTransaction) && fails then Some(RollbackFailure) else None
      ensures connection == if error.Some? then null else old(connection)
      ensures old(connection) != null ==>
                && !old(connection).inTransaction && old(connection).closed == error.Some?
                && metrics.active == old(metrics.active) - (if old(connection.inTransaction) then 1 else 0)
      ensures metrics.open == old(metrics.open) - (if error.Some? then 1 else 0)
      ensures old(connection) == null ==> metrics.active == old(metrics.active)
    {
      if connection == null || !connection.inTransaction {
        return None;
      }
      var raised := connection.Rollback(fails);
      if raised {
        connection.Close();
        connection := null;
        return Some(RollbackFailure);
      }
      return None;
    }

    method Commit(f: Faults) returns (error: Option<Error>)
      requires Entered()
      modifies this, connection, metrics, store
      ensures token && admitted == old(admitted) && committed == f.commit.Commits?
      ensures error == if f.commit.Commits? then None
                       else if f.commit.CommitFails? && f.rollback then Some(RollbackFailure)
                       else Some(if f.busy then Busy else Persistence)
      ensures store.committed == if f.commit.CommitFails? then old(store.committed) else old(connection.working)
      ensures connection == if error == Some(RollbackFailure) then null else old(connection)
      ensures old(connection).closed == (connection == null) && !old(connection).inTransaction
      ensures metrics.active == old(metrics.active) - 1
      ensures metrics.open == old(metrics.open) - (if connection == null then 1 else 0)
    {
      var raised := connection.Commit(f.commit);
      if !raised {
        committed := true;
        return None;
      }
      error := Rollback(f.rollback);
      if error.None? {
        error := Some(if f.busy then Busy else Persistence);
      }
    }

    /**
     Leaving the block: commit when nothing is pending, else roll back; then, on every path, the connection is closed,
     the nesting guard reset and the admission given back exactly once.
     */
    method Exit(pending: Option<Error>, f: Faults) returns (error: Option<Error>)
      requires Entered()
      modifies this, connection, context, metrics, gate, store
      ensures connection == null && !token && !admitted && !context.inUnitOfWork
      ensures metrics.open == old(metrics.open) - 1 && metrics.active == old(metrics.active) - 1
      ensures gate != null ==> gate.active == old(gate.active) - 1 && gate.accepting == old(gate.accepting)
      ensures store.committed == if pending.None? && !f.commit.CommitFails? then old(connection.working)
                                 else old(store.committed)
      ensures error == if pending.Some? then Some(if f.rollback then RollbackFailure else pending.value)
                       else match f.commit
                            case Commits => None
                            case CommitFails => Some(if f.rollback then RollbackFailure
                                                     else if f.busy then Busy else Persistence)
                            case CommitsThenRaises => Some(if f.busy then Busy else Persistence)
    {
      ghost var c := connection;
      if pending.None? {
        error := Commit(f);
      } else {
        var failed := Rollback(f.rollback);
        error := if failed.Some? then failed else pending;
      }
      if connection != null {
        connection.Close();
        connection := null;
      }
      context.inUnitOfWork, token := false, false;
      ExitWriteAdmission();
    }
  }
}
