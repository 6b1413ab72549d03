/** The archive service over the ticket rows and the archive tables: the member loops of `RfcArchive`, in place. */
module RfcArchiveService {
  import opened Prelude
  import F = RfcForest
  import opened RfcArchive

  class ArchiveTables {
    var tickets: F.Forest
    var operations: map<Id, Scope>
    var members: seq<MemberRow>
    var events: seq<Event>

    constructor (w: World)
      ensures Tables() == w
    {
      tickets, operations, members, events := w.f, w.log.operations, w.log.members, w.log.events;
    }

    function Tables(): World
      reads this
    {
      World(tickets, Log(operations, members, events))
    }

    /** ROLLBACK to the tables as they were. */
    method Rollback(w: World)
      modifies this
      ensures Tables() == w
    {
      tickets, operations, members, events := w.f, w.log.operations, w.log.members, w.log.events;
    }

    /** Turn one RFC row over and append its event. */
    method TurnRow(rfc: Id, op: Id)
      requires rfc in tickets.rfcs
      modifies this
      ensures Tables() == Flip(old(Tables()), rfc, op)
    {
      var row := tickets.rfcs[rfc];
      tickets := tickets.(rfcs := tickets.rfcs[rfc := row.(archived := !row.archived, revision := row.revision + 1)]);
      events := events + [Event(rfc, !row.archived, op, row.revision + 1)];
    }

    method Archive(rfc: Id, kind: ScopeKind, reviewed: Scope, op: Id) returns (r: Result<Outcome, Error>)
      modifies this
      ensures Step(Tables(), r) == RfcArchive.Archive(old(Tables()), rfc, kind, reviewed, op)
    {
      hide ResolveScope, Flip, AnyActive;
      var before := Tables();
      var scope := ResolveScope(tickets, rfc, kind);
      if scope.Err? {
        return Err(scope.error);
      }
      if scope.value != reviewed {
        return Err(ScopeStale);
      }
      var ms := scope.value.members;
      if !AnyActive(ms) {
        return Ok(NoChange);
      }
      if op in operations {
        return Err(Persistence);
      }
      operations := operations[op := scope.value];
      ghost var start := Tables();
      for i := 0 to |ms|
        invariant ArchiveFrom(start, ms, 0, op) == ArchiveFrom(Tables(), ms, i, op)
      {
        var m := ms[i];
        if !m.archived {
          if m.rfc !in tickets.rfcs || tickets.rfcs[m.rfc].revision != m.revision || tickets.rfcs[m.rfc].archived {
            Rollback(before);
            return Err(ScopeStale);
          }
          members := members + [MemberRow(op, m.rfc, m.revision, m.revision + 1, i)];
          TurnRow(m.rfc, op);
        }
      }
      return Ok(Changed);
    }

    method RestoreOperation(op: Id) returns (r: Result<Outcome, Error>)
      modifies this
      ensures Step(Tables(), r) == RfcArchive.RestoreOperation(old(Tables()), op)
    {
      hide EligibleMembers, Flip;
      var before := Tables();
      if op !in operations {
        return Err(OperationNotFound);
      }
      var eligible := EligibleMembers(Tables(), members, op);
      if eligible == [] {
        return Ok(NoChange);
      }
      for i := 0 to |eligible|
        invariant RestoreFrom(before, eligible, op) == RestoreFrom(Tables(), eligible[i..], op)
      {
        assert eligible[i..][0] == eligible[i] && eligible[i..][1..] == eligible[i + 1..];
        if eligible[i] !in tickets.rfcs {
          Rollback(before);
          return Err(Persistence);
        }
        if !tickets.rfcs[eligible[i]].archived {
          Rollback(before);
          return Err(ScopeStale);
        }
        TurnRow(eligible[i], op);
      }
      assert eligible[|eligible|..] == [];
      return Ok(Changed);
    }
  }
}
