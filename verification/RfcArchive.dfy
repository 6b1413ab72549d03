/** Local archive of RFCs and branches: operations, their members and the per-RFC event log, over the ticket tables. */
module RfcArchive {
  import opened Prelude
  import F = RfcForest
  import Forest = RfcForestSafety
  import Users = RfcForestGuarantees

  datatype ScopeKind = ExactRfc | RootBranch

  datatype ScopeMember = ScopeMember(rfc: Id, revision: nat, archived: bool)

  /** The SHA-256 of the reviewed scope, identified with it. */
  datatype Scope = Scope(requested: Id, kind: ScopeKind, members: seq<ScopeMember>)

  datatype MemberRow = MemberRow(op: Id, rfc: Id, before: nat, after: nat, ordinal: nat)

  datatype Event = Event(rfc: Id, archived: bool, op: Id, revision: nat)

  datatype Log = Log(operations: map<Id, Scope>, members: seq<MemberRow>, events: seq<Event>)

  datatype World = World(f: F.Forest, log: Log)

  datatype Error = NotFound | ScopeStale | OperationNotFound | Persistence

  datatype Step<+T> = Step(after: World, result: Result<T, Error>)

  function Refuse<T>(w: World, e: Error): Step<T> { Step(w, Err(e)) }

  function MemberOf(f: F.Forest, id: Id): ScopeMember
    requires id in f.rfcs
  {
    ScopeMember(id, f.rfcs[id].revision, f.rfcs[id].archived)
  }

  function MembersOf(f: F.Forest, ids: seq<Id>): (ms: seq<ScopeMember>)
    requires forall id :: id in ids ==> id in f.rfcs
    ensures |ms| == |ids| && forall i :: 0 <= i < |ids| ==> ms[i] == MemberOf(f, ids[i])
  {
    seq(|ids|, i requires 0 <= i < |ids| => MemberOf(f, ids[i]))
  }

  /** The RFC itself, or a parentless RFC with its subordinates in order. */
  function ResolveScope(f: F.Forest, rfc: Id, kind: ScopeKind): Result<Scope, Error> {
    if rfc !in f.rfcs then Err(NotFound)
    else if kind == ExactRfc then Ok(Scope(rfc, kind, [MemberOf(f, rfc)]))
    else if F.Subordinate(f, rfc) then Err(ScopeStale)
    else Ok(Scope(rfc, kind, [MemberOf(f, rfc)] + MembersOf(f, Ascending(F.Children(f, rfc) * f.rfcs.Keys))))
  }

  /** Flip the archive state of one row and append its event. */
  function Flip(w: World, rfc: Id, op: Id): World
    requires rfc in w.f.rfcs
  {
    var row := w.f.rfcs[rfc];
    World(w.f.(rfcs := w.f.rfcs[rfc := row.(archived := !row.archived, revision := row.revision + 1)]),
          w.log.(events := w.log.events + [Event(rfc, !row.archived, op, row.revision + 1)]))
  }

  function AddMember(w: World, row: MemberRow): World {
    w.(log := w.log.(members := w.log.members + [row]))
  }

  /** The member loop of an archive command, from `ordinal` on; every active member is guarded by its revision. */
  function ArchiveFrom(w: World, ms: seq<ScopeMember>, ordinal: nat, op: Id): Result<World, Error>
    requires ordinal <= |ms|
    decreases |ms| - ordinal
  {
    if ordinal == |ms| then Ok(w)
    else if ms[ordinal].archived then ArchiveFrom(w, ms, ordinal + 1, op)
    else
      var m := ms[ordinal];
      if m.rfc !in w.f.rfcs || w.f.rfcs[m.rfc].revision != m.revision || w.f.rfcs[m.rfc].archived then Err(ScopeStale)
      else ArchiveFrom(Flip(AddMember(w, MemberRow(op, m.rfc, m.revision, m.revision + 1, ordinal)), m.rfc, op), ms,
                       ordinal + 1, op)
  }

  predicate AnyActive(ms: seq<ScopeMember>) {
    exists m :: m in ms && !m.archived
  }

  datatype Outcome = Changed | NoChange

  function Archive(w: World, rfc: Id, kind: ScopeKind, reviewed: Scope, op: Id): Step<Outcome> {
    var scope := ResolveScope(w.f, rfc, kind);
    if scope.Err? then Refuse(w, scope.error)
    else if scope.value != reviewed then Refuse(w, ScopeStale)
    else if !AnyActive(scope.value.members) then Step(w, Ok(NoChange))
    else if op in w.log.operations then Refuse(w, Persistence)
    else
      var withOperation := w.(log := w.log.(operations := w.log.operations[op := scope.value]));
      var done := ArchiveFrom(withOperation, scope.value.members, 0, op);
      if done.Err? then Refuse(w, done.error) else Step(done.value, Ok(Changed))
  }

  /** The RFC's event with the greatest resulting revision. */
  function Latest(events: seq<Event>, rfc: Id): (r: Option<Event>)
    decreases |events|
  {
    if events == [] then None else
    var e := events[|events| - 1];
    var rest := Latest(events[..|events| - 1], rfc);
    if e.rfc != rfc then rest
    else if rest.None? || rest.value.revision < e.revision then Some(e)
    else rest
  }

  predicate Eligible(w: World, rfc: Id, op: Id) {
    var e := Latest(w.log.events, rfc);
    rfc in w.f.rfcs && w.f.rfcs[rfc].archived && e.Some? && e.value.archived && e.value.op == op
  }

  /** The operation's members in ordinal order that are still archived by it. */
  function EligibleMembers(w: World, rows: seq<MemberRow>, op: Id): seq<Id>
    decreases |rows|
  {
    if rows == [] then []
    else (if rows[0].op == op && Eligible(w, rows[0].rfc, op) then [rows[0].rfc] else [])
         + EligibleMembers(w, rows[1..], op)
  }

  function RestoreFrom(w: World, ids: seq<Id>, op: Id): Result<World, Error>
    decreases |ids|
  {
    if ids == [] then Ok(w)
    else if ids[0] !in w.f.rfcs then Err(Persistence)
    else if !w.f.rfcs[ids[0]].archived then Err(ScopeStale)
    else RestoreFrom(Flip(w, ids[0], op), ids[1..], op)
  }

  function RestoreRows(w: World, ids: seq<Id>, op: Id): Step<Outcome> {
    if ids == [] then Step(w, Ok(NoChange))
    else
      var done := RestoreFrom(w, ids, op);
      if done.Err? then Refuse(w, done.error) else Step(done.value, Ok(Changed))
  }

  function RestoreOperation(w: World, op: Id): Step<Outcome> {
    if op !in w.log.operations then Refuse(w, OperationNotFound)
    else RestoreRows(w, EligibleMembers(w, w.log.members, op), op)
  }

  datatype Op =
    | DoArchive(rfc: Id, kind: ScopeKind, reviewed: Scope, op: Id)
    | DoRestore(op: Id)
    | DoForest(fop: F.Op)

  function Apply(w: World, op: Op): World {
    match op
    case DoArchive(rfc, kind, reviewed, id) => Archive(w, rfc, kind, reviewed, id).after
    case DoRestore(id) => RestoreOperation(w, id).after
    case DoForest(fop) => w.(f := F.Apply(w.f, fop))
  }

  function Run(w: World, ops: seq<Op>): World
    decreases |ops|
  {
    if ops == [] then w else Run(Apply(w, ops[0]), ops[1..])
  }

  /* ---- The log agrees with the state ---- */

  /** The RFC's last appended event. */
  function Last(events: seq<Event>, rfc: Id): Option<Event>
    decreases |events|
  {
    if events == [] then None
    else if events[|events| - 1].rfc == rfc then Some(events[|events| - 1])
    else Last(events[..|events| - 1], rfc)
  }

  predicate EndsArchived(events: seq<Event>, rfc: Id) {
    Last(events, rfc).Some? && Last(events, rfc).value.archived
  }

  /** The event turns its RFC over: archived exactly when the log so far does not end archived; a restore names the
      operation that archived it. Its revision exceeds every earlier one of the RFC. */
  ghost predicate Follows(events: seq<Event>, e: Event) {
    && (e.archived <==> !EndsArchived(events, e.rfc))
    && (!e.archived ==> Last(events, e.rfc).value.op == e.op)
    && (forall i :: 0 <= i < |events| && events[i].rfc == e.rfc ==> events[i].revision < e.revision)
  }

  ghost predicate EventsOk(events: seq<Event>) {
    forall i :: 0 <= i < |events| ==> Follows(events[..i], events[i])
  }

  ghost predicate StateOk(w: World) {
    && (forall i :: 0 <= i < |w.log.events| ==>
          && w.log.events[i].rfc in w.f.rfcs && w.log.events[i].revision <= w.f.rfcs[w.log.events[i].rfc].revision)
    && (forall rfc :: rfc in w.f.rfcs ==> w.f.rfcs[rfc].archived == EndsArchived(w.log.events, rfc))
  }

  predicate MemberNamed(members: seq<MemberRow>, op: Id, rfc: Id, revision: nat) {
    exists i :: 0 <= i < |members| && members[i].op == op && members[i].rfc == rfc && members[i].after == revision
                && members[i].before + 1 == revision
  }

  predicate ArchivedNamed(events: seq<Event>, op: Id, rfc: Id, revision: nat) {
    exists i :: 0 <= i < |events| && events[i].archived && events[i].op == op && events[i].rfc == rfc
                && events[i].revision == revision
  }

  /** The operation's member rows are exactly the RFCs, with the revisions, that its archived events name. */
  ghost predicate MembersOk(log: Log) {
    && (forall op, rfc, revision :: MemberNamed(log.members, op, rfc, revision)
                                    <==> ArchivedNamed(log.events, op, rfc, revision))
    && (forall i :: 0 <= i < |log.members| ==>
          log.members[i].op in log.operations && log.members[i].after == log.members[i].before + 1)
    && (forall i :: 0 <= i < |log.events| ==> log.events[i].op in log.operations)
    && (forall i, j :: 0 <= i < j < |log.members| && log.members[i].op == log.members[j].op ==>
          log.members[i].rfc != log.members[j].rfc)
  }

  ghost predicate Inv(w: World) {
    EventsOk(w.log.events) && StateOk(w) && MembersOk(w.log)
  }

  lemma LastOfAppend(events: seq<Event>, e: Event, rfc: Id)
    ensures Last(events + [e], rfc) == if e.rfc == rfc then Some(e) else Last(events, rfc)
  {
    assert (events + [e])[..|events|] == events;
  }

  lemma {:induction false} LastIsListed(events: seq<Event>, rfc: Id)
    ensures Last(events, rfc).Some? ==> Last(events, rfc).value in events && Last(events, rfc).value.rfc == rfc
    ensures Last(events, rfc).None? ==> forall e :: e in events ==> e.rfc != rfc
    decreases |events|
  {
    if events != [] {
      LastIsListed(events[..|events| - 1], rfc);
      assert events == events[..|events| - 1] + [events[|events| - 1]];
    }
  }

  lemma EventsPrefix(events: seq<Event>, n: nat)
    requires EventsOk(events) && n <= |events|
    ensures EventsOk(events[..n])
  {
    forall i | 0 <= i < n
      ensures Follows(events[..n][..i], events[..n][i])
    {
      assert events[..n][..i] == events[..i];
    }
  }

  /** The event with the greatest revision, which the queries join on, is the last one appended. */
  lemma {:induction false} LatestIsLast(events: seq<Event>, rfc: Id)
    requires EventsOk(events)
    ensures Latest(events, rfc) == Last(events, rfc)
    decreases |events|
  {
    if events != [] {
      var n := |events| - 1;
      EventsPrefix(events, n);
      LatestIsLast(events[..n], rfc);
      LastIsListed(events[..n], rfc);
      assert Follows(events[..n], events[n]);
    }
  }

  /** Appending one turn of one RFC keeps the log and the state in agreement. */
  lemma FlipKeeps(w: World, rfc: Id, op: Id)
    requires EventsOk(w.log.events) && StateOk(w) && rfc in w.f.rfcs
    requires w.f.rfcs[rfc].archived ==> Last(w.log.events, rfc).Some? && Last(w.log.events, rfc).value.op == op
    ensures EventsOk(Flip(w, rfc, op).log.events) && StateOk(Flip(w, rfc, op))
  {
    var events, v := w.log.events, Flip(w, rfc, op);
    var e := v.log.events[|events|];
    assert Follows(events, e);
    forall i | 0 <= i < |v.log.events|
      ensures Follows(v.log.events[..i], v.log.events[i])
    {
      assert v.log.events[..i] == events[..i];
    }
    forall x | x in v.f.rfcs
      ensures v.f.rfcs[x].archived == EndsArchived(v.log.events, x)
    {
      LastOfAppend(events, e, x);
    }
  }

  lemma NamedAppend(events: seq<Event>, e: Event)
    ensures forall op, rfc, revision :: ArchivedNamed(events + [e], op, rfc, revision) <==>
              ArchivedNamed(events, op, rfc, revision)
              || (e.archived && e.op == op && e.rfc == rfc && e.revision == revision)
  {
    var es := events + [e];
    forall op, rfc, revision
      ensures ArchivedNamed(es, op, rfc, revision) <==>
              ArchivedNamed(events, op, rfc, revision)
              || (e.archived && e.op == op && e.rfc == rfc && e.revision == revision)
    {
      assert es[|events|] == e;
      if ArchivedNamed(events, op, rfc, revision) {
        var i :| 0 <= i < |events| && events[i].archived && events[i].op == op && events[i].rfc == rfc
                 && events[i].revision == revision;
        assert es[i] == events[i];
      }
    }
  }

  lemma MemberAppend(members: seq<MemberRow>, m: MemberRow)
    ensures forall op, rfc, revision :: MemberNamed(members + [m], op, rfc, revision) <==>
              MemberNamed(members, op, rfc, revision)
              || (m.op == op && m.rfc == rfc && m.after == revision && m.before + 1 == revision)
  {
    var ms := members + [m];
    forall op, rfc, revision
      ensures MemberNamed(ms, op, rfc, revision) <==>
              MemberNamed(members, op, rfc, revision)
              || (m.op == op && m.rfc == rfc && m.after == revision && m.before + 1 == revision)
    {
      assert ms[|members|] == m;
      if MemberNamed(members, op, rfc, revision) {
        var i :| 0 <= i < |members| && members[i].op == op && members[i].rfc == rfc && members[i].after == revision
                 && members[i].before + 1 == revision;
        assert ms[i] == members[i];
      }
    }
  }

  function TurnedRow(r: F.Rfc): F.Rfc {
    r.(archived := !r.archived, revision := r.revision + 1)
  }

  /** What a step changes of the tickets: archive states and revisions only, and every other row is untouched. */
  ghost predicate Turned(w: World, v: World, rfcs: set<Id>) {
    && v.f == w.f.(rfcs := v.f.rfcs) && v.f.rfcs.Keys == w.f.rfcs.Keys
    && (forall x :: x in w.f.rfcs ==> v.f.rfcs[x] == if x in rfcs then TurnedRow(w.f.rfcs[x]) else w.f.rfcs[x])
  }

  /** The active members from `ordinal` on. */
  function ActiveIn(ms: seq<ScopeMember>, ordinal: nat): set<Id>
    requires ordinal <= |ms|
  {
    set i | ordinal <= i < |ms| && !ms[i].archived :: ms[i].rfc
  }

  predicate DistinctMembers(ms: seq<ScopeMember>) {
    forall i, j :: 0 <= i < j < |ms| ==> ms[i].rfc != ms[j].rfc
  }

  /** The loop's row is named by no earlier member of the same operation. */
  ghost predicate OperationUpTo(log: Log, ms: seq<ScopeMember>, ordinal: nat, op: Id) {
    ordinal <= |ms| && op in log.operations
    && forall i :: 0 <= i < |log.members| && log.members[i].op == op ==>
         exists j :: 0 <= j < ordinal && ms[j].rfc == log.members[i].rfc
  }

  lemma ArchiveOneKeeps(w: World, ms: seq<ScopeMember>, ordinal: nat, op: Id)
    requires Inv(w) && DistinctMembers(ms) && OperationUpTo(w.log, ms, ordinal, op) && ordinal < |ms|
    requires ms[ordinal].rfc in w.f.rfcs && !w.f.rfcs[ms[ordinal].rfc].archived
    requires w.f.rfcs[ms[ordinal].rfc].revision == ms[ordinal].revision
    ensures var m := ms[ordinal];
            var v := Flip(AddMember(w, MemberRow(op, m.rfc, m.revision, m.revision + 1, ordinal)), m.rfc, op);
            Inv(v) && OperationUpTo(v.log, ms, ordinal + 1, op) && Turned(w, v, {m.rfc})
  {
    hide EventsOk, StateOk;
    var m := ms[ordinal];
    var row := MemberRow(op, m.rfc, m.revision, m.revision + 1, ordinal);
    var u := AddMember(w, row);
    SameLog(w, u);
    FlipKeeps(u, m.rfc, op);
    MemberAppend(w.log.members, row);
    NamedAppend(w.log.events, Event(m.rfc, true, op, m.revision + 1));
  }

  lemma SameLog(w: World, u: World)
    requires u.f == w.f && u.log.events == w.log.events
    ensures StateOk(u) == StateOk(w)
  {
  }

  /** The loop over a scope just read: it succeeds, and turns over exactly the active members. */
  lemma {:induction false} ArchiveFromKeeps(w: World, ms: seq<ScopeMember>, ordinal: nat, op: Id)
    requires ordinal <= |ms| && Inv(w) && DistinctMembers(ms) && OperationUpTo(w.log, ms, ordinal, op)
    requires forall i :: ordinal <= i < |ms| ==> ms[i].rfc in w.f.rfcs && MemberOf(w.f, ms[i].rfc) == ms[i]
    ensures var r := ArchiveFrom(w, ms, ordinal, op);
            r.Ok? && Inv(r.value) && Turned(w, r.value, ActiveIn(ms, ordinal)) && r.value.log.operations == w.log.operations
    decreases |ms| - ordinal
  {
    hide Inv, OperationUpTo;
    if ordinal < |ms| {
      if ms[ordinal].archived {
        OperationAdvances(w.log, ms, ordinal, op);
        ArchiveFromKeeps(w, ms, ordinal + 1, op);
        assert ActiveIn(ms, ordinal) == ActiveIn(ms, ordinal + 1);
      } else {
        var m := ms[ordinal];
        ArchiveOneKeeps(w, ms, ordinal, op);
        var v := Flip(AddMember(w, MemberRow(op, m.rfc, m.revision, m.revision + 1, ordinal)), m.rfc, op);
        ArchiveFromKeeps(v, ms, ordinal + 1, op);
        assert ActiveIn(ms, ordinal) == {m.rfc} + ActiveIn(ms, ordinal + 1);
        assert m.rfc !in ActiveIn(ms, ordinal + 1);
        TurnedBoth(w, v, ArchiveFrom(v, ms, ordinal + 1, op).value, {m.rfc}, ActiveIn(ms, ordinal + 1));
      }
    }
  }

  lemma OperationAdvances(log: Log, ms: seq<ScopeMember>, ordinal: nat, op: Id)
    requires OperationUpTo(log, ms, ordinal, op) && ordinal < |ms|
    ensures OperationUpTo(log, ms, ordinal + 1, op)
  {
  }

  lemma TurnedBoth(w: World, v: World, u: World, a: set<Id>, b: set<Id>)
    requires Turned(w, v, a) && Turned(v, u, b) && a !! b
    ensures Turned(w, u, a + b)
  {
  }

  lemma ScopeSound(f: F.Forest, rfc: Id, kind: ScopeKind)
    requires Forest.Inv(f) && ResolveScope(f, rfc, kind).Ok?
    ensures var ms := ResolveScope(f, rfc, kind).value.members;
            && DistinctMembers(ms)
            && (forall i :: 0 <= i < |ms| ==> ms[i].rfc in f.rfcs && MemberOf(f, ms[i].rfc) == ms[i])
  {
    hide Ascending, Forest.Inv;
    if kind == RootBranch {
      var kids := F.Children(f, rfc) * f.rfcs.Keys;
      NotOwnChild(f, rfc);
      BranchDistinct(f, rfc, Ascending(kids));
    }
  }

  lemma NotOwnChild(f: F.Forest, rfc: Id)
    requires Forest.Inv(f)
    ensures rfc !in F.Children(f, rfc)
  {
  }

  lemma BranchDistinct(f: F.Forest, rfc: Id, ids: seq<Id>)
    requires rfc in f.rfcs && rfc !in ids && forall id :: id in ids ==> id in f.rfcs
    requires forall i, j :: 0 <= i < j < |ids| ==> ids[i] < ids[j]
    ensures var ms := [MemberOf(f, rfc)] + MembersOf(f, ids);
            && DistinctMembers(ms)
            && (forall i :: 0 <= i < |ms| ==> ms[i].rfc in f.rfcs && MemberOf(f, ms[i].rfc) == ms[i])
  {
    var ms := [MemberOf(f, rfc)] + MembersOf(f, ids);
    forall i | 1 <= i < |ms|
      ensures ms[i] == MemberOf(f, ids[i - 1]) && ids[i - 1] in ids
    {
    }
    forall i, j | 0 <= i < j < |ms|
      ensures ms[i].rfc != ms[j].rfc
    {
      assert ms[j] == MemberOf(f, ids[j - 1]) && ids[j - 1] in ids;
    }
  }

  ghost predicate Sound(w: World) {
    Forest.Inv(w.f) && Inv(w)
  }

  lemma TurnedKeepsForest(w: World, v: World, rfcs: set<Id>)
    requires Forest.Inv(w.f) && Turned(w, v, rfcs)
    ensures Forest.Inv(v.f) && Forest.Advances(w.f, v.f)
  {
  }

  /** With a fresh operation identity an archive never fails midway, and archives exactly the active scope members. */
  lemma ArchiveKeeps(w: World, rfc: Id, kind: ScopeKind, reviewed: Scope, op: Id)
    requires Sound(w)
    ensures var s := Archive(w, rfc, kind, reviewed, op);
            && Sound(s.after) && Forest.Advances(w.f, s.after.f)
            && (s.result == Ok(Changed) ==>
                  && Turned(w, s.after, ActiveIn(reviewed.members, 0))
                  && s.after.log.operations == w.log.operations[op := reviewed] && op !in w.log.operations)
            && (s.result.Err? ==> s.after == w)
            && (ResolveScope(w.f, rfc, kind) == Ok(reviewed) && op !in w.log.operations ==> s.result.Ok?)
  {
    hide Forest.Inv, EventsOk, StateOk, ResolveScope, ArchiveFrom;
    var scope := ResolveScope(w.f, rfc, kind);
    if scope.Ok? && scope.value == reviewed && op !in w.log.operations {
      ScopeSound(w.f, rfc, kind);
      var withOperation := w.(log := w.log.(operations := w.log.operations[op := reviewed]));
      SameLog(w, withOperation);
      assert Inv(withOperation);
      ArchiveFromKeeps(withOperation, reviewed.members, 0, op);
      TurnedKeepsForest(withOperation, ArchiveFrom(withOperation, reviewed.members, 0, op).value, ActiveIn(reviewed.members, 0));
    }
  }

  /** An archive changes something exactly for the scope as reviewed with an active member, and only then records anything. */
  lemma ArchiveDoes(w: World, rfc: Id, kind: ScopeKind, reviewed: Scope, op: Id)
    requires Sound(w) && op !in w.log.operations
    ensures var s := Archive(w, rfc, kind, reviewed, op);
            && (s.result.Ok? <==> ResolveScope(w.f, rfc, kind) == Ok(reviewed))
            && (s.result == Ok(Changed) <==> s.result.Ok? && exists m :: m in reviewed.members && !m.archived)
            && (s.result != Ok(Changed) ==> s.after == w)
            && s.after.f.rfcs.Keys == w.f.rfcs.Keys
            && (s.result == Ok(Changed) ==>
                  forall x :: x in w.f.rfcs ==>
                    (s.after.f.rfcs[x] != w.f.rfcs[x] <==> exists m :: m in reviewed.members && m.rfc == x && !m.archived))
  {
    hide Forest.Inv, Inv, ResolveScope, ArchiveFrom;
    ArchiveKeeps(w, rfc, kind, reviewed, op);
    forall x
      ensures x in ActiveIn(reviewed.members, 0) <==> exists m :: m in reviewed.members && m.rfc == x && !m.archived
    {
      if m :| m in reviewed.members && m.rfc == x && !m.archived {
        var i :| 0 <= i < |reviewed.members| && reviewed.members[i] == m;
      }
    }
  }

  /** The scope is the RFC alone, or a parentless RFC with exactly its subordinates, each as it stands. */
  lemma ScopeCovers(f: F.Forest, rfc: Id, kind: ScopeKind)
    requires Forest.Inv(f)
    ensures ResolveScope(f, rfc, kind).Ok? <==> rfc in f.rfcs && (kind == RootBranch ==> !F.Subordinate(f, rfc))
    ensures ResolveScope(f, rfc, kind).Ok? ==>
              var s := ResolveScope(f, rfc, kind).value;
              && s.requested == rfc && s.kind == kind
              && (forall x :: (exists m :: m in s.members && m.rfc == x)
                              <==> x == rfc || (kind == RootBranch && Users.HasParent(f, x, rfc)))
              && (forall m :: m in s.members ==> m.rfc in f.rfcs && m.revision == f.rfcs[m.rfc].revision
                                                 && m.archived == f.rfcs[m.rfc].archived)
  {
    hide Forest.Inv, F.Children, F.Subordinate, Ascending, Users.HasParent;
    if rfc in f.rfcs {
      ChildrenAre(f, rfc);
      if kind == RootBranch {
        MembersListed(f, rfc, Ascending(F.Children(f, rfc) * f.rfcs.Keys));
      } else {
        MembersListed(f, rfc, []);
        assert [MemberOf(f, rfc)] + MembersOf(f, []) == [MemberOf(f, rfc)];
      }
    }
  }

  lemma ChildrenAre(f: F.Forest, rfc: Id)
    requires Forest.Inv(f)
    ensures forall x :: x in F.Children(f, rfc) * f.rfcs.Keys <==> Users.HasParent(f, x, rfc)
  {
    forall x | Users.HasParent(f, x, rfc)
      ensures x in F.Children(f, rfc) * f.rfcs.Keys
    {
      var e :| e in f.edges && f.edges[e].active && f.edges[e].child == x && f.edges[e].parent == rfc;
      assert e in F.ChildEdges(f, rfc);
    }
  }

  lemma MembersListed(f: F.Forest, rfc: Id, ids: seq<Id>)
    requires rfc in f.rfcs && forall id :: id in ids ==> id in f.rfcs
    ensures var ms := [MemberOf(f, rfc)] + MembersOf(f, ids);
            && (forall x :: (exists m :: m in ms && m.rfc == x) <==> x == rfc || x in ids)
            && (forall m :: m in ms ==> m.rfc in f.rfcs && m == MemberOf(f, m.rfc))
  {
    var ms := [MemberOf(f, rfc)] + MembersOf(f, ids);
    assert ms[0] == MemberOf(f, rfc);
    forall x | x in ids
      ensures exists m :: m in ms && m.rfc == x
    {
      var i :| 0 <= i < |ids| && ids[i] == x;
      assert ms[i + 1].rfc == x;
    }
    forall m | m in ms
      ensures (m.rfc == rfc || m.rfc in ids) && m.rfc in f.rfcs && m == MemberOf(f, m.rfc)
    {
      var i :| 0 <= i < |ms| && ms[i] == m;
      assert i > 0 ==> m == MemberOf(f, ids[i - 1]) && ids[i - 1] in ids;
    }
  }

  /* ---- Restore ---- */

  predicate HasRow(rows: seq<MemberRow>, op: Id, x: Id) {
    exists i :: 0 <= i < |rows| && rows[i].op == op && rows[i].rfc == x
  }

  lemma NotAgain(rows: seq<MemberRow>)
    requires rows != []
    requires forall i, j :: 0 <= i < j < |rows| && rows[i].op == rows[j].op ==> rows[i].rfc != rows[j].rfc
    ensures !HasRow(rows[1..], rows[0].op, rows[0].rfc)
  {
    assert forall i :: 0 <= i < |rows[1..]| ==> rows[1..][i] == rows[i + 1];
  }

  lemma {:induction false} EligibleMembersMean(w: World, rows: seq<MemberRow>, op: Id)
    requires forall i, j :: 0 <= i < j < |rows| && rows[i].op == rows[j].op ==> rows[i].rfc != rows[j].rfc
    ensures var ids := EligibleMembers(w, rows, op);
            && (forall x :: x in ids <==> Eligible(w, x, op) && HasRow(rows, op, x))
            && (forall i, j :: 0 <= i < j < |ids| ==> ids[i] != ids[j])
    decreases |rows|
  {
    hide Eligible;
    if rows != [] {
      var rest := rows[1..];
      assert rows == [rows[0]] + rest;
      assert forall i :: 0 <= i < |rest| ==> rest[i] == rows[i + 1];
      EligibleMembersMean(w, rest, op);
      var ids := EligibleMembers(w, rest, op);
      NotAgain(rows);
      assert rows[0].op == op ==> rows[0].rfc !in ids;
      forall x
        ensures HasRow(rows, op, x) <==> (rows[0].op == op && rows[0].rfc == x) || HasRow(rest, op, x)
      {
        if i :| 0 <= i < |rest| && rest[i].op == op && rest[i].rfc == x {
          assert rows[i + 1].rfc == x;
        }
      }
    }
  }

  predicate DistinctIds(ids: seq<Id>) {
    forall i, j :: 0 <= i < j < |ids| ==> ids[i] != ids[j]
  }

  function Elements(ids: seq<Id>): set<Id> {
    set x | x in ids
  }

  /** Every listed RFC was last archived by the operation. */
  ghost predicate HeldBy(w: World, ids: seq<Id>, op: Id) {
    forall x :: x in ids ==>
      x in w.f.rfcs && w.f.rfcs[x].archived && Last(w.log.events, x).Some? && Last(w.log.events, x).value.op == op
  }

  lemma RestoreOneKeeps(w: World, ids: seq<Id>, op: Id)
    requires Inv(w) && ids != [] && DistinctIds(ids) && HeldBy(w, ids, op) && op in w.log.operations
    ensures var v := Flip(w, ids[0], op); Inv(v) && HeldBy(v, ids[1..], op) && Turned(w, v, {ids[0]})
  {
    hide EventsOk, StateOk;
    FlipKeeps(w, ids[0], op);
    var e := Event(ids[0], !w.f.rfcs[ids[0]].archived, op, w.f.rfcs[ids[0]].revision + 1);
    NamedAppend(w.log.events, e);
    forall x | x in ids[1..]
      ensures x != ids[0] && Last(w.log.events + [e], x) == Last(w.log.events, x)
    {
      LastOfAppend(w.log.events, e, x);
    }
  }

  lemma {:induction false} RestoreFromKeeps(w: World, ids: seq<Id>, op: Id)
    requires Inv(w) && DistinctIds(ids) && HeldBy(w, ids, op) && op in w.log.operations
    ensures var r := RestoreFrom(w, ids, op);
            r.Ok? && Inv(r.value) && Turned(w, r.value, Elements(ids)) && r.value.log.operations == w.log.operations
    decreases |ids|
  {
    hide Inv;
    if ids != [] {
      RestoreOneKeeps(w, ids, op);
      var v := Flip(w, ids[0], op);
      assert ids[0] in ids;
      RestoreFromKeeps(v, ids[1..], op);
      assert Elements(ids) == {ids[0]} + Elements(ids[1..]) by { assert ids == [ids[0]] + ids[1..]; }
      TurnedBoth(w, v, RestoreFrom(v, ids[1..], op).value, {ids[0]}, Elements(ids[1..]));
    }
  }

  /** The RFCs an operation still holds archived. */
  ghost function Held(w: World, op: Id): set<Id> {
    set x | x in w.f.rfcs && w.f.rfcs[x].archived && Last(w.log.events, x).Some? && Last(w.log.events, x).value.op == op
  }

  lemma HeldIsMember(w: World, op: Id, x: Id)
    requires Inv(w) && x in Held(w, op)
    ensures HasRow(w.log.members, op, x)
  {
    LastIsListed(w.log.events, x);
    var e := Last(w.log.events, x).value;
    assert EndsArchived(w.log.events, x);
    assert ArchivedNamed(w.log.events, op, x, e.revision);
    assert MemberNamed(w.log.members, op, x, e.revision);
  }

  lemma EligibleIffHeld(w: World, op: Id, x: Id)
    requires Inv(w)
    ensures Eligible(w, x, op) <==> x in Held(w, op)
  {
    LatestIsLast(w.log.events, x);
    if x in w.f.rfcs && w.f.rfcs[x].archived {
      assert EndsArchived(w.log.events, x);
    }
  }

  /** Restoring an operation never fails, and restores exactly the RFCs that operation still holds archived. */
  lemma RestoreKeeps(w: World, op: Id)
    requires Sound(w)
    ensures var s := RestoreOperation(w, op);
            && Sound(s.after) && Forest.Advances(w.f, s.after.f)
            && Turned(w, s.after, if op in w.log.operations then Held(w, op) else {})
            && (s.result.Ok? <==> op in w.log.operations)
            && (s.result == Ok(NoChange) <==> op in w.log.operations && Held(w, op) == {})
            && (s.result == Ok(NoChange) ==> s.after == w)
  {
    hide Forest.Inv, Eligible;
    if op in w.log.operations {
      var ids := EligibleMembers(w, w.log.members, op);
      EligibleMembersMean(w, w.log.members, op);
      forall x
        ensures x in ids <==> x in Held(w, op)
      {
        EligibleIffHeld(w, op, x);
        if x in Held(w, op) { HeldIsMember(w, op, x); }
      }
      assert Elements(ids) == Held(w, op);
      RestoreFromKeeps(w, ids, op);
      TurnedKeepsForest(w, RestoreFrom(w, ids, op).value, Elements(ids));
      if ids != [] { assert ids[0] in ids; }
    }
  }

  lemma ForestStepKeeps(w: World, g: F.Forest)
    requires Inv(w) && Forest.Inv(g) && Forest.Grows(w.f, g)
    ensures Inv(w.(f := g))
  {
    hide EventsOk;
    forall x | x in g.rfcs
      ensures g.rfcs[x].archived == EndsArchived(w.log.events, x)
    {
      if x !in w.f.rfcs { LastIsListed(w.log.events, x); }
    }
  }

  lemma StepKeeps(w: World, op: Op)
    requires Sound(w)
    ensures Sound(Apply(w, op))
  {
    hide Forest.Inv, Forest.Grows, Inv, Archive, RestoreOperation, F.Apply;
    match op
    case DoArchive(rfc, kind, reviewed, id) => ArchiveKeeps(w, rfc, kind, reviewed, id);
    case DoRestore(id) => RestoreKeeps(w, id);
    case DoForest(fop) =>
      Forest.StepKeeps(w.f, fop);
      ForestStepKeeps(w, F.Apply(w.f, fop));
  }

  /** Over every run of archive, restore and any other ticket command the log agrees with the state. */
  lemma {:induction false} RunKeeps(w: World, ops: seq<Op>)
    requires Sound(w)
    ensures Sound(Run(w, ops))
    decreases |ops|
  {
    hide Sound, Apply;
    if ops != [] {
      StepKeeps(w, ops[0]);
      RunKeeps(Apply(w, ops[0]), ops[1..]);
    }
  }

  const EMPTY := World(F.Forest(map[], map[], map[], map[], map[]), Log(map[], [], []))

  /**
   Events of an RFC alternate, starting with archived, at strictly increasing revisions; the RFC is archived iff its
   last event is; and the member rows of each operation are exactly the RFCs its archived events name.
   */
  lemma LogAgreesWithState(ops: seq<Op>, rfc: Id, i: nat, op: Id)
    requires rfc in Run(EMPTY, ops).f.rfcs && i < |Run(EMPTY, ops).log.events|
    ensures var w := Run(EMPTY, ops);
            && (w.f.rfcs[rfc].archived <==> EndsArchived(w.log.events, rfc))
            && Follows(w.log.events[..i], w.log.events[i])
            && (forall x, revision :: MemberNamed(w.log.members, op, x, revision)
                                      <==> ArchivedNamed(w.log.events, op, x, revision))
  {
    hide Run;
    assert Sound(EMPTY);
    RunKeeps(EMPTY, ops);
  }

  /** Restoring an operation right after it archived puts every RFC back in the archive state it had. */
  lemma RestoreUndoesArchive(w: World, rfc: Id, kind: ScopeKind, reviewed: Scope, op: Id)
    requires Sound(w) && Archive(w, rfc, kind, reviewed, op).result == Ok(Changed)
    ensures var v := Archive(w, rfc, kind, reviewed, op).after;
            var u := RestoreOperation(v, op);
            && u.result.Ok? && u.after.f.rfcs.Keys == w.f.rfcs.Keys
            && forall x :: x in w.f.rfcs ==> u.after.f.rfcs[x].archived == w.f.rfcs[x].archived
  {
    hide Forest.Inv, Archive, RestoreOperation;
    var v := Archive(w, rfc, kind, reviewed, op).after;
    ArchiveKeeps(w, rfc, kind, reviewed, op);
    ArchiveEventsByOp(w, rfc, kind, reviewed, op);
    RestoreKeeps(v, op);
  }

  /** The archived RFCs are exactly those the new operation holds. */
  lemma ArchiveEventsByOp(w: World, rfc: Id, kind: ScopeKind, reviewed: Scope, op: Id)
    requires Sound(w) && Archive(w, rfc, kind, reviewed, op).result == Ok(Changed)
    ensures Held(Archive(w, rfc, kind, reviewed, op).after, op) == ActiveIn(reviewed.members, 0)
  {
    hide Forest.Inv, Inv;
    ScopeSound(w.f, rfc, kind);
    var withOperation := w.(log := w.log.(operations := w.log.operations[op := reviewed]));
    ArchiveFromHolds(withOperation, reviewed.members, 0, op);
    ArchiveKeeps(w, rfc, kind, reviewed, op);
    var v := Archive(w, rfc, kind, reviewed, op).after;
    forall x
      ensures x in Held(v, op) <==> x in ActiveIn(reviewed.members, 0)
    {
      if x in w.f.rfcs && x !in ActiveIn(reviewed.members, 0) {
        NotHeldBefore(w, op, x);
      }
    }
  }

  lemma NotHeldBefore(w: World, op: Id, x: Id)
    requires Inv(w) && op !in w.log.operations
    ensures Last(w.log.events, x).Some? ==> Last(w.log.events, x).value.op != op
  {
    LastIsListed(w.log.events, x);
    if Last(w.log.events, x).Some? {
      var i :| 0 <= i < |w.log.events| && w.log.events[i] == Last(w.log.events, x).value;
    }
  }

  lemma {:induction false} ArchiveFromHolds(w: World, ms: seq<ScopeMember>, ordinal: nat, op: Id)
    requires ordinal <= |ms| && DistinctMembers(ms) && ArchiveFrom(w, ms, ordinal, op).Ok?
    requires forall i :: ordinal <= i < |ms| && !ms[i].archived ==> ms[i].rfc in w.f.rfcs
    ensures var v := ArchiveFrom(w, ms, ordinal, op).value;
            && v.f.rfcs.Keys == w.f.rfcs.Keys
            && forall x :: x in w.f.rfcs ==>
                 if x in ActiveIn(ms, ordinal)
                 then v.f.rfcs[x].archived && Last(v.log.events, x).Some? && Last(v.log.events, x).value.op == op
                 else v.f.rfcs[x] == w.f.rfcs[x] && Last(v.log.events, x) == Last(w.log.events, x)
    decreases |ms| - ordinal
  {
    hide Last;
    if ordinal < |ms| {
      if ms[ordinal].archived {
        ArchiveFromHolds(w, ms, ordinal + 1, op);
        assert ActiveIn(ms, ordinal) == ActiveIn(ms, ordinal + 1);
      } else {
        var m := ms[ordinal];
        var v := Flip(AddMember(w, MemberRow(op, m.rfc, m.revision, m.revision + 1, ordinal)), m.rfc, op);
        ArchiveFromHolds(v, ms, ordinal + 1, op);
        assert ActiveIn(ms, ordinal) == {m.rfc} + ActiveIn(ms, ordinal + 1);
        assert m.rfc !in ActiveIn(ms, ordinal + 1);
        forall x | x in w.f.rfcs
          ensures Last(v.log.events, x) == if x == m.rfc then Some(Event(x, true, op, w.f.rfcs[x].revision + 1))
                                           else Last(w.log.events, x)
        {
          LastOfAppend(w.log.events, Event(m.rfc, true, op, w.f.rfcs[m.rfc].revision + 1), x);
        }
      }
    }
  }
}
