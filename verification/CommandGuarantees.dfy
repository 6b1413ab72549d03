/** Exactly-once execution with exact replay, over every sequence of calls in which any step may fail. */
module CommandGuarantees {
  import opened Prelude
  import opened StrictJson
  import opened StrictJsonRoundTrip
  import opened CommandSteps

  const EMPTY := Db(map[], map[], map[], [])

  /** Receipts and exact results come in pairs, results decode, audit events belong to a receipt, identities differ. */
  ghost predicate Inv(db: Db) {
    && db.receipts.Keys == db.results.Keys
    && (forall id :: id in db.results ==> Decode(db.results[id]).Ok?)
    && (forall i :: 0 <= i < |db.audits| ==> db.audits[i].command in db.receipts)
    && DistinctEvents(db.audits)
  }

  function AuditsOf(audits: seq<Audit>, command: Id): seq<Audit> {
    if audits == [] then []
    else AuditsOf(audits[..|audits| - 1], command)
         + (if audits[|audits| - 1].command == command then [audits[|audits| - 1]] else [])
  }

  /** What the owners' tables and the audit log become: the callbacks of the call, composed in order. */
  predicate Composed(db: Db, d: Db, prepared: Domain, p: Prepared) {
    if p.noChange then d.domain == prepared && d.audits == db.audits
    else
      && p.apply.Some? && p.apply.value(prepared).Some?
      && var (applied, emission) := p.apply.value(prepared).value;
      && d.audits == db.audits + EventsOf(emission)
      && (if p.afterAudit.None? then d.domain == applied else p.afterAudit.value(applied) == Some(d.domain))
  }

  /** The response answered: what the factory made of the new tables, or what was prepared, in canonical form. */
  predicate Answers(d: Db, p: Prepared, x: Execution) {
    && x.schema == p.schema && x.version == p.version
    && (if p.factory.Some?
        then p.factory.value(d.domain).Some? && x.response == Canonical(p.factory.value(d.domain).value)
        else p.response.Some? && x.response == Canonical(p.response.value))
  }

  /** The execution is that of the call: its callbacks' tables, events and response, under its own receipt. */
  predicate Performed(db: Db, d: Db, c: Call, x: Execution) {
    && c.prepare(db.domain).Some?
    && var (prepared, p) := c.prepare(db.domain).value;
    && x.noChange == p.noChange && x.resultId == p.resultId
    && x.resultType == (if p.noChange then Some("NO_CHANGE") else p.resultType)
    && Composed(db, d, prepared, p) && Answers(d, p, x)
    && c.envelope.command in d.receipts
    && var e, r := c.envelope, d.receipts[c.envelope.command];
    && r.kind == e.kind && r.targetType == e.targetType && r.targetId == e.targetId && r.at == c.now
    && r.request == Request(e.kind, e.targetType, e.targetId, Canonical(e.payload), e.base, e.authorizing)
  }

  /** One committed execution of the call: its receipt, exact result, audit events and effect appear together, and
      nothing else does. */
  ghost predicate Commits(db: Db, d: Db, c: Call, x: Execution) {
    Kept(db, d, c.envelope.command, x) && Performed(db, d, c, x)
  }

  ghost predicate Kept(db: Db, d: Db, command: Id, x: Execution) {
    && command !in db.receipts
    && command in d.receipts && d.receipts == db.receipts[command := d.receipts[command]]
    && command in d.results && d.results == db.results[command := d.results[command]]
    && db.audits <= d.audits
    && (forall i :: |db.audits| <= i < |d.audits| ==> d.audits[i].command == command)
    && (x.noChange <==> |d.audits| == |db.audits|)
    && d.receipts[command].resultType == x.resultType && d.receipts[command].resultId == x.resultId
    && d.results[command].schema == x.schema && d.results[command].version == x.version
    && Decode(d.results[command]) == Ok(x.response) && !x.replayed
    && (x.noChange ==> x.resultType == Some(NO_CHANGE))
  }

  lemma {:induction false} WriteAuditsSound(audits: seq<Audit>, events: seq<Audit>, fits: Audit -> bool)
    requires DistinctEvents(audits)
    ensures var r := WriteAudits(audits, events, fits);
            r.Some? ==> r.value == audits + events && DistinctEvents(r.value)
    decreases |events|
  {
    if events == [] {
      assert audits + events == audits;
    } else if fits(events[0]) && !(exists i :: 0 <= i < |audits| && audits[i].id == events[0].id) {
      WriteAuditsSound(audits + [events[0]], events[1..], fits);
      assert audits + [events[0]] + events[1..] == audits + events;
    }
  }

  /** What was encoded decodes to the very value the first caller got. */
  lemma EncodeDecodes(response: Json, schema: string, version: int)
    requires schema != "" && version > 0 && Encode(response, schema, version).Ok?
    ensures var (text, value) := Encode(response, schema, version).value;
            Decode(Stored(schema, version, text, Sha256(text))) == Ok(value) && value == Canonical(response)
  {
    hide Dump, LoadCanonical, Bytes, Depth, Items;
    var bounds := ResponseBounds(schema, version).value;
    DumpLoads(response, bounds);
    BoundedIsDump(response, bounds);
  }

  lemma BoundedIsDump(v: Json, b: Bounds)
    requires DumpBounded(v, b).Ok?
    ensures DumpBounded(v, b).value == Dump(v)
  {
  }

  /** An encodable response: with its bounds respected nothing in the encode and re-read can fail. */
  lemma EncodeTotal(response: Json, schema: string, version: int)
    requires ResponseBounds(schema, version).Ok? && Proper(response)
    ensures Encode(response, schema, version).Ok? <==> DumpBounded(response, ResponseBounds(schema, version).value).Ok?
  {
    hide Dump, LoadCanonical, Bytes, Depth, Items;
    DumpLoads(response, ResponseBounds(schema, version).value);
    if DumpBounded(response, ResponseBounds(schema, version).value).Ok? {
      BoundedIsDump(response, ResponseBounds(schema, version).value);
    }
  }

  lemma EffectSound(db: Db, p: Prepared, command: Id, fits: Audit -> bool, faults: Faults)
    requires p.apply.Some? && DistinctEvents(db.audits) && Effect(db, p, command, fits, faults).Ok?
    ensures var d := Effect(db, p, command, fits, faults).value;
            && d.receipts == db.receipts && d.results == db.results && DistinctEvents(d.audits)
            && db.audits <= d.audits && |db.audits| < |d.audits|
            && (forall i :: |db.audits| <= i < |d.audits| ==> d.audits[i].command == command)
            && (!p.noChange ==> Composed(db, d, db.domain, p))
  {
    var events := NormalizeEmission(p.apply.value(db.domain).value.1, command).value;
    WriteAuditsSound(db.audits, events, fits);
    var d := Effect(db, p, command, fits, faults).value;
    assert forall i :: |db.audits| <= i < |d.audits| ==> d.audits[i] == events[i - |db.audits|];
  }

  lemma FreshCommits(db: Db, e: Envelope, p: Prepared, fits: Audit -> bool, now: nat, faults: Faults)
    requires Inv(db) && e.command !in db.receipts && Fresh(db, e, p, fits, now, faults).Ok?
    ensures var (d, x) := Fresh(db, e, p, fits, now, faults).value;
            Inv(d) && Kept(db, d, e.command, x) && ReplayMatches(d.receipts[e.command], e)
            && Composed(db, d, db.domain, p) && Answers(d, p, x)
            && x.noChange == p.noChange && x.resultId == p.resultId && x.resultType == StoredType(p)
            && d.receipts[e.command].at == now && d.receipts[e.command].request == RequestHash(e)
            && (!x.noChange && x.resultType == Some(NO_CHANGE) <==> !p.noChange && p.resultType == Some(NO_CHANGE))
  {
    hide Encode, Decode, Effect, RequestHash;
    var receipt := Receipt(e.kind, RequestHash(e), e.targetType, e.targetId, now, StoredType(p), p.resultId);
    var received := db.(receipts := db.receipts[e.command := receipt]);
    if !p.noChange { EffectSound(received, p, e.command, fits, faults); }
    var effected := if p.noChange then Ok(received) else Effect(received, p, e.command, fits, faults);
    EncodeDecodes(Response(effected.value, p).value, p.schema, p.version);
  }

  lemma ComposedFrom(db: Db, prepared: Domain, d: Db, p: Prepared)
    requires Composed(db.(domain := prepared), d, prepared, p)
    ensures Composed(db, d, prepared, p)
  {
  }

  /** What a transaction that reaches its COMMIT has done: replayed without a trace, or committed one execution. */
  lemma TransactCommits(db: Db, e: Envelope, prepare: Prepare, fits: Audit -> bool, now: nat, faults: Faults)
    requires Inv(db) && Transact(db, e, prepare, fits, now, faults).Ok?
    ensures var (d, x) := Transact(db, e, prepare, fits, now, faults).value;
            && Inv(d)
            && (e.command in db.receipts ==> d == db && x.replayed)
            && (e.command !in db.receipts ==> Commits(db, d, Call(e, prepare, fits, now, faults), x)
                                              && ReplayMatches(d.receipts[e.command], e))
  {
    hide Fresh, Decode, Composed, Answers;
    if e.command !in db.receipts {
      var (prepared, p) := prepare(db.domain).value;
      FreshCommits(db.(domain := prepared), e, p, fits, now, faults);
      var d := Fresh(db.(domain := prepared), e, p, fits, now, faults).value.0;
      ComposedFrom(db, prepared, d, p);
    }
  }

  /** One call: either the database is untouched, or one execution of the command committed as a whole. */
  lemma CallIsAtomic(db: Db, c: Call)
    requires Inv(db)
    ensures var (d, r) := Take(db, c);
            && Inv(d)
            && (c.envelope.command in db.receipts ==> d == db)
            && (d != db ==> exists x :: Commits(db, d, c, x))
            && (r.Ok? && !r.value.replayed ==> Commits(db, d, c, r.value))
            && (r.Ok? && r.value.replayed ==> d == db && c.envelope.command in db.receipts)
  {
    hide Transact, Inv, Commits, EnvelopeValid;
    if Transact(db, c.envelope, c.prepare, c.fits, c.now, c.faults).Ok? {
      TransactCommits(db, c.envelope, c.prepare, c.fits, c.now, c.faults);
      CommitsIsFresh(db, c);
    }
  }

  lemma CommitsIsFresh(db: Db, c: Call)
    requires Inv(db) && Transact(db, c.envelope, c.prepare, c.fits, c.now, c.faults).Ok?
    ensures var x := Transact(db, c.envelope, c.prepare, c.fits, c.now, c.faults).value.1;
            x.replayed <==> c.envelope.command in db.receipts
  {
    hide Fresh;
    TransactCommits(db, c.envelope, c.prepare, c.fits, c.now, c.faults);
  }

  lemma AuditsOfExtended(a: seq<Audit>, b: seq<Audit>, command: Id)
    requires a <= b && forall i :: |a| <= i < |b| ==> b[i].command != command
    ensures AuditsOf(b, command) == AuditsOf(a, command)
    decreases |b|
  {
    if |b| > |a| {
      AuditsOfExtended(a, b[..|b| - 1], command);
    } else {
      assert a == b;
    }
  }

  /** A committed command keeps its receipt, its exact result and exactly its own audit events for ever. */
  lemma {:induction false} CommittedForever(db: Db, calls: seq<Call>, command: Id)
    requires Inv(db) && command in db.receipts
    ensures var d := Run(db, calls);
            && Inv(d) && command in d.receipts && command in d.results
            && d.receipts[command] == db.receipts[command] && d.results[command] == db.results[command]
            && AuditsOf(d.audits, command) == AuditsOf(db.audits, command)
    decreases |calls|
  {
    hide Take;
    if calls != [] {
      CallIsAtomic(db, calls[0]);
      var d := Take(db, calls[0]).0;
      if d != db {
        AuditsOfExtended(db.audits, d.audits, command);
      }
      CommittedForever(d, calls[1..], command);
    }
  }

  lemma {:induction false} RunKeeps(db: Db, calls: seq<Call>)
    requires Inv(db)
    ensures Inv(Run(db, calls))
    decreases |calls|
  {
    hide Take, Inv;
    if calls != [] {
      CallIsAtomic(db, calls[0]);
      RunKeeps(Take(db, calls[0]).0, calls[1..]);
    }
  }

  /** Exactly once: when a call of a command has changed the database, no later call of that command ever does. */
  lemma AtMostOneEffect(before: seq<Call>, first: Call, between: seq<Call>, second: Call)
    requires first.envelope.command == second.envelope.command
    requires var db := Run(EMPTY, before); Take(db, first).0 != db
    ensures var db := Run(Take(Run(EMPTY, before), first).0, between); Take(db, second).0 == db
  {
    hide Take, Run, Inv;
    EmptyInv();
    RunKeeps(EMPTY, before);
    var db := Run(EMPTY, before);
    CallIsAtomic(db, first);
    CommittedForever(Take(db, first).0, between, first.envelope.command);
    CallIsAtomic(Run(Take(db, first).0, between), second);
  }

  lemma EmptyInv()
    ensures Inv(EMPTY)
  {
  }

  /** A call whose unit of work meets no failure. */
  predicate Untroubled(c: Call) {
    EnvelopeValid(c.envelope)
    && !c.faults.nested && !c.faults.admission && !c.faults.open && !c.faults.begin
    && !c.faults.readReceipt && !c.faults.readResult && c.faults.commit == CommitFault.Commits
  }

  lemma {:induction false} WriteAuditsTotal(audits: seq<Audit>, events: seq<Audit>, fits: Audit -> bool)
    requires forall i :: 0 <= i < |events| ==> fits(events[i])
    requires DistinctEvents(audits + events)
    ensures WriteAudits(audits, events, fits).Some?
    decreases |events|
  {
    if events != [] {
      var all := audits + events;
      forall i | 0 <= i < |audits|
        ensures audits[i].id != events[0].id
      {
        assert all[i] == audits[i] && all[|audits|] == events[0];
      }
      assert (audits + [events[0]]) + events[1..] == all;
      WriteAuditsTotal(audits + [events[0]], events[1..], fits);
    }
  }

  /** The tables at the end of the unit of work, when every callback returns. */
  function Ending(prepared: Domain, p: Prepared): Option<Domain> {
    if p.noChange then Some(prepared)
    else if p.apply.None? || p.apply.value(prepared).None? then None
    else if p.afterAudit.None? then Some(p.apply.value(prepared).value.0)
    else p.afterAudit.value(p.apply.value(prepared).value.0)
  }

  /** The audit events of a material command: some, all its own, with new identities and fitting their contracts. */
  ghost predicate Auditable(db: Db, prepared: Domain, p: Prepared, command: Id, fits: Audit -> bool) {
    !p.noChange && p.apply.Some? && p.apply.value(prepared).Some? ==>
      var events := EventsOf(p.apply.value(prepared).value.1);
      && events != [] && AllOf(events, command) && DistinctEvents(db.audits + events)
      && forall i :: 0 <= i < |events| ==> fits(events[i])
  }

  /** A new command whose callbacks return, whose events can be written and whose response fits its bounds is executed. */
  lemma ProperCallSucceeds(db: Db, c: Call, prepared: Domain, p: Prepared, response: Json)
    requires Inv(db) && c.envelope.command !in db.receipts && Untroubled(c)
    requires !c.faults.receipt && !c.faults.audit && !c.faults.result
    requires c.prepare(db.domain) == Some((prepared, p)) && PreparedValid(p) && Ending(prepared, p).Some?
    requires Auditable(db, prepared, p, c.envelope.command, c.fits)
    requires Some(response) == if p.factory.Some? then p.factory.value(Ending(prepared, p).value) else p.response
    requires Proper(response) && ResponseBounds(p.schema, p.version).Ok?
    requires DumpBounded(response, ResponseBounds(p.schema, p.version).value).Ok?
    ensures Take(db, c).1.Ok? && !Take(db, c).1.value.replayed
  {
    hide Inv, EnvelopeValid, Encode, DumpBounded, Proper, PreparedValid, RequestHash;
    EncodeTotal(response, p.schema, p.version);
    MaterialMeans(p);
    if !p.noChange {
      var events := EventsOf(p.apply.value(prepared).value.1);
      WriteAuditsTotal(db.audits, events, c.fits);
      OwnDistinct(db.audits, events);
    }
    hide WriteAudits, DistinctEvents;
    assert Transact(db, c.envelope, c.prepare, c.fits, c.now, c.faults).Ok?;
  }

  lemma MaterialMeans(p: Prepared)
    requires PreparedValid(p)
    ensures !p.noChange ==> p.apply.Some?
  {
  }

  lemma OwnDistinct(audits: seq<Audit>, events: seq<Audit>)
    requires DistinctEvents(audits + events)
    ensures DistinctEvents(events)
  {
    forall i, j | 0 <= i < j < |events|
      ensures events[i].id != events[j].id
    {
      assert (audits + events)[|audits| + i] == events[i] && (audits + events)[|audits| + j] == events[j];
    }
  }

  /**
   Exact replay: once an execution has committed (even if its caller saw an error), every later matching call returns
   the same result identity, response schema, version and decoded response, and leaves the database unchanged.
   */
  lemma ReplayIsExact(db: Db, first: Call, between: seq<Call>, again: Call)
    requires Inv(db) && first.envelope.command !in db.receipts && Take(db, first).0 != db
    requires Transact(db, first.envelope, first.prepare, first.fits, first.now, first.faults).Ok?
    requires again.envelope.command == first.envelope.command && Untroubled(again)
    requires RequestHash(again.envelope) == RequestHash(first.envelope)
    ensures var x := Transact(db, first.envelope, first.prepare, first.fits, first.now, first.faults).value.1;
            var d := Run(Take(db, first).0, between);
            Take(d, again) == (d, Ok(x.(replayed := true, noChange := x.resultType == Some(NO_CHANGE))))
  {
    hide Transact, Run, Inv, Decode, EnvelopeValid;
    CallIsAtomic(db, first);
    TransactCommits(db, first.envelope, first.prepare, first.fits, first.now, first.faults);
    TakenIsTransacted(db, first);
    CommittedForever(Take(db, first).0, between, first.envelope.command);
    var d := Run(Take(db, first).0, between);
    TransactReplays(d, again);
  }

  lemma TakenIsTransacted(db: Db, c: Call)
    requires Take(db, c).0 != db && Transact(db, c.envelope, c.prepare, c.fits, c.now, c.faults).Ok?
    ensures Take(db, c).0 == Transact(db, c.envelope, c.prepare, c.fits, c.now, c.faults).value.0
  {
  }

  lemma TransactReplays(d: Db, c: Call)
    requires c.envelope.command in d.receipts && !c.faults.readReceipt && !c.faults.readResult
    ensures var r := Replay(d, c.envelope);
            Transact(d, c.envelope, c.prepare, c.fits, c.now, c.faults)
            == if r.Err? then Err(r.error) else Ok((d, r.value))
  {
  }

  /**
   The no-change flag of a replay is that of the first call exactly when the first was not a material command that
   named its own result type "NO_CHANGE".
   */
  lemma ReplayKeepsNoChange(db: Db, e: Envelope, p: Prepared, fits: Audit -> bool, now: nat, faults: Faults)
    requires Inv(db) && e.command !in db.receipts && Fresh(db, e, p, fits, now, faults).Ok?
    ensures var (d, x) := Fresh(db, e, p, fits, now, faults).value;
            && Replay(d, e).Ok?
            && (Replay(d, e).value.noChange == x.noChange <==> !(!p.noChange && p.resultType == Some(NO_CHANGE)))
  {
    hide Fresh, Decode, Inv;
    FreshCommits(db, e, p, fits, now, faults);
  }

  /** The failing family is not empty: such a command runs, commits an effect, and replays as no change. */
  lemma MaterialNoChangeExists(e: Envelope, event: Audit)
    requires EnvelopeValid(e) && event.command == e.command
    ensures exists p: Prepared, fits: Audit -> bool, faults: Faults ::
              && Fresh(EMPTY, e, p, fits, 0, faults).Ok? && !p.noChange
              && Fresh(EMPTY, e, p, fits, 0, faults).value.1.noChange == false
              && Replay(Fresh(EMPTY, e, p, fits, 0, faults).value.0, e).Ok?
              && Replay(Fresh(EMPTY, e, p, fits, 0, faults).value.0, e).value.noChange
  {
    hide *;
    var p, fits := Labelled(event), (a: Audit) => true;
    LabelledRuns(e, event, fits);
    EmptyInv();
    LabelledFlags(event);
    NothingReceived(e.command);
    ReplayKeepsNoChange(EMPTY, e, p, fits, 0, CALM);
  }

  const CALM := Faults(false, false, false, false, false, false, false, false, false, CommitFault.Commits, false, false)

  /** A material command that names its result type "NO_CHANGE". */
  function Labelled(event: Audit): Prepared {
    var apply: Domain -> Option<(Domain, Emission)> := (d: Domain) => Some((d, One(event)));
    Prepared(false, Some(NO_CHANGE), None, Some(apply), "S", 1, Some(JNull), None, None)
  }

  lemma LabelledFlags(event: Audit)
    ensures !Labelled(event).noChange && Labelled(event).resultType == Some(NO_CHANGE)
  {
  }

  lemma NothingReceived(command: Id)
    ensures command !in EMPTY.receipts
  {
  }

  lemma LabelledRuns(e: Envelope, event: Audit, fits: Audit -> bool)
    requires event.command == e.command && fits(event)
    ensures var r := Fresh(EMPTY, e, Labelled(event), fits, 0, CALM); r.Ok? && !r.value.1.noChange
  {
    hide Encode, RequestHash, WriteAudits;
    NullEncodes();
    OneAudit(event, fits);
  }

  lemma OneAudit(event: Audit, fits: Audit -> bool)
    requires fits(event)
    ensures WriteAudits([], [event], fits) == Some([event])
  {
    WriteAuditsSound([], [event], fits);
    assert [event][1..] == [] && [] + [event] == [event];
    assert WriteAudits([event], [], fits) == Some([event]);
  }

  lemma NullEncodes()
    ensures Encode(JNull, "S", 1) == Ok(([NullWord], JNull))
  {
    assert Dump(JNull) == [NullWord];
    assert Bytes([NullWord]) == 4;
    LoadsDumped(JNull);
  }

  /* ---- Refusals and failures ---- */

  /** Names are there, the payload is proper JSON, base revisions are positive, fingerprints are 64 lower-case hex digits. */
  predicate WellMade(e: Envelope) {
    && |e.kind| > 0 && |e.targetType| > 0 && Proper(e.payload) && "" !in e.base && "" !in e.authorizing
    && (forall k :: k in e.base ==> 1 <= e.base[k])
    && (forall k :: k in e.authorizing ==>
          |e.authorizing[k]| == 64
          && forall i :: 0 <= i < 64 ==> '0' <= e.authorizing[k][i] <= '9' || 'a' <= e.authorizing[k][i] <= 'f')
  }

  lemma WellMadeIff(e: Envelope)
    ensures EnvelopeValid(e) <==> WellMade(e)
  {
  }

  /** A malformed envelope never reaches the database. */
  lemma MalformedRefused(db: Db, c: Call)
    requires !WellMade(c.envelope)
    ensures Take(db, c) == (db, Err(Validation))
  {
    hide EnvelopeValid, WellMade, Transact;
    WellMadeIff(c.envelope);
  }

  /** A preparation is coherent: a no-change one carries no effect or result, a material one an effect; one response. */
  predicate Coherent(p: Prepared) {
    && p.version >= 1 && |p.schema| > 0 && (p.response.Some? <==> p.factory.None?)
    && (p.noChange ==> p.apply.None? && p.afterAudit.None? && p.resultId.None? && p.resultType in {None, Some("NO_CHANGE")})
    && (!p.noChange ==> p.apply.Some?)
  }

  lemma CoherentIff(p: Prepared)
    ensures PreparedValid(p) <==> Coherent(p)
  {
  }

  /** An incoherent preparation is refused with nothing kept. */
  lemma IncoherentRefused(db: Db, c: Call, prepared: Domain, p: Prepared)
    requires Untroubled(c) && c.envelope.command !in db.receipts && c.prepare(db.domain) == Some((prepared, p))
    requires !Coherent(p)
    ensures Take(db, c) == (db, Err(if c.faults.rollback then RollbackFailure else Validation))
  {
    hide EnvelopeValid, PreparedValid, Coherent;
    CoherentIff(p);
  }

  /**
   A call that reports an error has kept nothing, except one whose COMMIT took effect and then raised; a COMMIT that
   fails keeps nothing and always reports an error.
   */
  lemma ErrorsKeepNothing(db: Db, c: Call)
    ensures var (d, r) := Take(db, c);
            && (r.Err? && d != db ==> c.faults.commit == CommitsThenRaises)
            && (c.faults.commit == CommitFails ==> d == db && r.Err?)
            && (c.faults.commit == CommitsThenRaises ==> r.Err?)
            && (c.faults.nested || c.faults.admission || c.faults.open || c.faults.begin ==> d == db && r.Err?)
            && (c.faults.readReceipt ==> d == db && r.Err?)
  {
    hide EnvelopeValid, Fresh, Replay;
  }

  /** How a transaction that reached its COMMIT ends: kept and answered, not kept, or kept although an error is reported. */
  lemma CommitEnds(db: Db, c: Call)
    requires Inv(db) && c.envelope.command !in db.receipts && !Refused(c.envelope, c.faults)
    requires Transact(db, c.envelope, c.prepare, c.fits, c.now, c.faults).Ok?
    ensures var (d, r) := Take(db, c);
            match c.faults.commit
            case Commits => r.Ok? && Commits(db, d, c, r.value)
            case CommitFails =>
              d == db && r == Err(if c.faults.rollback then RollbackFailure else if c.faults.busy then Busy else Persistence)
            case CommitsThenRaises =>
              (exists x :: Commits(db, d, c, x)) && r == Err(if c.faults.busy then Busy else Persistence)
  {
    hide Transact, Commits, Inv, EnvelopeValid;
    TransactCommits(db, c.envelope, c.prepare, c.fits, c.now, c.faults);
  }

  /** The response bounds are allocated per schema, and an allocated schema has only its first version. */
  lemma BoundsAllocated(schema: string, version: int)
    ensures ResponseBounds("RfcBranchV1", 1) == Ok(Bounds(32 * 1024 * 1024, 8, 8192))
    ensures ResponseBounds("InventoryMutationResultV1", 1) == Ok(Bounds(512 * 1024, 8, 8192))
    ensures schema !in {"RfcBranchV1", "InventoryMutationResultV1"} ==>
              ResponseBounds(schema, version) == Ok(Bounds(512 * 1024, 8, 512))
    ensures schema in {"RfcBranchV1", "InventoryMutationResultV1"} && version != 1 ==>
              ResponseBounds(schema, version) == Err(Validation)
  {
  }

  /** A stored result decodes exactly if its digest is that of its text, and the text canonical within its schema's bounds. */
  lemma DecodesIff(s: Stored)
    ensures Decode(s).Ok? <==>
              && s.schema != "" && s.version > 0 && ResponseBounds(s.schema, s.version).Ok? && s.digest == Sha256(s.text)
              && exists v :: Proper(v) && s.text == Dump(v) && DumpBounded(v, ResponseBounds(s.schema, s.version).value).Ok?
  {
    hide LoadCanonical, DumpBounded, Dump, Proper;
    if ResponseBounds(s.schema, s.version).Ok? {
      var b := ResponseBounds(s.schema, s.version).value;
      LoadsIff(s.text, b);
    }
  }

  lemma LoadsIff(text: seq<Token>, b: Bounds)
    ensures LoadCanonical(text, b).Ok? <==> exists v :: Proper(v) && text == Dump(v) && DumpBounded(v, b).Ok?
  {
    if LoadCanonical(text, b).Ok? {
      CanonicalTextsOnly(text, b);
      var v := LoadCanonical(text, b).value;
      assert Proper(v) && text == Dump(v) && DumpBounded(v, b).Ok?;
    }
    if v :| Proper(v) && text == Dump(v) && DumpBounded(v, b).Ok? {
      hide LoadCanonical, DumpBounded, Dump, Proper;
      DumpLoads(v, b);
    }
  }

  /** After a committed call, an envelope matches its receipt exactly if it makes the same request. */
  lemma MatchesIffSameRequest(db: Db, d: Db, c: Call, x: Execution, e: Envelope)
    requires Commits(db, d, c, x)
    ensures var first := c.envelope;
            ReplayMatches(d.receipts[first.command], e)
            <==> e.kind == first.kind && e.targetType == first.targetType && e.targetId == first.targetId
                 && Canonical(e.payload) == Canonical(first.payload) && e.base == first.base
                 && e.authorizing == first.authorizing
  {
    hide Kept, Composed, Answers, Canonical;
  }

  /** A mismatching reuse of a command identity is refused and changes nothing. */
  lemma MismatchChangesNothing(d: Db, c: Call)
    requires Inv(d) && c.envelope.command in d.receipts && Untroubled(c)
    requires !ReplayMatches(d.receipts[c.envelope.command], c.envelope)
    ensures Take(d, c).0 == d && Take(d, c).1.Err?
    ensures !c.faults.rollback ==> Take(d, c).1 == Err(Conflict)
  {
    hide Inv, ReplayMatches, EnvelopeValid;
  }

  /** The missing-result and integrity failures of a replay are unreachable, whatever calls ran before. */
  lemma ResultAlwaysAvailable(calls: seq<Call>, c: Call)
    requires !c.faults.rollback
    ensures Take(Run(EMPTY, calls), c).1 != Err(ResultUnavailable)
    ensures c.envelope.command in Run(EMPTY, calls).receipts ==> Take(Run(EMPTY, calls), c).1 != Err(Integrity)
  {
    hide Run, Transact, EnvelopeValid, Inv;
    EmptyInv();
    RunKeeps(EMPTY, calls);
    var db := Run(EMPTY, calls);
    TransactErrors(db, c.envelope, c.prepare, c.fits, c.now, c.faults);
  }

  lemma TransactErrors(db: Db, e: Envelope, prepare: Prepare, fits: Audit -> bool, now: nat, faults: Faults)
    requires Inv(db)
    ensures var t := Transact(db, e, prepare, fits, now, faults);
            t != Err(ResultUnavailable) && (e.command in db.receipts ==> t != Err(Integrity))
  {
    hide Fresh, Decode, ReplayMatches;
    if e.command !in db.receipts && prepare(db.domain).Some? {
      var p := prepare(db.domain).value;
      FreshErrors(db.(domain := p.0), e, p.1, fits, now, faults);
    }
  }

  lemma FreshErrors(db: Db, e: Envelope, p: Prepared, fits: Audit -> bool, now: nat, faults: Faults)
    ensures Fresh(db, e, p, fits, now, faults) != Err(ResultUnavailable)
  {
    hide LoadCanonical, DumpBounded, WriteAudits;
  }
}
