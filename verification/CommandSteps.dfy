/**
 The idempotent command boundary as steps on a database value: receipts, exact results, audit events and the owners'
 tables. Callbacks are arbitrary functions of the owners' tables, and may raise; every statement may fail.
 */
module CommandSteps {
  import opened Prelude
  import opened StrictJson

  /** The owners' tables, by name. */
  type Domain = map<string, Json>

  datatype Envelope = Envelope(command: Id, kind: string, targetType: string, targetId: Option<string>, payload: Json,
                               base: map<string, int>, authorizing: map<string, string>)

  /** The request hash: SHA-256 of the canonical request, identified with it. */
  datatype Request = Request(kind: string, targetType: string, targetId: Option<string>, payload: Json,
                             base: map<string, int>, authorizing: map<string, string>)

  datatype Receipt = Receipt(kind: string, request: Request, targetType: string, targetId: Option<string>, at: nat,
                             resultType: Option<string>, resultId: Option<string>)

  datatype TextDigest = Sha256(text: seq<Token>)

  datatype Stored = Stored(schema: string, version: int, text: seq<Token>, digest: TextDigest)

  datatype Audit = Audit(id: Id, command: Id, content: string)

  datatype Emission = NoEmission | One(event: Audit) | Many(events: seq<Audit>)

  datatype Db = Db(domain: Domain, receipts: map<Id, Receipt>, results: map<Id, Stored>, audits: seq<Audit>)

  datatype Prepared = Prepared(
    noChange: bool, resultType: Option<string>, resultId: Option<string>,
    apply: Option<Domain -> Option<(Domain, Emission)>>, schema: string, version: int, response: Option<Json>,
    factory: Option<Domain -> Option<Json>>, afterAudit: Option<Domain -> Option<Domain>>)

  datatype Execution = Execution(resultType: Option<string>, resultId: Option<string>, replayed: bool, noChange: bool,
                                 schema: string, version: int, response: Json)

  datatype Error =
    | Validation | Conflict | ResultUnavailable | Integrity | Persistence | Busy | RollbackFailure | Quiescing
    | Raised | AuditInvalid

  type Prepare = Domain -> Option<(Domain, Prepared)>

  const NO_CHANGE := "NO_CHANGE"

  /* ---- Envelope ---- */

  predicate HexDigit(c: char) { '0' <= c <= '9' || 'a' <= c <= 'f' }

  predicate Fingerprint(s: string) {
    |s| == 64 && forall i :: 0 <= i < 64 ==> HexDigit(s[i])
  }

  predicate EnvelopeValid(e: Envelope) {
    && e.kind != "" && e.targetType != "" && Proper(e.payload)
    && (forall k :: k in e.base ==> k != "" && e.base[k] > 0)
    && (forall k :: k in e.authorizing ==> k != "" && Fingerprint(e.authorizing[k]))
  }

  function RequestHash(e: Envelope): Request {
    Request(e.kind, e.targetType, e.targetId, Canonical(e.payload), e.base, e.authorizing)
  }

  predicate ReplayMatches(r: Receipt, e: Envelope) {
    r.kind == e.kind && r.request == RequestHash(e) && r.targetType == e.targetType && r.targetId == e.targetId
  }

  /* ---- Prepared mutation and audit emission ---- */

  predicate PreparedValid(p: Prepared) {
    && (if p.noChange then p.apply.None? && p.afterAudit.None? && p.resultId.None?
                           && (p.resultType.None? || p.resultType == Some(NO_CHANGE))
        else p.apply.Some?)
    && p.schema != "" && p.version > 0
    && (p.factory.Some? <==> p.response.None?)
  }

  function StoredType(p: Prepared): Option<string> {
    if p.noChange then Some(NO_CHANGE) else p.resultType
  }

  predicate DistinctEvents(events: seq<Audit>) {
    forall i, j :: 0 <= i < j < |events| ==> events[i].id != events[j].id
  }

  function EventsOf(e: Emission): seq<Audit> {
    match e
    case NoEmission => []
    case One(event) => [event]
    case Many(events) => events
  }

  predicate AllOf(events: seq<Audit>, command: Id) {
    forall i :: 0 <= i < |events| ==> events[i].command == command
  }

  /** At least one event, all of this command and with different identities. */
  function NormalizeEmission(e: Emission, command: Id): Result<seq<Audit>, Error> {
    var events := EventsOf(e);
    if events != [] && AllOf(events, command) && DistinctEvents(events) then Ok(events) else Err(Persistence)
  }

  /** The audit writer over the events in turn: each must fit its contract and carry an identity not yet used. */
  function WriteAudits(audits: seq<Audit>, events: seq<Audit>, fits: Audit -> bool): Option<seq<Audit>>
    decreases |events|
  {
    if events == [] then Some(audits)
    else if !fits(events[0]) || exists i :: 0 <= i < |audits| && audits[i].id == events[0].id then None
    else WriteAudits(audits + [events[0]], events[1..], fits)
  }

  /* ---- Response contract ---- */

  const DEFAULT_BOUNDS := Bounds(524288, 8, 512)
  const BRANCH_BOUNDS := Bounds(33554432, 8, 8192)
  const INVENTORY_BOUNDS := Bounds(524288, 8, 8192)

  function ResponseBounds(schema: string, version: int): Result<Bounds, Error> {
    if schema == "RfcBranchV1" then if version == 1 then Ok(BRANCH_BOUNDS) else Err(Validation)
    else if schema == "InventoryMutationResultV1" then if version == 1 then Ok(INVENTORY_BOUNDS) else Err(Validation)
    else Ok(DEFAULT_BOUNDS)
  }

  /** The stored text of a response and the value it decodes to. */
  function Encode(response: Json, schema: string, version: int): Result<(seq<Token>, Json), Error> {
    var bounds := ResponseBounds(schema, version);
    if bounds.Err? then Err(bounds.error)
    else if !Proper(response) then Err(Validation)
    else
      var text := DumpBounded(response, bounds.value);
      if text.Err? then Err(Validation) else
      var value := LoadCanonical(text.value, bounds.value);
      if value.Err? then Err(Validation) else Ok((text.value, value.value))
  }

  function Decode(s: Stored): Result<Json, Error> {
    if s.schema == "" || s.version <= 0 then Err(Integrity) else
    var bounds := ResponseBounds(s.schema, s.version);
    if bounds.Err? then Err(Integrity) else
    var value := LoadCanonical(s.text, bounds.value);
    if value.Err? || s.digest != Sha256(s.text) then Err(Integrity) else Ok(value.value)
  }

  /* ---- One execution ---- */

  /** Which statement of the unit of work fails, if any, and how the COMMIT ends. */
  datatype Faults = Faults(nested: bool, admission: bool, open: bool, begin: bool, readReceipt: bool, readResult: bool,
                           receipt: bool, audit: bool, result: bool, commit: CommitFault, rollback: bool, busy: bool)

  /** A COMMIT that raises may have kept nothing, or may already have taken effect. */
  datatype CommitFault = Commits | CommitFails | CommitsThenRaises

  function Replay(db: Db, e: Envelope): Result<Execution, Error>
    requires e.command in db.receipts
  {
    var r := db.receipts[e.command];
    if !ReplayMatches(r, e) then Err(Conflict)
    else if e.command !in db.results then Err(ResultUnavailable)
    else
      var s := db.results[e.command];
      var value := Decode(s);
      if value.Err? then Err(value.error)
      else Ok(Execution(r.resultType, r.resultId, true, r.resultType == Some(NO_CHANGE), s.schema, s.version, value.value))
  }

  /** Apply, audit and after-audit of a material command. */
  function Effect(db: Db, p: Prepared, command: Id, fits: Audit -> bool, faults: Faults): Result<Db, Error>
    requires p.apply.Some?
  {
    var applied := p.apply.value(db.domain);
    if applied.None? then Err(Raised) else
    var events := NormalizeEmission(applied.value.1, command);
    if events.Err? then Err(events.error)
    else if faults.audit then Err(Persistence)
    else
      var audits := WriteAudits(db.audits, events.value, fits);
      if audits.None? then Err(AuditInvalid)
      else if p.afterAudit.None? then Ok(db.(domain := applied.value.0, audits := audits.value))
      else
        var after := p.afterAudit.value(applied.value.0);
        if after.None? then Err(Raised) else Ok(db.(domain := after.value, audits := audits.value))
  }

  function Response(db: Db, p: Prepared): Option<Json> {
    if p.factory.Some? then p.factory.value(db.domain) else p.response
  }

  /** The receipt goes in first, then the effect, then the exact result of the same unit of work. */
  function Fresh(db: Db, e: Envelope, p: Prepared, fits: Audit -> bool, now: nat, faults: Faults)
    : Result<(Db, Execution), Error>
  {
    if !PreparedValid(p) then Err(Validation)
    else if faults.receipt then Err(Persistence)
    else
      var receipt := Receipt(e.kind, RequestHash(e), e.targetType, e.targetId, now, StoredType(p), p.resultId);
      var received := db.(receipts := db.receipts[e.command := receipt]);
      var effected := if p.noChange then Ok(received) else Effect(received, p, e.command, fits, faults);
      if effected.Err? then Err(effected.error) else
      var response := Response(effected.value, p);
      if response.None? then Err(Raised) else
      var encoded := Encode(response.value, p.schema, p.version);
      if encoded.Err? then Err(encoded.error)
      else if faults.result then Err(Persistence)
      else
        var (text, value) := encoded.value;
        Ok((effected.value.(results := db.results[e.command := Stored(p.schema, p.version, text, Sha256(text))]),
            Execution(StoredType(p), p.resultId, false, p.noChange, p.schema, p.version, value)))
  }

  /** Everything inside the transaction. */
  function Transact(db: Db, e: Envelope, prepare: Prepare, fits: Audit -> bool, now: nat, faults: Faults)
    : Result<(Db, Execution), Error>
  {
    if faults.readReceipt then Err(Persistence)
    else if e.command in db.receipts then
      if ReplayMatches(db.receipts[e.command], e) && faults.readResult then Err(Persistence)
      else
        var r := Replay(db, e);
        if r.Err? then Err(r.error) else Ok((db, r.value))
    else
      var p := prepare(db.domain);
      if p.None? then Err(Raised)
      else Fresh(db.(domain := p.value.0), e, p.value.1, fits, now, faults)
  }

  predicate Refused(e: Envelope, faults: Faults) {
    !EnvelopeValid(e) || faults.nested || faults.admission || faults.open || faults.begin
  }

  function RefusalOf(e: Envelope, faults: Faults): Error {
    if !EnvelopeValid(e) then Validation
    else if faults.nested then Persistence
    else if faults.admission then Quiescing
    else if faults.busy then Busy else Persistence
  }

  /** One call: the database it leaves and what the caller gets. */
  function Execute(db: Db, e: Envelope, prepare: Prepare, fits: Audit -> bool, now: nat, faults: Faults)
    : (Db, Result<Execution, Error>)
  {
    if Refused(e, faults) then (db, Err(RefusalOf(e, faults))) else
    var t := Transact(db, e, prepare, fits, now, faults);
    if t.Err? then (db, Err(if faults.rollback then RollbackFailure else t.error))
    else
      match faults.commit
      case Commits => (t.value.0, Ok(t.value.1))
      case CommitFails =>
        (db, Err(if faults.rollback then RollbackFailure else if faults.busy then Busy else Persistence))
      case CommitsThenRaises => (t.value.0, Err(if faults.busy then Busy else Persistence))
  }

  datatype Call = Call(envelope: Envelope, prepare: Prepare, fits: Audit -> bool, now: nat, faults: Faults)

  function Take(db: Db, c: Call): (Db, Result<Execution, Error>) {
    Execute(db, c.envelope, c.prepare, c.fits, c.now, c.faults)
  }

  function Run(db: Db, calls: seq<Call>): Db
    decreases |calls|
  {
    if calls == [] then db else Run(Take(db, calls[0]).0, calls[1..])
  }
}
