/**
 The migration runner as a refinement of "execute the manifest's statements in order": the ledger rows name the
 entries applied, and the schema is the fold of those entries' statements. A run may abort at any statement.
 */
module Migrations {
  import opened Prelude
  import opened MigrationText

  /** A migration's text, line by line, and its SHA-256 identified with it. */
  datatype Digest = Sha256(lines: seq<string>)

  datatype Entry = Entry(sequence: nat, id: string, digest: Digest)

  type Manifest = seq<Entry>

  /** A row of the ledger. */
  datatype Row = Row(sequence: nat, id: string, digest: Digest)

  /** A database schema, in whatever form SQLite keeps it. */
  type Schema = map<string, string>

  datatype Db = Db(ledger: seq<Row>, schema: Schema)

  /** SQLite: statement boundaries, the effect of a statement (nothing when it is refused), the schema verifier. */
  datatype Engine = Engine(complete: Complete, exec: (Schema, string) -> Option<Schema>, verify: Schema -> bool)

  const BLANK := Db([], map[])

  datatype Error = OwnershipRequired | ManifestInvalid | FutureVersion | LedgerMismatch | Aborted | VerificationFailed

  predicate ManifestValid(m: Manifest) {
    && (forall i :: 0 <= i < |m| ==> m[i].sequence == i + 1)
    && (forall i, j :: 0 <= i < j < |m| ==> m[i].id != m[j].id)
  }

  function RowOf(e: Entry): Row { Row(e.sequence, e.id, e.digest) }

  function Rows(m: Manifest): (r: seq<Row>)
    ensures |r| == |m| && forall i :: 0 <= i < |m| ==> r[i] == RowOf(m[i])
  {
    seq(|m|, i requires 0 <= i < |m| => RowOf(m[i]))
  }

  /** The abstract meaning: the statements executed one after another. */
  function ExecAll(g: Engine, schema: Schema, statements: seq<string>): Option<Schema>
    decreases |statements|
  {
    if statements == [] then Some(schema)
    else
      var next := g.exec(schema, statements[0]);
      if next.None? then None else ExecAll(g, next.value, statements[1..])
  }

  function ApplyText(g: Engine, schema: Schema, digest: Digest): Option<Schema> {
    var statements := Statements(digest.lines, g.complete);
    if statements.None? then None else ExecAll(g, schema, statements.value)
  }

  /** The schema that a ledger stands for: its entries' statements in ledger order. */
  function Fold(g: Engine, ledger: seq<Row>): Option<Schema>
    decreases |ledger|
  {
    if ledger == [] then Some(map[])
    else
      var before := Fold(g, ledger[..|ledger| - 1]);
      if before.None? then None else ApplyText(g, before.value, ledger[|ledger| - 1].digest)
  }

  /** How one entry's transaction ends. */
  datatype Fault = Fine | Aborts | CommitsThenRaises

  /** Where a run is cut short; entry `i` of the manifest is attempted with `entry(i)`. */
  datatype Faults = Faults(entry: nat -> Fault, walBefore: bool, ledgerUnreadable: bool, verify: bool, replace: bool,
                           walAfter: bool)

  /** One entry in one transaction: all its statements and its ledger row, or nothing. */
  function ApplyEntry(g: Engine, db: Db, e: Entry, fault: Fault): (Db, bool) {
    var schema := ApplyText(g, db.schema, e.digest);
    if schema.None? || fault == Aborts then (db, false)
    else (Db(db.ledger + [RowOf(e)], schema.value), fault == Fine)
  }

  function ApplyPending(g: Engine, db: Db, m: Manifest, at: nat, f: Faults): (Db, bool)
    requires at <= |m|
    decreases |m| - at
  {
    if at == |m| then (db, true)
    else
      var (d, ok) := ApplyEntry(g, db, m[at], f.entry(at));
      if ok then ApplyPending(g, d, m, at + 1, f) else (d, false)
  }

  function Reconcile(ledger: seq<Row>, m: Manifest): Option<Error> {
    if |ledger| > |m| then Some(FutureVersion)
    else if exists i :: 0 <= i < |ledger| && ledger[i] != RowOf(m[i]) then Some(LedgerMismatch)
    else None
  }

  function Verified(g: Engine, db: Db, f: Faults): bool {
    g.verify(db.schema) && !f.verify
  }

  function MigrateExisting(g: Engine, db: Db, m: Manifest, f: Faults): (Db, Result<nat, Error>) {
    if f.walBefore || f.ledgerUnreadable then (db, Err(Aborted))
    else
      var wrong := Reconcile(db.ledger, m);
      if wrong.Some? then (db, Err(wrong.value))
      else
        var (d, ok) := ApplyPending(g, db, m, |db.ledger|, f);
        if !ok then (d, Err(Aborted))
        else if !Verified(g, d, f) then (d, Err(VerificationFailed))
        else (d, Ok(|m|))
  }

  /** A clean database is built in a temporary file, and takes the canonical name only when complete and verified. */
  function InitializeClean(g: Engine, m: Manifest, f: Faults): (Option<Db>, Result<nat, Error>) {
    if f.walBefore then (None, Err(Aborted))
    else
      var (d, ok) := ApplyPending(g, BLANK, m, 0, f);
      if !ok then (None, Err(Aborted))
      else if !Verified(g, d, f) then (None, Err(VerificationFailed))
      else if f.replace then (None, Err(Aborted))
      else if f.walAfter then (Some(d), Err(Aborted))
      else (Some(d), Ok(|m|))
  }

  /** One run over the canonical file. */
  function InitializeOrMigrate(g: Engine, canonical: Option<Db>, m: Manifest, owned: bool, f: Faults)
    : (Option<Db>, Result<nat, Error>)
  {
    if !owned then (canonical, Err(OwnershipRequired))
    else if !ManifestValid(m) then (canonical, Err(ManifestInvalid))
    else if canonical.Some? then
      var (d, r) := MigrateExisting(g, canonical.value, m, f); (Some(d), r)
    else InitializeClean(g, m, f)
  }

  datatype Attempt = Attempt(manifest: Manifest, owned: bool, faults: Faults)

  function Run(g: Engine, canonical: Option<Db>, attempts: seq<Attempt>): Option<Db>
    decreases |attempts|
  {
    if attempts == [] then canonical
    else Run(g, InitializeOrMigrate(g, canonical, attempts[0].manifest, attempts[0].owned, attempts[0].faults).0,
             attempts[1..])
  }
}
