/** The migration runner over the canonical and the temporary database file, statement by statement. */
module MigrationRunner {
  import opened Prelude
  import opened MigrationText
  import opened Migrations

  class MigrationRunner {
    const engine: Engine
    var canonical: Option<Db>
    var temporary: Option<Db>

    constructor (engine: Engine, canonical: Option<Db>)
      ensures this.engine == engine && this.canonical == canonical && temporary == None
    {
      this.engine, this.canonical, temporary := engine, canonical, None;
    }

    /** Execute one entry's statements on an open transaction; any failure rolls the transaction back. */
    method ApplyEntry(db: Db, e: Entry, fault: Fault) returns (d: Db, ok: bool)
      ensures (d, ok) == Migrations.ApplyEntry(engine, db, e, fault)
    {
      var statements := IterMigrationStatements(e.digest.lines, engine.complete);
      if statements.None? {
        return db, false;
      }
      var schema := db.schema;
      for i := 0 to |statements.value|
        invariant ExecAll(engine, db.schema, statements.value) == ExecAll(engine, schema, statements.value[i..])
      {
        assert statements.value[i..][0] == statements.value[i] && statements.value[i..][1..] == statements.value[i + 1..];
        var next := engine.exec(schema, statements.value[i]);
        if next.None? {
          return db, false;
        }
        schema := next.value;
      }
      assert statements.value[|statements.value|..] == [];
      if fault == Aborts {
        return db, false;
      }
      return Db(db.ledger + [RowOf(e)], schema), fault == Fine;
    }

    /** The ledger compared row by row with the manifest. */
    method ReconcileLedger(ledger: seq<Row>, m: Manifest) returns (error: Option<Error>)
      ensures error == Reconcile(ledger, m)
    {
      if |ledger| > |m| {
        return Some(FutureVersion);
      }
      for i := 0 to |ledger|
        invariant forall j :: 0 <= j < i ==> ledger[j] == RowOf(m[j])
      {
        if ledger[i].sequence != m[i].sequence {
          return Some(LedgerMismatch);
        }
        if ledger[i].id != m[i].id || ledger[i].digest != m[i].digest {
          return Some(LedgerMismatch);
        }
      }
      return None;
    }

    method InitializeOrMigrate(m: Manifest, owned: bool, f: Faults) returns (r: Result<nat, Error>)
      requires temporary.None?
      modifies this
      ensures (canonical, r) == Migrations.InitializeOrMigrate(engine, old(canonical), m, owned, f)
      ensures temporary.None?
    {
      if !owned {
        return Err(OwnershipRequired);
      }
      if !ManifestValid(m) {
        return Err(ManifestInvalid);
      }
      if canonical.Some? {
        r := MigrateInPlace(m, f);
      } else {
        r := CreateClean(m, f);
      }
    }

    method MigrateInPlace(m: Manifest, f: Faults) returns (r: Result<nat, Error>)
      requires canonical.Some?
      modifies `canonical
      ensures canonical.Some? && (canonical.value, r) == MigrateExisting(engine, old(canonical.value), m, f)
    {
      if f.walBefore || f.ledgerUnreadable {
        return Err(Aborted);
      }
      var wrong := ReconcileLedger(canonical.value.ledger, m);
      if wrong.Some? {
        return Err(wrong.value);
      }
      var from := |canonical.value.ledger|;
      for at := from to |m|
        invariant canonical.Some?
        invariant ApplyPending(engine, old(canonical.value), m, from, f) == ApplyPending(engine, canonical.value, m, at, f)
      {
        var d, ok := ApplyEntry(canonical.value, m[at], f.entry(at));
        canonical := Some(d);
        if !ok {
          return Err(Aborted);
        }
      }
      if !Verified(engine, canonical.value, f) {
        return Err(VerificationFailed);
      }
      return Ok(|m|);
    }

    /** On every failure before the rename the temporary file is unlinked. */
    method CreateClean(m: Manifest, f: Faults) returns (r: Result<nat, Error>)
      requires canonical.None? && temporary.None?
      modifies this
      ensures (canonical, r) == InitializeClean(engine, m, f) && temporary.None?
    {
      if f.walBefore {
        return Err(Aborted);
      }
      temporary := Some(BLANK);
      for at := 0 to |m|
        invariant temporary.Some? && canonical == old(canonical)
        invariant ApplyPending(engine, BLANK, m, 0, f) == ApplyPending(engine, temporary.value, m, at, f)
      {
        var d, ok := ApplyEntry(temporary.value, m[at], f.entry(at));
        temporary := Some(d);
        if !ok {
          temporary := None;
          return Err(Aborted);
        }
      }
      if !Verified(engine, temporary.value, f) {
        temporary := None;
        return Err(VerificationFailed);
      }
      if f.replace {
        temporary := None;
        return Err(Aborted);
      }
      canonical, temporary := temporary, None;
      if f.walAfter {
        return Err(Aborted);
      }
      return Ok(|m|);
    }
  }
}
