/** When a migration run succeeds, and what it executes, in terms of the manifest's texts alone. */
module MigrationEffects {
  import opened Prelude
  import opened MigrationText
  import opened Migrations
  import opened MigrationGuarantees

  /** All statements of the rows' texts in order, if every text ends at a statement boundary. */
  function Script(g: Engine, rows: seq<Row>): Option<seq<string>>
    decreases |rows|
  {
    if rows == [] then Some([])
    else
      var before, last := Script(g, rows[..|rows| - 1]), Statements(rows[|rows| - 1].digest.lines, g.complete);
      if before.None? || last.None? then None else Some(before.value + last.value)
  }

  lemma {:induction false} ExecAllAppends(g: Engine, schema: Schema, a: seq<string>, b: seq<string>)
    ensures ExecAll(g, schema, a + b)
         == var middle := ExecAll(g, schema, a); if middle.None? then None else ExecAll(g, middle.value, b)
    decreases |a|
  {
    if a == [] {
      assert a + b == b;
    } else {
      assert (a + b)[0] == a[0] && (a + b)[1..] == a[1..] + b;
      if g.exec(schema, a[0]).Some? { ExecAllAppends(g, g.exec(schema, a[0]).value, a[1..], b); }
    }
  }

  /** The schema of a ledger is the one script of its texts, executed once on an empty schema. */
  lemma {:induction false} FoldIsScript(g: Engine, rows: seq<Row>)
    ensures Fold(g, rows).Some? ==> Script(g, rows).Some?
    ensures Script(g, rows).Some? ==> Fold(g, rows) == ExecAll(g, map[], Script(g, rows).value)
    decreases |rows|
  {
    hide Statements;
    if rows != [] {
      FoldIsScript(g, rows[..|rows| - 1]);
      if Script(g, rows).Some? {
        ExecAllAppends(g, map[], Script(g, rows[..|rows| - 1]).value,
                       Statements(rows[|rows| - 1].digest.lines, g.complete).value);
      }
    }
  }

  const CALM := Faults((i: nat) => Fine, false, false, false, false, false)

  lemma FoldPrefix(g: Engine, rows: seq<Row>, n: nat)
    requires n <= |rows| && Fold(g, rows).Some?
    ensures Fold(g, rows[..n]).Some?
    decreases |rows|
  {
    if n < |rows| {
      assert rows[..|rows| - 1][..n] == rows[..n];
      FoldPrefix(g, rows[..|rows| - 1], n);
    } else {
      assert rows[..n] == rows;
    }
  }

  lemma {:induction false} CalmPending(g: Engine, db: Db, m: Manifest, at: nat)
    requires at <= |m| && Folded(g, db) && db.ledger == Rows(m)[..at]
    ensures ApplyPending(g, db, m, at, CALM).1 <==> Fold(g, Rows(m)).Some?
    decreases |m| - at
  {
    hide Folded, ApplyText;
    if at == |m| {
      assert Rows(m)[..at] == Rows(m);
      assert Fold(g, db.ledger).Some? by { FoldedMeans(g, db); }
    } else {
      ApplyEntryKeeps(g, db, m, at, Fine);
      var (d, ok) := ApplyEntry(g, db, m[at], Fine);
      if ok {
        CalmPending(g, d, m, at + 1);
      } else {
        NextFails(g, db, m, at);
        if Fold(g, Rows(m)).Some? { FoldPrefix(g, Rows(m), at + 1); }
      }
    }
  }

  lemma FoldedMeans(g: Engine, db: Db)
    requires Folded(g, db)
    ensures Fold(g, db.ledger) == Some(db.schema)
  {
  }

  lemma NextFails(g: Engine, db: Db, m: Manifest, at: nat)
    requires at < |m| && Folded(g, db) && db.ledger == Rows(m)[..at] && ApplyText(g, db.schema, m[at].digest).None?
    ensures Fold(g, Rows(m)[..at + 1]).None?
  {
    var rows := Rows(m)[..at + 1];
    assert rows[..|rows| - 1] == db.ledger && rows[|rows| - 1] == RowOf(m[at]);
  }

  /**
   A run that nothing cuts short succeeds exactly when the instance is owned, the manifest valid, the ledger one of its
   prefixes, and the script of its texts executes to a schema the verifier accepts; it then leaves exactly that schema
   with the whole manifest in the ledger.
   */
  lemma CalmRunIff(g: Engine, canonical: Option<Db>, m: Manifest, owned: bool)
    requires Sound(g, canonical)
    ensures var (d, r) := InitializeOrMigrate(g, canonical, m, owned, CALM);
            && (r.Ok? <==> owned && ManifestValid(m) && Within(canonical, m) && Script(g, Rows(m)).Some?
                           && ExecAll(g, map[], Script(g, Rows(m)).value).Some?
                           && g.verify(ExecAll(g, map[], Script(g, Rows(m)).value).value))
            && (r.Ok? ==> d == Some(Db(Rows(m), ExecAll(g, map[], Script(g, Rows(m)).value).value)) && r.value == |m|)
  {
    hide ApplyPending, ManifestValid, Reconcile, Script, PrefixOf;
    FoldIsScript(g, Rows(m));
    if canonical.None? {
      assert Folded(g, BLANK) && BLANK.ledger == Rows(m)[..0];
      ApplyPendingKeeps(g, BLANK, m, 0, CALM);
      CalmPending(g, BLANK, m, 0);
    } else {
      var ledger := canonical.value.ledger;
      PrefixIffReconciles(ledger, m);
      if PrefixOf(ledger, m) {
        PrefixIsTake(ledger, m);
        ApplyPendingKeeps(g, canonical.value, m, |ledger|, CALM);
        CalmPending(g, canonical.value, m, |ledger|);
      }
    }
  }

  /** A run is refused with nothing changed unless the instance is owned and the manifest valid, whatever else happens. */
  lemma UnownedRefused(g: Engine, canonical: Option<Db>, m: Manifest, owned: bool, f: Faults)
    requires !owned || !ManifestValid(m)
    ensures InitializeOrMigrate(g, canonical, m, owned, f)
         == (canonical, Err(if !owned then OwnershipRequired else ManifestInvalid))
  {
  }

  lemma {:induction false} FaultyPending(g: Engine, db: Db, m: Manifest, at: nat, f: Faults, i: nat)
    requires at <= i < |m| && f.entry(i) != Fine
    ensures !ApplyPending(g, db, m, at, f).1
    decreases i - at
  {
    hide ApplyText;
    if at < i {
      var (d, ok) := ApplyEntry(g, db, m[at], f.entry(at));
      if ok { FaultyPending(g, d, m, at + 1, f, i); }
    }
  }

  /** A run in which anything fails that it goes through does not return normally, and a clean one leaves no file before the
      whole manifest has been applied, verified and put in place. */
  lemma DisturbedRunFails(g: Engine, canonical: Option<Db>, m: Manifest, owned: bool, f: Faults)
    requires var from := if canonical.Some? then |canonical.value.ledger| else 0;
             || f.walBefore || f.verify || (canonical.Some? && f.ledgerUnreadable)
             || (canonical.None? && (f.replace || f.walAfter)) || exists i :: from <= i < |m| && f.entry(i) != Fine
    ensures InitializeOrMigrate(g, canonical, m, owned, f).1.Err?
    ensures canonical.None? && (f.walBefore || f.verify || f.replace) ==> InitializeOrMigrate(g, canonical, m, owned, f).0.None?
  {
    hide ApplyPending, ManifestValid;
    var from := if canonical.Some? then |canonical.value.ledger| else 0;
    var start := if canonical.Some? then canonical.value else BLANK;
    if i :| from <= i < |m| && f.entry(i) != Fine {
      FaultyPending(g, start, m, from, f, i);
    }
  }
}
