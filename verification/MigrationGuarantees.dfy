/** Migration as refinement: whatever aborts, the database is the manifest's statements executed up to its ledger. */
module MigrationGuarantees {
  import opened Prelude
  import opened MigrationText
  import opened Migrations

  /** The schema is exactly the fold of the entries the ledger names. */
  ghost predicate Folded(g: Engine, db: Db) {
    Fold(g, db.ledger) == Some(db.schema)
  }

  /** The ledger is a prefix of the manifest. */
  predicate PrefixOf(ledger: seq<Row>, m: Manifest) {
    ledger <= Rows(m)
  }

  predicate Grows(m: Manifest, n: Manifest) {
    m <= n
  }

  lemma PrefixIffReconciles(ledger: seq<Row>, m: Manifest)
    ensures PrefixOf(ledger, m) <==> Reconcile(ledger, m).None?
  {
    if PrefixOf(ledger, m) {
      assert forall i :: 0 <= i < |ledger| ==> ledger[i] == Rows(m)[i];
    } else if |ledger| <= |m| {
      assert ledger != Rows(m)[..|ledger|];
    }
  }

  lemma ApplyEntryKeeps(g: Engine, db: Db, m: Manifest, at: nat, fault: Fault)
    requires at < |m| && Folded(g, db) && db.ledger == Rows(m)[..at]
    ensures var (d, ok) := ApplyEntry(g, db, m[at], fault);
            && Folded(g, d) && PrefixOf(d.ledger, m) && db.ledger <= d.ledger
            && (ok ==> d.ledger == Rows(m)[..at + 1])
  {
    var (d, ok) := ApplyEntry(g, db, m[at], fault);
    if d != db {
      assert d.ledger[..|d.ledger| - 1] == db.ledger;
      assert d.ledger == Rows(m)[..at + 1];
    }
  }

  lemma {:induction false} ApplyPendingKeeps(g: Engine, db: Db, m: Manifest, at: nat, f: Faults)
    requires at <= |m| && Folded(g, db) && db.ledger == Rows(m)[..at]
    ensures var (d, ok) := ApplyPending(g, db, m, at, f);
            && Folded(g, d) && PrefixOf(d.ledger, m) && db.ledger <= d.ledger
            && (ok ==> d.ledger == Rows(m))
    decreases |m| - at
  {
    hide Folded, ApplyEntry;
    if at < |m| {
      ApplyEntryKeeps(g, db, m, at, f.entry(at));
      var (d, ok) := ApplyEntry(g, db, m[at], f.entry(at));
      if ok { ApplyPendingKeeps(g, d, m, at + 1, f); }
    } else {
      assert Rows(m)[..at] == Rows(m);
    }
  }

  ghost predicate Sound(g: Engine, canonical: Option<Db>) {
    canonical.Some? ==> Folded(g, canonical.value)
  }

  /** The canonical file has only ever held prefixes of this manifest. */
  predicate Within(canonical: Option<Db>, m: Manifest) {
    canonical.Some? ==> PrefixOf(canonical.value.ledger, m)
  }

  /**
   One run. The ledger stays the fold's record and a prefix of the manifest when it was one; a normal return means the
   whole manifest is applied, once each, and verified; the canonical file first appears only like that; a ledger that
   is no prefix is rejected with nothing changed.
   */
  lemma RunOnce(g: Engine, canonical: Option<Db>, m: Manifest, owned: bool, f: Faults)
    requires Sound(g, canonical)
    ensures var (d, r) := InitializeOrMigrate(g, canonical, m, owned, f);
            && Sound(g, d)
            && (Within(canonical, m) ==> Within(d, m))
            && (canonical.Some? ==> d.Some? && canonical.value.ledger <= d.value.ledger)
            && (r.Ok? ==> d.Some? && r.value == |m| && d.value.ledger == Rows(m) && g.verify(d.value.schema)
                          && Fold(g, Rows(m)) == Some(d.value.schema))
            && (canonical.None? && d.Some? ==> d.value.ledger == Rows(m) && g.verify(d.value.schema))
            && (!Within(canonical, m) ==> d == canonical && r.Err?)
  {
    hide ApplyPending, ManifestValid, Reconcile, PrefixOf;
    if canonical.None? {
      assert Folded(g, BLANK) && BLANK.ledger == Rows(m)[..0];
      ApplyPendingKeeps(g, BLANK, m, 0, f);
    } else {
      var ledger := canonical.value.ledger;
      PrefixIffReconciles(ledger, m);
      if PrefixOf(ledger, m) {
        PrefixIsTake(ledger, m);
        ApplyPendingKeeps(g, canonical.value, m, |ledger|, f);
      }
    }
  }

  lemma PrefixIsTake(ledger: seq<Row>, m: Manifest)
    requires PrefixOf(ledger, m)
    ensures |ledger| <= |m| && ledger == Rows(m)[..|ledger|]
  {
  }

  predicate ManifestsGrow(attempts: seq<Attempt>) {
    forall i, j :: 0 <= i < j < |attempts| ==> Grows(attempts[i].manifest, attempts[j].manifest)
  }

  lemma GrowingKeepsWithin(canonical: Option<Db>, m: Manifest, n: Manifest)
    requires Within(canonical, m) && Grows(m, n)
    ensures Within(canonical, n)
  {
    assert Rows(m) <= Rows(n);
  }

  /**
   Over any number of runs that may abort anywhere, with manifests that only grow: the ledger is always a prefix of
   every later manifest and the schema is exactly the fold of those entries' statements in order.
   */
  lemma {:induction false} RunsRefineManifest(g: Engine, canonical: Option<Db>, attempts: seq<Attempt>, last: Manifest)
    requires Sound(g, canonical) && ManifestsGrow(attempts)
    requires forall i :: 0 <= i < |attempts| ==> Grows(attempts[i].manifest, last)
    requires attempts != [] ==> Within(canonical, attempts[0].manifest)
    requires attempts == [] ==> Within(canonical, last)
    ensures Sound(g, Run(g, canonical, attempts)) && Within(Run(g, canonical, attempts), last)
    decreases |attempts|
  {
    hide Sound, Within, InitializeOrMigrate;
    if attempts != [] {
      var a := attempts[0];
      RunOnce(g, canonical, a.manifest, a.owned, a.faults);
      var d := InitializeOrMigrate(g, canonical, a.manifest, a.owned, a.faults).0;
      var rest := attempts[1..];
      if rest != [] {
        assert rest[0] == attempts[1];
        GrowingKeepsWithin(d, a.manifest, rest[0].manifest);
      } else {
        GrowingKeepsWithin(d, a.manifest, last);
      }
      forall i, j | 0 <= i < j < |rest|
        ensures Grows(rest[i].manifest, rest[j].manifest)
      {
        assert rest[i] == attempts[i + 1] && rest[j] == attempts[j + 1];
      }
      RunsRefineManifest(g, d, rest, last);
    }
  }

  /** The same statements executed once on an empty schema give the same schema: aborted runs leave no trace. */
  lemma AbortsLeaveNoTrace(g: Engine, attempts: seq<Attempt>, m: Manifest, owned: bool, f: Faults)
    requires ManifestsGrow(attempts + [Attempt(m, owned, f)])
    requires InitializeOrMigrate(g, Run(g, None, attempts), m, owned, f).1.Ok?
    ensures var d := InitializeOrMigrate(g, Run(g, None, attempts), m, owned, f).0;
            d.Some? && d.value.ledger == Rows(m) && Fold(g, Rows(m)) == Some(d.value.schema)
  {
    hide Run, InitializeOrMigrate, ManifestsGrow;
    EarlierManifestsGrow(attempts, Attempt(m, owned, f));
    RunsRefineManifest(g, None, attempts, m);
    RunOnce(g, Run(g, None, attempts), m, owned, f);
  }

  lemma EarlierManifestsGrow(attempts: seq<Attempt>, a: Attempt)
    requires ManifestsGrow(attempts + [a])
    ensures ManifestsGrow(attempts)
    ensures forall i :: 0 <= i < |attempts| ==> Grows(attempts[i].manifest, a.manifest)
  {
    var all := attempts + [a];
    assert all[|attempts|] == a;
    forall i, j | 0 <= i < j < |attempts|
      ensures Grows(attempts[i].manifest, attempts[j].manifest)
    {
      assert all[i] == attempts[i] && all[j] == attempts[j];
    }
    forall i | 0 <= i < |attempts|
      ensures Grows(attempts[i].manifest, a.manifest)
    {
      assert all[i] == attempts[i];
    }
  }
}
