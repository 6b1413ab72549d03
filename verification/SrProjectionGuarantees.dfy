/** What the accepted Service Request projection keeps over every run, and what each change proves of itself. */
module SrProjectionGuarantees {
  import opened Prelude
  import opened SrProjection

  /** The accepted row refers to an observation of this request, field and value kind. */
  predicate PointsWell(obs: map<Id, Observation>, sr: Id, f: Field, id: Id) {
    id in obs && obs[id].sr == sr && obs[id].field == f && obs[id].kind == KindOf(f)
  }

  ghost predicate PointersOk(db: Db) {
    forall sr :: sr in db.projections ==>
      forall f :: f in db.projections[sr].pointers ==> PointsWell(db.observations, sr, f, db.projections[sr].pointers[f])
  }

  function Count(applications: seq<Id>, sr: Id): nat {
    if applications == [] then 0
    else Count(applications[..|applications| - 1], sr) + (if applications[|applications| - 1] == sr then 1 else 0)
  }

  /** The revision is the number of material applications. */
  ghost predicate RevisionsOk(db: Db) {
    forall sr :: Row(db, sr).revision == Count(db.applications, sr)
  }

  ghost predicate Inv(db: Db) {
    PointersOk(db) && RevisionsOk(db)
  }

  /** What the loop has planned so far is sound: well shaped, for different fields, and allowed to change them. */
  ghost predicate PlanOk(db: Db, sr: Id, planned: seq<(Delta, Id)>, seen: set<Field>) {
    && (forall i :: 0 <= i < |planned| ==>
          && ShapeOk(planned[i].0) && planned[i].0.field in seen
          && CurrentOf(db, sr, planned[i].0.field).Ok?
          && Justified(CurrentOf(db, sr, planned[i].0.field).value, planned[i].0))
    && (forall i, j :: 0 <= i < j < |planned| ==> planned[i].0.field != planned[j].0.field)
  }

  /** A material and permitted change of a field. */
  predicate Justified(current: Option<Observation>, d: Delta) {
    PrecedenceOk(current, d) && (current.Some? ==> !SameValue(current.value, d))
  }

  lemma {:induction false} PlanSound(db: Db, sr: Id, deltas: seq<Delta>, at: nat, valid: Delta -> bool, ids: nat -> Id,
                                     seen: set<Field>, planned: seq<(Delta, Id)>)
    requires at <= |deltas| && PlanOk(db, sr, planned, seen)
    ensures var r := Plan(db, sr, deltas, at, valid, ids, seen, planned);
            r.Ok? ==> exists s :: PlanOk(db, sr, r.value, s)
    decreases |deltas| - at
  {
    hide ShapeOk, PrecedenceOk;
    if at < |deltas| {
      var d := deltas[at];
      var current := CurrentOf(db, sr, d.field);
      if ShapeOk(d) && d.field !in seen && valid(d) && current.Ok? {
        if current.value.Some? && SameValue(current.value.value, d) {
          PlanSound(db, sr, deltas, at + 1, valid, ids, seen + {d.field}, planned);
        } else if PrecedenceOk(current.value, d) {
          PlanSound(db, sr, deltas, at + 1, valid, ids, seen + {d.field}, planned + [(d, ids(at))]);
        }
      }
    }
  }

  lemma {:induction false} InsertAllSound(obs: map<Id, Observation>, sr: Id, planned: seq<(Delta, Id)>)
    ensures var r := InsertAll(obs, sr, planned);
            r.Some? ==>
              && (forall id :: id in obs ==> id in r.value && r.value[id] == obs[id])
              && (forall i :: 0 <= i < |planned| ==>
                    planned[i].1 !in obs && planned[i].1 in r.value
                    && r.value[planned[i].1] == ObservationOf(sr, planned[i].0, planned[i].1))
    decreases |planned|
  {
    if planned != [] && planned[0].1 !in obs {
      InsertAllSound(obs[planned[0].1 := ObservationOf(sr, planned[0].0, planned[0].1)], sr, planned[1..]);
      assert forall i :: 1 <= i < |planned| ==> planned[i] == planned[1..][i - 1];
    }
  }

  /** The planned change of a field, if there is one. */
  predicate Plans(planned: seq<(Delta, Id)>, f: Field) {
    exists i :: 0 <= i < |planned| && planned[i].0.field == f
  }

  lemma {:induction false} PointedSound(pointers: map<Field, Id>, planned: seq<(Delta, Id)>)
    requires forall i, j :: 0 <= i < j < |planned| ==> planned[i].0.field != planned[j].0.field
    ensures var r := Pointed(pointers, planned);
            && (forall f :: f in r <==> f in pointers || Plans(planned, f))
            && (forall i :: 0 <= i < |planned| ==> planned[i].0.field in r && r[planned[i].0.field] == planned[i].1)
            && (forall f :: f in pointers && !Plans(planned, f) ==> f in r && r[f] == pointers[f])
    decreases |planned|
  {
    if planned != [] {
      var rest := planned[1..];
      assert forall i :: 1 <= i < |planned| ==> planned[i] == rest[i - 1];
      PointedSound(pointers[planned[0].0.field := planned[0].1], rest);
      forall f
        ensures Plans(planned, f) <==> planned[0].0.field == f || Plans(rest, f)
      {
        if Plans(rest, f) {
          var i :| 0 <= i < |rest| && rest[i].0.field == f;
          assert planned[i + 1].0.field == f;
        }
      }
      assert !Plans(rest, planned[0].0.field);
    }
  }

  /** One field of the projection across an application: kept, or moved to a justified new observation. */
  ghost predicate FieldMoves(db: Db, d: Db, sr: Id, f: Field) {
    var before, after := Row(db, sr).pointers, Row(d, sr).pointers;
    || (f !in before && f !in after)
    || (f in before && f in after && before[f] == after[f])
    || (&& f in after && after[f] in d.observations
        && CurrentOf(db, sr, f).Ok?
        && var o := d.observations[after[f]];
        && o.sr == sr && o.field == f && o.kind == KindOf(f)
        && Justified(CurrentOf(db, sr, f).value, Delta(f, o.kind, o.content, o.chronology, o.basis, o.evidence)))
  }

  lemma ApplyMoves(db: Db, c: Call)
    requires Inv(db)
    ensures Inv(Step(db, c))
    ensures forall id :: id in db.observations ==>
              id in Step(db, c).observations && Step(db, c).observations[id] == db.observations[id]
    ensures forall f :: FieldMoves(db, Step(db, c), c.sr, f)
    ensures forall sr :: sr != c.sr ==> Row(Step(db, c), sr) == Row(db, sr)
  {
    hide Plan, InsertAll, Pointed, ShapeOk, PrecedenceOk, Inv;
    if Step(db, c) != db {
      var planned := Plan(db, c.sr, c.deltas, 0, c.valid, c.ids, {}, []).value;
      PlanSound(db, c.sr, c.deltas, 0, c.valid, c.ids, {}, []);
      var seen :| PlanOk(db, c.sr, planned, seen);
      Materialize(db, c.sr, planned, seen, Step(db, c));
    }
  }

  lemma Materialize(db: Db, sr: Id, planned: seq<(Delta, Id)>, seen: set<Field>, d: Db)
    requires Inv(db) && PlanOk(db, sr, planned, seen) && InsertAll(db.observations, sr, planned).Some?
    requires d == Db(db.official, InsertAll(db.observations, sr, planned).value,
                     db.projections[sr := Projection(Pointed(Row(db, sr).pointers, planned), Row(db, sr).revision + 1)],
                     db.applications + [sr])
    ensures Inv(d)
    ensures forall id :: id in db.observations ==> id in d.observations && d.observations[id] == db.observations[id]
    ensures forall f :: FieldMoves(db, d, sr, f)
    ensures forall x :: x != sr ==> Row(d, x) == Row(db, x)
  {
    hide InsertAll, Pointed, PrecedenceOk;
    InsertAllSound(db.observations, sr, planned);
    PointedSound(Row(db, sr).pointers, planned);
    var after := d.projections[sr].pointers;
    forall f | f in after
      ensures PointsWell(d.observations, sr, f, after[f])
    {
      if Plans(planned, f) {
        var i :| 0 <= i < |planned| && planned[i].0.field == f;
      } else {
        assert PointsWell(db.observations, sr, f, after[f]);
      }
    }
    forall f
      ensures FieldMoves(db, d, sr, f)
    {
      if Plans(planned, f) {
        var i :| 0 <= i < |planned| && planned[i].0.field == f;
        var x := planned[i].0;
        assert d.observations[after[f]] == ObservationOf(sr, x, planned[i].1);
        assert x == Delta(f, x.kind, x.content, x.chronology, x.basis, x.evidence);
      }
    }
    forall x
      ensures Row(d, x).revision == Count(d.applications, x)
    {
      assert d.applications[..|d.applications| - 1] == db.applications;
      assert Row(db, x).revision == Count(db.applications, x);
    }
  }

  lemma {:induction false} RunKeeps(db: Db, calls: seq<Call>)
    requires Inv(db)
    ensures Inv(Run(db, calls))
    ensures forall id :: id in db.observations ==>
              id in Run(db, calls).observations && Run(db, calls).observations[id] == db.observations[id]
    decreases |calls|
  {
    hide Inv, Step;
    if calls != [] {
      ApplyMoves(db, calls[0]);
      RunKeeps(Step(db, calls[0]), calls[1..]);
    }
  }

  /**
   Over every run each pointer names an observation of the same request, field and value kind, the revision is the
   number of material applications, and reading a current value never reports a missing observation.
   */
  lemma ProjectionSound(official: map<Id, bool>, calls: seq<Call>, sr: Id, f: Field)
    ensures var db := Run(Db(official, map[], map[], []), calls);
            && CurrentOf(db, sr, f).Ok?
            && Row(db, sr).revision == Count(db.applications, sr)
            && (f in Row(db, sr).pointers ==> PointsWell(db.observations, sr, f, Row(db, sr).pointers[f]))
  {
    hide Run;
    var start := Db(official, map[], map[], []);
    assert Inv(start);
    RunKeeps(start, calls);
    var db := Run(start, calls);
    if sr in db.projections && f in db.projections[sr].pointers {
      assert PointsWell(db.observations, sr, f, db.projections[sr].pointers[f]);
    }
  }

  /**
   Each application: a field that changes its value on the chronology basis moves strictly forward in time; a Closed,
   Resolved or Cancelled status changes, and a positive suspension drops to zero, only by reviewed correction.
   */
  lemma ChangesAreJustified(db: Db, c: Call, f: Field)
    requires Inv(db) && f in Row(db, c.sr).pointers && f in Row(Step(db, c), c.sr).pointers
    requires Row(Step(db, c), c.sr).pointers[f] != Row(db, c.sr).pointers[f]
    ensures Row(db, c.sr).pointers[f] in db.observations
    ensures Row(Step(db, c), c.sr).pointers[f] in Step(db, c).observations
    ensures var was, now := db.observations[Row(db, c.sr).pointers[f]],
                            Step(db, c).observations[Row(Step(db, c), c.sr).pointers[f]];
            && now.content != was.content
            && (now.basis == SourceChronology ==>
                  && was.chronology.Some? && now.chronology.Some? && was.chronology.value < now.chronology.value
                  && !(f == Status && was.content.Usable? && TerminalStatus(was.content.value) && now.content.Usable?)
                  && !(f == SuspensionDuration && was.content.Usable? && was.content.value.Number?
                       && was.content.value.number > 0 && now.content == Usable(Number(0))))
  {
    hide Step;
    ApplyMoves(db, c);
    assert PointsWell(db.observations, c.sr, f, Row(db, c.sr).pointers[f]);
    assert FieldMoves(db, Step(db, c), c.sr, f);
  }
}
