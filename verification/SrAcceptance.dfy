/** What an accepted call does with each of its deltas, and why the projection is not last-writer-wins. */
module SrAcceptance {
  import opened Prelude
  import opened SrProjection
  import opened SrProjectionGuarantees

  /** The field has no current observation, or one with a different value. */
  predicate Material(db: Db, sr: Id, d: Delta) {
    var current := CurrentOf(db, sr, d.field);
    current.Ok? && (current.value.None? || !SameValue(current.value.value, d))
  }

  /** The plan is what was planned before and exactly the material deltas from `at` on, all of different fields. */
  ghost predicate Picks(db: Db, sr: Id, deltas: seq<Delta>, at: nat, ids: nat -> Id, seen: set<Field>,
                        planned: seq<(Delta, Id)>, all: seq<(Delta, Id)>) {
    && at <= |deltas|
    && (forall i :: at <= i < |deltas| ==> deltas[i].field !in seen && CurrentOf(db, sr, deltas[i].field).Ok?)
    && (forall i, j :: at <= i < j < |deltas| ==> deltas[i].field != deltas[j].field)
    && (forall x :: x in planned ==> x in all)
    && (forall i :: at <= i < |deltas| && Material(db, sr, deltas[i]) ==> (deltas[i], ids(i)) in all)
    && (forall x :: x in all && x !in planned ==>
          exists i :: at <= i < |deltas| && Material(db, sr, deltas[i]) && x == (deltas[i], ids(i)))
  }

  lemma {:induction false} PlanPicks(db: Db, sr: Id, deltas: seq<Delta>, at: nat, valid: Delta -> bool, ids: nat -> Id,
                                     seen: set<Field>, planned: seq<(Delta, Id)>)
    requires at <= |deltas| && Plan(db, sr, deltas, at, valid, ids, seen, planned).Ok?
    ensures Picks(db, sr, deltas, at, ids, seen, planned, Plan(db, sr, deltas, at, valid, ids, seen, planned).value)
    decreases |deltas| - at
  {
    hide ShapeOk, PrecedenceOk, SameValue, CurrentOf;
    if at < |deltas| {
      var d := deltas[at];
      var more := if Material(db, sr, d) then planned + [(d, ids(at))] else planned;
      PlanPicks(db, sr, deltas, at + 1, valid, ids, seen + {d.field}, more);
    }
  }

  lemma PlannedFields(db: Db, sr: Id, deltas: seq<Delta>, ids: nat -> Id, planned: seq<(Delta, Id)>, i: nat)
    requires Picks(db, sr, deltas, 0, ids, {}, [], planned) && i < |deltas|
    ensures Plans(planned, deltas[i].field) <==> Material(db, sr, deltas[i])
    ensures Material(db, sr, deltas[i]) ==> exists k :: 0 <= k < |planned| && planned[k] == (deltas[i], ids(i))
  {
    hide Material;
    if Material(db, sr, deltas[i]) {
      var k :| 0 <= k < |planned| && planned[k] == (deltas[i], ids(i));
      assert planned[k].0.field == deltas[i].field;
    }
    if Plans(planned, deltas[i].field) {
      var k :| 0 <= k < |planned| && planned[k].0.field == deltas[i].field;
      assert planned[k] in planned;
      var j :| 0 <= j < |deltas| && Material(db, sr, deltas[j]) && planned[k] == (deltas[j], ids(j));
      assert j == i;
    }
  }

  /** What becomes of the field of a delta: it points at an observation made from the delta, or where it did before. */
  ghost predicate Settles(db: Db, g: Db, sr: Id, d: Delta) {
    var before, after := Row(db, sr).pointers, Row(g, sr).pointers;
    if Material(db, sr, d) then
      && d.field in after && after[d.field] !in db.observations && after[d.field] in g.observations
      && g.observations[after[d.field]] == ObservationOf(sr, d, after[d.field])
    else
      && d.field in before && d.field in after && after[d.field] == before[d.field]
      && before[d.field] in db.observations && before[d.field] in g.observations
      && g.observations[before[d.field]] == db.observations[before[d.field]]
  }

  lemma PublishedSettles(db: Db, c: Call, planned: seq<(Delta, Id)>, i: nat)
    requires Inv(db) && i < |c.deltas| && Picks(db, c.sr, c.deltas, 0, c.ids, {}, [], planned)
    requires Step(db, c).observations.Keys >= db.observations.Keys
    requires forall i, j :: 0 <= i < j < |planned| ==> planned[i].0.field != planned[j].0.field
    requires InsertAll(db.observations, c.sr, planned) == Some(Step(db, c).observations)
    requires Row(Step(db, c), c.sr).pointers == Pointed(Row(db, c.sr).pointers, planned)
    ensures Settles(db, Step(db, c), c.sr, c.deltas[i])
  {
    hide Step, InsertAll, Pointed, Picks, SameValue;
    var d := c.deltas[i];
    PlannedFields(db, c.sr, c.deltas, c.ids, planned, i);
    InsertAllSound(db.observations, c.sr, planned);
    PointedSound(Row(db, c.sr).pointers, planned);
    if Material(db, c.sr, d) {
      var k :| 0 <= k < |planned| && planned[k] == (d, c.ids(i));
    }
  }

  /**
   In an accepted call the field of every delta ends at a new observation made from that delta exactly when there was
   none or the value differs; an equal value leaves the field where it was.
   */
  lemma AcceptedDeltaSettles(db: Db, c: Call, i: nat)
    requires Inv(db) && i < |c.deltas| && Apply(db, c.sr, c.deltas, c.valid, c.ids).1.Ok?
    ensures Settles(db, Step(db, c), c.sr, c.deltas[i])
  {
    hide Plan, InsertAll, Pointed, Picks, Settles, Inv, PlanOk;
    var planned := Plan(db, c.sr, c.deltas, 0, c.valid, c.ids, {}, []).value;
    PlanPicks(db, c.sr, c.deltas, 0, c.valid, c.ids, {}, []);
    if planned == [] {
      NothingPlanned(db, c, i);
    } else {
      PlanFields(db, c.sr, c.deltas, c.valid, c.ids);
      ApplyMoves(db, c);
      PublishedSettles(db, c, planned, i);
    }
  }

  lemma PlanFields(db: Db, sr: Id, deltas: seq<Delta>, valid: Delta -> bool, ids: nat -> Id)
    requires Plan(db, sr, deltas, 0, valid, ids, {}, []).Ok?
    ensures var planned := Plan(db, sr, deltas, 0, valid, ids, {}, []).value;
            forall i, j :: 0 <= i < j < |planned| ==> planned[i].0.field != planned[j].0.field
  {
    hide Plan;
    PlanSound(db, sr, deltas, 0, valid, ids, {}, []);
  }

  lemma NothingPlanned(db: Db, c: Call, i: nat)
    requires Inv(db) && i < |c.deltas| && Picks(db, c.sr, c.deltas, 0, c.ids, {}, [], []) && Step(db, c) == db
    ensures Settles(db, Step(db, c), c.sr, c.deltas[i])
  {
    hide Step, SameValue;
    PlannedFields(db, c.sr, c.deltas, c.ids, [], i);
  }

  /** A field no delta names keeps its pointer. */
  lemma UnnamedFieldStays(db: Db, c: Call, f: Field)
    requires Inv(db) && Apply(db, c.sr, c.deltas, c.valid, c.ids).1.Ok?
    requires forall i :: 0 <= i < |c.deltas| ==> c.deltas[i].field != f
    ensures var before, after := Row(db, c.sr).pointers, Row(Step(db, c), c.sr).pointers;
            if f in before then f in after && after[f] == before[f] else f !in after
  {
    hide Plan, InsertAll, Pointed, Material, Inv, PlanOk;
    var planned := Plan(db, c.sr, c.deltas, 0, c.valid, c.ids, {}, []).value;
    PlanPicks(db, c.sr, c.deltas, 0, c.valid, c.ids, {}, []);
    PlanFields(db, c.sr, c.deltas, c.valid, c.ids);
    PointedSound(Row(db, c.sr).pointers, planned);
    assert forall x :: x in planned ==> x.0.field != f;
    assert !Plans(planned, f);
  }

  /**
   Last-writer-wins, exactly: after an accepted call the field of a delta carries the delta's chronology if and only if
   the delta was material or its chronology is the one the equal current value already had.
   */
  lemma EqualValueKeepsChronology(db: Db, c: Call, i: nat)
    requires Inv(db) && i < |c.deltas| && Apply(db, c.sr, c.deltas, c.valid, c.ids).1.Ok?
    ensures var d := c.deltas[i];
            var was, now := CurrentOf(db, c.sr, d.field), CurrentOf(Step(db, c), c.sr, d.field);
            && was.Ok? && now.Ok? && now.value.Some? && SameValue(now.value.value, d)
            && (now.value.value.chronology == d.chronology
                <==> was.value.None? || !SameValue(was.value.value, d) || was.value.value.chronology == d.chronology)
  {
    hide Step, Apply;
    AcceptedDeltaSettles(db, c, i);
    ApplyMoves(db, c);
    CurrentReadable(db, c.sr, c.deltas[i].field);
    CurrentReadable(Step(db, c), c.sr, c.deltas[i].field);
  }

  /** A current value never reports a missing observation; it is there exactly when the field has one, of its own. */
  lemma CurrentReadable(db: Db, sr: Id, f: Field)
    requires Inv(db)
    ensures var r := CurrentOf(db, sr, f);
            && r.Ok? && (r.value.Some? <==> f in Row(db, sr).pointers)
            && (r.value.Some? ==> PointsWell(db.observations, sr, f, Row(db, sr).pointers[f])
                                  && r.value.value == db.observations[Row(db, sr).pointers[f]])
  {
    if f in Row(db, sr).pointers {
      assert PointsWell(db.observations, sr, f, Row(db, sr).pointers[f]);
    }
  }

  /** An equal value observed later is accepted, and the older chronology stands. */
  lemma NewerEqualValueIgnored(sr: Id, id: Id, evidence: Id, text: string, early: nat, late: nat)
    requires early < late
    ensures exists db: Db, c: Call ::
              && Inv(db) && c.sr == sr && |c.deltas| == 1 && c.deltas[0].chronology == Some(late)
              && Apply(db, c.sr, c.deltas, c.valid, c.ids).1 == Ok(Outcome(Some(1), []))
              && CurrentOf(Step(db, c), sr, c.deltas[0].field).Ok?
              && CurrentOf(Step(db, c), sr, c.deltas[0].field).value.Some?
              && SameValue(CurrentOf(Step(db, c), sr, c.deltas[0].field).value.value, c.deltas[0])
              && CurrentOf(Step(db, c), sr, c.deltas[0].field).value.value.chronology == Some(early)
  {
    var d := Delta(ProblemSummary, TextKind, Usable(Text(text)), Some(late), SourceChronology, evidence);
    var o := Observation(id, sr, ProblemSummary, TextKind, Usable(Text(text)), Some(early), SourceChronology, evidence);
    var db := Db(map[sr := true], map[id := o], map[sr := Projection(map[ProblemSummary := id], 1)], [sr]);
    var c := Call(sr, [d], (x: Delta) => true, (n: nat) => n);
    assert db.applications[..0] == [];
    assert Count([sr], sr) == 1;
    assert forall x :: x != sr ==> Count([sr], x) == 0;
    assert Plan(db, sr, [d], 0, c.valid, c.ids, {}, []) == Ok([]);
    assert Step(db, c) == db;
    assert c.deltas[0] == d;
  }

  /* ---- When deltas are accepted ---- */

  /** The value is of the field's own kind; only the current handler may be cleared; chronology is there where it decides. */
  predicate WellShaped(d: Delta) {
    && d.kind == (if d.field in {ReportDate, SuspendPlannedEnd, LastUpdate} then InstantKind
                  else if d.field == SuspensionDuration then DurationKind
                  else if d.field in {CustomerSeverity, Status} then ControlledKind else TextKind)
    && (d.content.ExplicitClear? ==> d.field == CurrentHandlerLabel)
    && (d.content.Usable? ==> (d.content.value.Text? <==> d.kind in {TextKind, ControlledKind}))
    && (d.basis == SourceChronology ==> d.chronology.Some?)
  }

  lemma ShapedIff(d: Delta)
    ensures ShapeOk(d) <==> WellShaped(d)
  {
  }

  /** A protected fall: a terminal status replaced, or a positive suspension dropped to zero. */
  predicate Falls(o: Observation, d: Delta) {
    || (d.field == Status && d.content.Usable? && d.content != o.content
        && o.content in {Usable(Text("Closed")), Usable(Text("Resolved")), Usable(Text("Cancelled"))})
    || (d.field == SuspensionDuration && d.content == Usable(Number(0)) && o.content.Usable? && o.content.value.Number?
        && o.content.value.number > 0)
  }

  /** The field is empty, the value is the same, the correction is reviewed, or it is strictly newer and no such fall. */
  predicate Admissible(db: Db, sr: Id, d: Delta) {
    var current := CurrentOf(db, sr, d.field);
    && current.Ok?
    && (current.value.None? || SameValue(current.value.value, d) || d.basis == ReviewedCorrection
        || (&& current.value.value.chronology.Some? && d.chronology.Some?
            && current.value.value.chronology.value < d.chronology.value && !Falls(current.value.value, d)))
  }

  predicate AllAdmissible(db: Db, sr: Id, deltas: seq<Delta>, at: nat, valid: Delta -> bool, seen: set<Field>) {
    && at <= |deltas|
    && (forall i :: at <= i < |deltas| ==>
          WellShaped(deltas[i]) && valid(deltas[i]) && deltas[i].field !in seen && Admissible(db, sr, deltas[i]))
    && (forall i, j :: at <= i < j < |deltas| ==> deltas[i].field != deltas[j].field)
  }

  lemma AdmissibleIff(db: Db, sr: Id, d: Delta)
    ensures Admissible(db, sr, d)
       <==> CurrentOf(db, sr, d.field).Ok? && PrecedenceOk(CurrentOf(db, sr, d.field).value, d)
  {
  }

  lemma {:induction false} PlansIff(db: Db, sr: Id, deltas: seq<Delta>, at: nat, valid: Delta -> bool, ids: nat -> Id,
                                    seen: set<Field>, planned: seq<(Delta, Id)>)
    requires at <= |deltas|
    ensures Plan(db, sr, deltas, at, valid, ids, seen, planned).Ok? <==> AllAdmissible(db, sr, deltas, at, valid, seen)
    decreases |deltas| - at
  {
    hide ShapeOk, WellShaped, PrecedenceOk, SameValue, CurrentOf, Admissible;
    if at < |deltas| {
      var d := deltas[at];
      ShapedIff(d);
      AdmissibleIff(db, sr, d);
      SamePrecedence(db, sr, d);
      PlansIff(db, sr, deltas, at + 1, valid, ids, seen + {d.field}, planned);
      PlansIff(db, sr, deltas, at + 1, valid, ids, seen + {d.field}, planned + [(d, ids(at))]);
      RestAdmissible(db, sr, deltas, at, valid, seen);
    }
  }

  lemma SamePrecedence(db: Db, sr: Id, d: Delta)
    ensures var c := CurrentOf(db, sr, d.field);
            c.Ok? && c.value.Some? && SameValue(c.value.value, d) ==> PrecedenceOk(c.value, d)
  {
  }

  lemma RestAdmissible(db: Db, sr: Id, deltas: seq<Delta>, at: nat, valid: Delta -> bool, seen: set<Field>)
    requires at < |deltas|
    ensures AllAdmissible(db, sr, deltas, at, valid, seen)
       <==> WellShaped(deltas[at]) && valid(deltas[at]) && deltas[at].field !in seen && Admissible(db, sr, deltas[at])
            && AllAdmissible(db, sr, deltas, at + 1, valid, seen + {deltas[at].field})
  {
    hide WellShaped, Admissible;
    if AllAdmissible(db, sr, deltas, at + 1, valid, seen + {deltas[at].field}) {
      assert forall j :: at < j < |deltas| ==> deltas[j].field !in seen + {deltas[at].field};
    }
  }

  /** The identities drawn for the deltas are new and different. */
  ghost predicate FreshIds(db: Db, deltas: seq<Delta>, ids: nat -> Id) {
    && (forall i: nat :: i < |deltas| ==> ids(i) !in db.observations)
    && (forall i: nat, j: nat :: i < j < |deltas| ==> ids(i) != ids(j))
  }

  /** The planned identities, in order, are those drawn at increasing positions from `at` on. */
  ghost predicate Drawn(planned: seq<(Delta, Id)>, ids: nat -> Id, from: nat, to: nat) {
    exists ps: seq<nat> ::
      && |ps| == |planned| && (forall k :: 0 <= k < |ps| ==> from <= ps[k] < to && planned[k].1 == ids(ps[k]))
      && (forall k, l :: 0 <= k < l < |ps| ==> ps[k] < ps[l])
  }

  lemma {:induction false} PlanDraws(db: Db, sr: Id, deltas: seq<Delta>, at: nat, valid: Delta -> bool, ids: nat -> Id,
                                     seen: set<Field>, planned: seq<(Delta, Id)>)
    requires at <= |deltas| && Plan(db, sr, deltas, at, valid, ids, seen, planned).Ok? && Drawn(planned, ids, 0, at)
    ensures Drawn(Plan(db, sr, deltas, at, valid, ids, seen, planned).value, ids, 0, |deltas|)
    decreases |deltas| - at
  {
    hide ShapeOk, PrecedenceOk, SameValue, CurrentOf;
    if at < |deltas| {
      var ps: seq<nat> :| |ps| == |planned| && (forall k :: 0 <= k < |ps| ==> 0 <= ps[k] < at && planned[k].1 == ids(ps[k]))
                          && (forall k, l :: 0 <= k < l < |ps| ==> ps[k] < ps[l]);
      var more := planned + [(deltas[at], ids(at))];
      var qs := ps + [at];
      assert forall k :: 0 <= k < |qs| ==> 0 <= qs[k] < at + 1 && more[k].1 == ids(qs[k]);
      assert Drawn(more, ids, 0, at + 1);
      assert forall k :: 0 <= k < |ps| ==> 0 <= ps[k] < at + 1 && planned[k].1 == ids(ps[k]);
      assert Drawn(planned, ids, 0, at + 1);
      var d := deltas[at];
      var current := CurrentOf(db, sr, d.field);
      if current.value.Some? && SameValue(current.value.value, d) {
        PlanDraws(db, sr, deltas, at + 1, valid, ids, seen + {d.field}, planned);
      } else {
        PlanDraws(db, sr, deltas, at + 1, valid, ids, seen + {d.field}, more);
      }
    }
  }

  lemma {:induction false} InsertsAll(obs: map<Id, Observation>, sr: Id, planned: seq<(Delta, Id)>)
    requires forall k :: 0 <= k < |planned| ==> planned[k].1 !in obs
    requires forall k, l :: 0 <= k < l < |planned| ==> planned[k].1 != planned[l].1
    ensures InsertAll(obs, sr, planned).Some?
    decreases |planned|
  {
    if planned != [] {
      assert forall k :: 1 <= k < |planned| ==> planned[k] == planned[1..][k - 1];
      InsertsAll(obs[planned[0].1 := ObservationOf(sr, planned[0].0, planned[0].1)], sr, planned[1..]);
    }
  }

  /** A call is accepted exactly for an officially identified request and well-shaped, valid, admissible deltas. */
  lemma AcceptedIff(db: Db, c: Call)
    requires FreshIds(db, c.deltas, c.ids)
    ensures Apply(db, c.sr, c.deltas, c.valid, c.ids).1.Ok?
       <==> c.sr in db.official && db.official[c.sr] && AllAdmissible(db, c.sr, c.deltas, 0, c.valid, {})
  {
    hide Plan, InsertAll, AllAdmissible, Pointed;
    PlansIff(db, c.sr, c.deltas, 0, c.valid, c.ids, {}, []);
    var r := Plan(db, c.sr, c.deltas, 0, c.valid, c.ids, {}, []);
    if r.Ok? {
      NothingDrawn(c.ids);
      PlanDraws(db, c.sr, c.deltas, 0, c.valid, c.ids, {}, []);
      DrawnInserts(db, c, r.value);
    }
  }

  lemma NothingDrawn(ids: nat -> Id)
    ensures Drawn([], ids, 0, 0)
  {
    var ps: seq<nat> := [];
    assert |ps| == 0;
  }

  lemma DrawnInserts(db: Db, c: Call, planned: seq<(Delta, Id)>)
    requires FreshIds(db, c.deltas, c.ids) && Drawn(planned, c.ids, 0, |c.deltas|)
    ensures InsertAll(db.observations, c.sr, planned).Some?
  {
    var ps: seq<nat> :| |ps| == |planned| && (forall k :: 0 <= k < |ps| ==> 0 <= ps[k] < |c.deltas| && planned[k].1 == c.ids(ps[k]))
                        && (forall k, l :: 0 <= k < l < |ps| ==> ps[k] < ps[l]);
    InsertsAll(db.observations, c.sr, planned);
  }

  /** The answer of an accepted call: the revision now, and exactly the identities of the observations it inserted. */
  lemma OutcomeReports(db: Db, c: Call)
    requires Apply(db, c.sr, c.deltas, c.valid, c.ids).1.Ok?
    ensures var o, g := Apply(db, c.sr, c.deltas, c.valid, c.ids).1.value, Step(db, c);
            && (o.revision.Some? <==> c.sr in g.projections)
            && (o.revision.Some? ==> o.revision.value == g.projections[c.sr].revision)
            && g.observations.Keys == db.observations.Keys + set id | id in o.inserted
            && (o.inserted == [] <==> g == db) && (o.inserted != [] ==> Row(g, c.sr).revision == Row(db, c.sr).revision + 1)
  {
    hide Plan, Pointed;
    var planned := Plan(db, c.sr, c.deltas, 0, c.valid, c.ids, {}, []).value;
    if planned != [] {
      InsertedKeys(db.observations, c.sr, planned);
      assert |Identities(planned)| == |planned|;
      assert Step(db, c).applications != db.applications;
    }
  }

  lemma {:induction false} InsertedKeys(obs: map<Id, Observation>, sr: Id, planned: seq<(Delta, Id)>)
    requires InsertAll(obs, sr, planned).Some?
    ensures InsertAll(obs, sr, planned).value.Keys == obs.Keys + set id | id in Identities(planned)
    decreases |planned|
  {
    if planned != [] {
      InsertedKeys(obs[planned[0].1 := ObservationOf(sr, planned[0].0, planned[0].1)], sr, planned[1..]);
      assert Identities(planned) == [planned[0].1] + Identities(planned[1..]);
    }
  }
}
