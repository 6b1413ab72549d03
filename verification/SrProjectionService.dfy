/** The projection service over its tables: the delta loop, the inserts and the pointer update, in place. */
module SrProjectionService {
  import opened Prelude
  import opened SrProjection
  import SrProjectionGuarantees
  import SrAcceptance

  class ProjectionTables {
    var official: map<Id, bool>
    var observations: map<Id, Observation>
    var projections: map<Id, Projection>
    ghost var applications: seq<Id>

    constructor (db: Db)
      ensures Tables() == db
    {
      official, observations, projections := db.official, db.observations, db.projections;
      applications := db.applications;
    }

    ghost function Tables(): Db
      reads this
    {
      Db(official, observations, projections, applications)
    }

    method ApplyAcceptedFieldDeltas(sr: Id, deltas: seq<Delta>, valid: Delta -> bool, ids: nat -> Id)
      returns (r: Result<Outcome, Error>)
      modifies this
      ensures (Tables(), r) == Apply(old(Tables()), sr, deltas, valid, ids)
    {
      hide ShapeOk, PrecedenceOk, SameValue;
      if sr !in official {
        return Err(NotFound);
      }
      if !official[sr] {
        return Err(Invalid);
      }
      ghost var start := Tables();
      var seen: set<Field>, planned: seq<(Delta, Id)> := {}, [];
      for i := 0 to |deltas|
        invariant Tables() == start
        invariant Plan(start, sr, deltas, 0, valid, ids, {}, []) == Plan(start, sr, deltas, i, valid, ids, seen, planned)
      {
        var d := deltas[i];
        if !ShapeOk(d) {
          return Err(Invalid);
        }
        if d.field in seen {
          return Err(Invalid);
        }
        seen := seen + {d.field};
        if !valid(d) {
          return Err(Invalid);
        }
        var current := CurrentObservation(sr, d.field);
        if current.Err? {
          return Err(current.error);
        }
        if current.value.None? || !SameValue(current.value.value, d) {
          if !PrecedenceOk(current.value, d) {
            return Err(Invalid);
          }
          planned := planned + [(d, ids(i))];
        }
      }
      if planned == [] {
        return Ok(Outcome(if sr in projections then Some(projections[sr].revision) else None, []));
      }
      r := Publish(sr, planned);
    }

    /** On sound tables, exactly the observation the field is at, and never a missing one. */
    method CurrentObservation(sr: Id, f: Field) returns (r: Result<Option<Observation>, Error>)
      ensures r == CurrentOf(Tables(), sr, f)
      ensures SrProjectionGuarantees.Inv(Tables()) ==>
                && r.Ok? && (r.value.Some? <==> f in Row(Tables(), sr).pointers)
                && (r.value.Some? ==> r.value.value.sr == sr && r.value.value.field == f
                                      && r.value.value.kind == KindOf(f))
    {
      if SrProjectionGuarantees.Inv(Tables()) {
        SrAcceptance.CurrentReadable(Tables(), sr, f);
      }
      if sr !in projections || f !in projections[sr].pointers {
        return Ok(None);
      }
      var id := projections[sr].pointers[f];
      if id !in observations || observations[id].sr != sr {
        return Err(Persistence);
      }
      return Ok(Some(observations[id]));
    }

    /** The inserts, then the projection row; a repeated identity rolls everything back. */
    method Publish(sr: Id, planned: seq<(Delta, Id)>) returns (r: Result<Outcome, Error>)
      modifies this
      ensures var inserted := InsertAll(old(observations), sr, planned);
              var row := Projection(Pointed(Row(old(Tables()), sr).pointers, planned), Row(old(Tables()), sr).revision + 1);
              if inserted.None? then Tables() == old(Tables()) && r == Err(Persistence)
              else Tables() == Db(old(official), inserted.value, old(projections)[sr := row], old(applications) + [sr])
                   && r == Ok(Outcome(Some(row.revision), Identities(planned)))
    {
      var before := observations;
      var row := if sr in projections then projections[sr] else Projection(map[], 0);
      var pointers := row.pointers;
      for i := 0 to |planned|
        invariant InsertAll(before, sr, planned) == InsertAll(observations, sr, planned[i..])
        invariant Pointed(row.pointers, planned) == Pointed(pointers, planned[i..])
        invariant official == old(official) && projections == old(projections) && applications == old(applications)
      {
        assert planned[i..][0] == planned[i] && planned[i..][1..] == planned[i + 1..];
        var (d, id) := planned[i];
        if id in observations {
          observations := before;
          return Err(Persistence);
        }
        observations := observations[id := ObservationOf(sr, d, id)];
        pointers := pointers[d.field := id];
      }
      assert planned[|planned|..] == [];
      projections := projections[sr := Projection(pointers, row.revision + 1)];
      applications := applications + [sr];
      return Ok(Outcome(Some(row.revision + 1), Identities(planned)));
    }
  }
}
