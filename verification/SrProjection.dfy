/** The accepted source projection of a Service Request: pointers into an append-only table of field observations. */
module SrProjection {
  import opened Prelude

  datatype Field =
    | ProblemSummary | ReportDate | CustomerContactLabel | CustomerSeverity | CurrentHandlerLabel | Status
    | CustomerOrgLabel | CustomerAccountCode | SuspendPlannedEnd | SuspensionDuration | LastUpdate

  datatype ValueKind = TextKind | InstantKind | ControlledKind | DurationKind

  datatype Value = Text(text: string) | Number(number: int)

  /** A usable value, or an explicit clear. */
  datatype Content = Usable(value: Value) | ExplicitClear

  datatype Basis = SourceChronology | ReviewedCorrection

  datatype Delta = Delta(field: Field, kind: ValueKind, content: Content, chronology: Option<nat>, basis: Basis,
                         evidence: Id)

  datatype Observation = Observation(id: Id, sr: Id, field: Field, kind: ValueKind, content: Content,
                                     chronology: Option<nat>, basis: Basis, evidence: Id)

  datatype Projection = Projection(pointers: map<Field, Id>, revision: nat)

  /** `official` says which requests have an official identity; `applications` is the history of material applications. */
  datatype Db = Db(official: map<Id, bool>, observations: map<Id, Observation>, projections: map<Id, Projection>,
                   applications: seq<Id>)

  datatype Error = NotFound | Invalid | Persistence

  function KindOf(f: Field): ValueKind {
    match f
    case ReportDate => InstantKind
    case SuspendPlannedEnd => InstantKind
    case LastUpdate => InstantKind
    case SuspensionDuration => DurationKind
    case CustomerSeverity => ControlledKind
    case Status => ControlledKind
    case _ => TextKind
  }

  predicate ShapeOk(d: Delta) {
    && d.kind == KindOf(d.field)
    && (d.basis == SourceChronology ==> d.chronology.Some?)
    && match d.content
       case ExplicitClear => d.field == CurrentHandlerLabel
       case Usable(v) => if d.kind == TextKind || d.kind == ControlledKind then v.Text? else v.Number?
  }

  predicate SameValue(o: Observation, d: Delta) {
    o.content == d.content && o.kind == d.kind
  }

  predicate TerminalStatus(v: Value) {
    v == Text("Closed") || v == Text("Resolved") || v == Text("Cancelled")
  }

  /** The observation a field currently points at. */
  function CurrentOf(db: Db, sr: Id, f: Field): Result<Option<Observation>, Error> {
    if sr !in db.projections || f !in db.projections[sr].pointers then Ok(None)
    else
      var id := db.projections[sr].pointers[f];
      if id !in db.observations || db.observations[id].sr != sr then Err(Persistence)
      else Ok(Some(db.observations[id]))
  }

  /** A changed value must be reviewed, or demonstrably newer and not a protected regression. */
  predicate PrecedenceOk(current: Option<Observation>, d: Delta) {
    current.None? || SameValue(current.value, d) || d.basis == ReviewedCorrection
    || (&& current.value.chronology.Some? && d.chronology.Some?
        && current.value.chronology.value < d.chronology.value
        && !(d.field == Status && current.value.content.Usable? && TerminalStatus(current.value.content.value)
             && d.content.Usable? && d.content != current.value.content)
        && !(d.field == SuspensionDuration && current.value.content.Usable? && current.value.content.value.Number?
             && current.value.content.value.number > 0 && d.content == Usable(Number(0))))
  }

  /** The delta loop: what it plans, with the identities `new_uuid4` returns for each position. */
  function Plan(db: Db, sr: Id, deltas: seq<Delta>, at: nat, valid: Delta -> bool, ids: nat -> Id, seen: set<Field>,
                planned: seq<(Delta, Id)>): Result<seq<(Delta, Id)>, Error>
    requires at <= |deltas|
    decreases |deltas| - at
  {
    if at == |deltas| then Ok(planned)
    else
      var d := deltas[at];
      if !ShapeOk(d) || d.field in seen || !valid(d) then Err(Invalid)
      else
        var current := CurrentOf(db, sr, d.field);
        if current.Err? then Err(current.error)
        else if current.value.Some? && SameValue(current.value.value, d) then
          Plan(db, sr, deltas, at + 1, valid, ids, seen + {d.field}, planned)
        else if !PrecedenceOk(current.value, d) then Err(Invalid)
        else Plan(db, sr, deltas, at + 1, valid, ids, seen + {d.field}, planned + [(d, ids(at))])
  }

  function ObservationOf(sr: Id, d: Delta, id: Id): Observation {
    Observation(id, sr, d.field, d.kind, d.content, d.chronology, d.basis, d.evidence)
  }

  /** Insert the planned observations in turn; a repeated identity violates the primary key. */
  function InsertAll(obs: map<Id, Observation>, sr: Id, planned: seq<(Delta, Id)>): Option<map<Id, Observation>>
    decreases |planned|
  {
    if planned == [] then Some(obs)
    else if planned[0].1 in obs then None
    else InsertAll(obs[planned[0].1 := ObservationOf(sr, planned[0].0, planned[0].1)], sr, planned[1..])
  }

  function Pointed(pointers: map<Field, Id>, planned: seq<(Delta, Id)>): map<Field, Id>
    decreases |planned|
  {
    if planned == [] then pointers else Pointed(pointers[planned[0].0.field := planned[0].1], planned[1..])
  }

  /** What the projection row was, if there was one. */
  function Row(db: Db, sr: Id): Projection {
    if sr in db.projections then db.projections[sr] else Projection(map[], 0)
  }

  datatype Outcome = Outcome(revision: Option<nat>, inserted: seq<Id>)

  function Apply(db: Db, sr: Id, deltas: seq<Delta>, valid: Delta -> bool, ids: nat -> Id): (Db, Result<Outcome, Error>) {
    if sr !in db.official then (db, Err(NotFound))
    else if !db.official[sr] then (db, Err(Invalid))
    else
      var planned := Plan(db, sr, deltas, 0, valid, ids, {}, []);
      if planned.Err? then (db, Err(planned.error))
      else if planned.value == [] then
        (db, Ok(Outcome(if sr in db.projections then Some(db.projections[sr].revision) else None, [])))
      else
        var inserted := InsertAll(db.observations, sr, planned.value);
        if inserted.None? then (db, Err(Persistence))
        else
          var row := Projection(Pointed(Row(db, sr).pointers, planned.value), Row(db, sr).revision + 1);
          (Db(db.official, inserted.value, db.projections[sr := row], db.applications + [sr]),
           Ok(Outcome(Some(row.revision), Identities(planned.value))))
  }

  function Identities(planned: seq<(Delta, Id)>): (ids: seq<Id>)
    ensures |ids| == |planned|
  {
    seq(|planned|, i requires 0 <= i < |planned| => planned[i].1)
  }

  datatype Call = Call(sr: Id, deltas: seq<Delta>, valid: Delta -> bool, ids: nat -> Id)

  function Step(db: Db, c: Call): Db {
    Apply(db, c.sr, c.deltas, c.valid, c.ids).0
  }

  function Run(db: Db, calls: seq<Call>): Db
    decreases |calls|
  {
    if calls == [] then db else Run(Step(db, calls[0]), calls[1..])
  }
}
