/** The command boundary over a unit of work: statement by statement, and proved to take exactly one specified call. */
module CommandBoundary {
  import opened Prelude
  import opened CommandSteps
  import opened Connections
  import opened UnitOfWork

  class CommandBoundary {
    const store: Store
    const gate: WriteAdmissionGate?
    const context: Context
    const metrics: PersistenceMetrics

    constructor (store: Store, gate: WriteAdmissionGate?, context: Context, metrics: PersistenceMetrics)
      ensures this.store == store && this.gate == gate && this.context == context && this.metrics == metrics
    {
      this.store, this.gate, this.context, this.metrics := store, gate, context, metrics;
    }

    /** Write the audit events in turn. */
    static method WriteEvents(audits: seq<Audit>, events: seq<Audit>, fits: Audit -> bool)
      returns (r: Option<seq<Audit>>)
      ensures r == WriteAudits(audits, events, fits)
    {
      var written := audits;
      for i := 0 to |events|
        invariant WriteAudits(audits, events, fits) == WriteAudits(written, events[i..], fits)
      {
        assert events[i..][0] == events[i] && events[i..][1..] == events[i + 1..];
        if !fits(events[i]) || exists k :: 0 <= k < |written| && written[k].id == events[i].id {
          return None;
        }
        written := written + [events[i]];
      }
      assert events[|events|..] == [];
      return Some(written);
    }

    /** The body of the unit of work, on the connection's own view of the database. */
    static method Work(c: TrackedConnection, e: Envelope, prepare: Prepare, fits: Audit -> bool, now: nat, f: Faults)
      returns (r: Result<Execution, Error>)
      modifies c`working
      ensures var t := Transact(old(c.working), e, prepare, fits, now, f);
              if t.Err? then r == Err(t.error) else r == Ok(t.value.1) && c.working == t.value.0
    {
      hide Encode, Decode, WriteAudits, NormalizeEmission, RequestHash, ReplayMatches;
      if f.readReceipt {
        return Err(Persistence);
      }
      if e.command in c.working.receipts {
        var existing := c.working.receipts[e.command];
        if !ReplayMatches(existing, e) {
          return Err(Conflict);
        }
        if f.readResult {
          return Err(Persistence);
        }
        if e.command !in c.working.results {
          return Err(ResultUnavailable);
        }
        var exact := c.working.results[e.command];
        var response := Decode(exact);
        if response.Err? {
          return Err(response.error);
        }
        return Ok(Execution(existing.resultType, existing.resultId, true, existing.resultType == Some(NO_CHANGE),
                            exact.schema, exact.version, response.value));
      }
      var preparation := prepare(c.working.domain);
      if preparation.None? {
        return Err(Raised);
      }
      var (domain, p) := preparation.value;
      c.working := c.working.(domain := domain);
      if !PreparedValid(p) {
        return Err(Validation);
      }
      if f.receipt {
        return Err(Persistence);
      }
      c.working := c.working.(receipts := c.working.receipts[e.command :=
        Receipt(e.kind, RequestHash(e), e.targetType, e.targetId, now, StoredType(p), p.resultId)]);
      if !p.noChange {
        var applied := p.apply.value(c.working.domain);
        if applied.None? {
          return Err(Raised);
        }
        c.working := c.working.(domain := applied.value.0);
        var events := NormalizeEmission(applied.value.1, e.command);
        if events.Err? {
          return Err(events.error);
        }
        if f.audit {
          return Err(Persistence);
        }
        var audits := WriteEvents(c.working.audits, events.value, fits);
        if audits.None? {
          return Err(AuditInvalid);
        }
        c.working := c.working.(audits := audits.value);
        if p.afterAudit.Some? {
          var after := p.afterAudit.value(c.working.domain);
          if after.None? {
            return Err(Raised);
          }
          c.working := c.working.(domain := after.value);
        }
      }
      var response := Response(c.working, p);
      if response.None? {
        return Err(Raised);
      }
      var encoded := Encode(response.value, p.schema, p.version);
      if encoded.Err? {
        return Err(encoded.error);
      }
      if f.result {
        return Err(Persistence);
      }
      var (text, value) := encoded.value;
      c.working := c.working.(results := c.working.results[e.command := Stored(p.schema, p.version, text, Sha256(text))]);
      return Ok(Execution(StoredType(p), p.resultId, false, p.noChange, p.schema, p.version, value));
    }

    /**
     One call. On every path the nesting guard, the admission count and the connection counters are given back, and
     the store holds exactly what the specified call leaves.
     */
    method Execute(e: Envelope, prepare: Prepare, fits: Audit -> bool, now: nat, f: Faults)
      returns (r: Result<Execution, Error>)
      requires f.nested == context.inUnitOfWork && f.admission == (gate != null && !gate.accepting)
      modifies store, gate, context, metrics
      ensures (store.committed, r) == CommandSteps.Execute(old(store.committed), e, prepare, fits, now, f)
      ensures context.inUnitOfWork == old(context.inUnitOfWork) && metrics.Counts() == old(metrics.Counts())
      ensures gate != null ==> gate.active == old(gate.active) && gate.accepting == old(gate.accepting)
    {
      hide Transact, EnvelopeValid;
      if !EnvelopeValid(e) {
        return Err(Validation);
      }
      var uow := new UnitOfWork(store, gate, context, metrics);
      var refused := uow.Enter(f);
      if refused.Some? {
        return Err(refused.value);
      }
      r := Work(uow.connection, e, prepare, fits, now, f);
      var error := uow.Exit(if r.Err? then Some(r.error) else None, f);
      if error.Some? {
        return Err(error.value);
      }
    }
  }
}
