/**
 The durable-job coordinator over its two tables. Each method is one unit of work (recovery: one per row) and
 is proved to take exactly the step that `JobSteps` specifies; `issued` remembers every claim handed out.
 */
module JobCoordinator {
  import opened Prelude
  import opened JobTypes
  import opened JobSteps
  import opened JobRecovery

  lemma DedupePresent(c: Contract, j: Job)
    requires IdentityFault(c, j).None?
    ensures j.dedupe.Some?
  {
  }

  lemma EndAttemptKeepsJobs(w: Ledger, id: Id, now: nat, outcome: Outcome, error: Option<string>)
    ensures EndAttempt(w, id, now, outcome, error).after.jobs == w.jobs
    ensures EndAttempt(w, id, now, outcome, error).result.Err? ==> EndAttempt(w, id, now, outcome, error).after == w
  {
  }

  lemma InterruptKeepsJobs(w: Ledger, id: Id, at: nat, code: string)
    ensures Interrupt(w, id, at, code).after.jobs == w.jobs
    ensures Interrupt(w, id, at, code).result.Err? ==> Interrupt(w, id, at, code).after == w
  {
  }

  lemma RefusedRowChangesNothing(reg: Registry, w: Ledger, phase: Phase, id: Id, now: nat)
    requires RecoverRow(reg, w, phase, id, now).result.Err?
    ensures RecoverRow(reg, w, phase, id, now).after == w
  {
    hide Interrupt, CrashDecision;
  }

  /** How the restore loop's remaining rows, with `soFar` interruptions counted, continue the whole loop. */
  ghost predicate Continues(whole: Step<nat>, rest: Step<nat>, start: Ledger, soFar: nat) {
    if rest.result.Err? then whole == Refuse(start, rest.result.error)
    else whole == Step(rest.after, Ok(soFar + rest.result.value))
  }

  class DurableJobCoordinator {
    const registry: Registry
    var jobs: map<Id, Job>
    var attempts: seq<Attempt>
    ghost var issued: map<(Id, nat), Claim>

    constructor (registry: Registry, jobs: map<Id, Job>, attempts: seq<Attempt>, ghost issued: map<(Id, nat), Claim>)
      ensures this.registry == registry && State() == Ledger(jobs, attempts, issued)
    {
      this.registry := registry;
      this.jobs := jobs;
      this.attempts := attempts;
      this.issued := issued;
    }

    ghost function State(): Ledger
      reads this
    {
      Ledger(jobs, attempts, issued)
    }

    /** `UPDATE durable_jobs`: leave the current state, giving up any claim. */
    method UpdateRow(id: Id, state: State, retryAt: Option<nat>, error: Option<string>, at: nat)
      requires id in jobs
      modifies `jobs
      ensures State() == Leave(old(State()), id, state, retryAt, error, at)
    {
      jobs := jobs[id := jobs[id].(state := state, run := None, started := None, retryAt := retryAt,
                                   lastError := error, updated := at)];
    }

    /** Whether the history holds an attempt of this ordinal. */
    method AttemptPresent(id: Id, ordinal: nat) returns (found: bool)
      ensures found == Recorded(State(), id, ordinal)
    {
      found := false;
      for i := 0 to |attempts|
        invariant found == exists k :: 0 <= k < i && attempts[k].job == id && attempts[k].ordinal == ordinal
      {
        if attempts[i].job == id && attempts[i].ordinal == ordinal {
          found := true;
        }
      }
    }

    /** End the attempt of the current claim: refused when its ordinal is already in the history. */
    method InsertAttempt(id: Id, now: nat, outcome: Outcome, error: Option<string>) returns (r: Result<(), Error>)
      modifies `attempts
      ensures Step(State(), r) == EndAttempt(old(State()), id, now, outcome, error)
    {
      if id !in jobs || jobs[id].attempts < 1 || jobs[id].run.None? || jobs[id].started.None? {
        return Err(Corrupt(IncompleteClaim));
      }
      var present := AttemptPresent(id, jobs[id].attempts);
      if present {
        return Err(Corrupt(OrdinalRecorded));
      }
      var j := jobs[id];
      if now < j.started.value {
        return Err(Corrupt(FinishBeforeStart));
      }
      attempts := attempts + [Attempt(id, j.attempts, j.run.value, j.started.value, now, outcome, error)];
      return Ok(());
    }

    /** Record an interruption unless exactly that interruption is already there. */
    method InsertInterruptedIfAbsent(id: Id, at: nat, code: string) returns (r: Result<bool, Error>)
      modifies `attempts
      ensures Step(State(), r) == Interrupt(old(State()), id, at, code)
    {
      if id !in jobs || jobs[id].attempts < 1 || jobs[id].run.None? || jobs[id].started.None? {
        return Err(Corrupt(IncompleteClaim));
      }
      var j := jobs[id];
      var present, agrees := false, true;
      for i := 0 to |attempts|
        invariant present == exists k :: 0 <= k < i && attempts[k].job == id && attempts[k].ordinal == j.attempts
        invariant agrees == forall k :: 0 <= k < i && attempts[k].job == id && attempts[k].ordinal == j.attempts ==>
          var a := attempts[k];
          Some(a.run) == j.run && Some(a.started) == j.started && a.outcome == Interrupted && a.error == Some(code)
      {
        var a := attempts[i];
        if a.job == id && a.ordinal == j.attempts {
          present := true;
          agrees := agrees && Some(a.run) == j.run && Some(a.started) == j.started
                    && a.outcome == Interrupted && a.error == Some(code);
        }
      }
      assert present == Recorded(State(), id, j.attempts);
      if !present {
        attempts := attempts + [Attempt(id, j.attempts, j.run.value, j.started.value, Max(at, j.started.value),
                                        Interrupted, Some(code))];
        return Ok(true);
      }
      return if agrees then Ok(false) else Err(Corrupt(ConflictingHistory));
    }

    method EnqueueOrCoalesce(kind: Kind, payload: Json, key: string, now: nat, newId: Id) returns (r: Result<Id, Error>)
      modifies this
      ensures Step(State(), r) == Enqueue(registry, old(State()), kind, payload, key, now, newId)
    {
      hide Ascending, ValidKey;
      if kind !in registry || !registry[kind].validPayload(payload) {
        return Err(Validation);
      }
      var contract := registry[kind];
      var derived := contract.deriveKey(payload);
      if derived.None? || !ValidKey(derived.value) || derived.value != key {
        return Err(Validation);
      }
      var dedupe := Sha256(kind, key);
      var rows := Ascending(Matching(Ledger(jobs, attempts, map[]), kind, dedupe, contract.coalesce));
      assert rows == Ascending(Matching(State(), kind, dedupe, contract.coalesce)) by {
        assert Matching(Ledger(jobs, attempts, map[]), kind, dedupe, contract.coalesce)
            == Matching(State(), kind, dedupe, contract.coalesce);
      }
      if |rows| > 1 {
        return Err(Corrupt(MultipleMatches));
      }
      if |rows| == 1 {
        assert rows[0] in rows;
        var persisted := jobs[rows[0]];
        if !contract.validPayload(persisted.payload) {
          return Err(Corrupt(PayloadInvalid));
        }
        if contract.deriveKey(persisted.payload) != Some(key) {
          return Err(Corrupt(KeyDisagreement));
        }
        return Ok(rows[0]);
      }
      if newId in jobs {
        return Err(Corrupt(EnqueueViolated));
      }
      jobs := jobs[newId := Job(kind, Queued, now, now, 0, None, None, None, payload, None, None, Some(dedupe))];
      return Ok(newId);
    }

    method ClaimNext(run: Id, now: nat) returns (r: Result<Option<Claim>, Error>)
      modifies this
      ensures Step(State(), r) == JobSteps.ClaimNext(registry, old(State()), run, now)
    {
      hide NextDue, IdentityFault, CheckpointValid;
      var next := NextDue(jobs, now);
      if next.None? {
        return Ok(None);
      }
      var id := next.value;
      var j := jobs[id];
      if j.state == Queued && j.retryAt.Some? {
        return Err(Corrupt(QueuedWithRetry));
      }
      if j.state == RetryWait && (j.retryAt.None? || j.retryAt.value > now) {
        return Err(Corrupt(SelectedEarly));
      }
      if now < j.created || now < j.updated {
        return Err(Corrupt(ClockRegressed));
      }
      if j.kind !in registry {
        UpdateRow(id, Failed, None, Some(UNAVAILABLE_CODE), Max(j.updated, now));
        return Ok(None);
      }
      var fault := IdentityFault(registry[j.kind], j);
      if fault.Some? {
        return Err(Corrupt(fault.value));
      }
      if !CheckpointValid(registry[j.kind], j.checkpoint) {
        return Err(Corrupt(CheckpointInvalid));
      }
      if j.run.Some? || j.started.Some? {
        return Err(Corrupt(LostRevalidation));
      }
      DedupePresent(registry[j.kind], j);
      var ordinal := j.attempts + 1;
      var claim := Claim(id, j.kind, run, ordinal, now, j.dedupe.value, j.payload, j.checkpoint);
      jobs := jobs[id := j.(state := Running, run := Some(run), started := Some(now), attempts := ordinal,
                            retryAt := None, updated := now)];
      issued := issued[(id, ordinal) := claim];
      return Ok(Some(claim));
    }

    /** Exact claim revalidation and the clock check behind every claim holder's write. */
    method VerifyHolder(claim: Claim, now: nat) returns (fault: Option<Error>)
      ensures fault == HolderFault(registry, State(), claim, now)
    {
      if claim.ordinal < 1 || claim.kind !in registry {
        return Some(Validation);
      }
      if claim.job !in jobs {
        return Some(ClaimConflict);
      }
      var j := jobs[claim.job];
      if j.kind != claim.kind || j.state != Running || j.run != Some(claim.run) || j.attempts != claim.ordinal
         || j.started != Some(claim.started)
      {
        return Some(ClaimConflict);
      }
      if j.dedupe.None? {
        return Some(Corrupt(MissingDedupe));
      }
      if j.dedupe != Some(claim.dedupe) || j.payload != claim.payload {
        return Some(Corrupt(IdentityChanged));
      }
      var wrong := IdentityFault(registry[claim.kind], j);
      if wrong.Some? {
        return Some(Corrupt(wrong.value));
      }
      if !CheckpointValid(registry[claim.kind], j.checkpoint) {
        return Some(Corrupt(CheckpointInvalid));
      }
      if now < j.updated || now < claim.started {
        return Some(Corrupt(ClockRegressed));
      }
      return None;
    }

    method Checkpoint(claim: Claim, value: Json, now: nat) returns (r: Result<(), Error>)
      modifies this
      ensures Step(State(), r) == JobSteps.Checkpoint(registry, old(State()), claim, value, now)
    {
      var fault := VerifyHolder(claim, now);
      if fault.Some? {
        return Err(fault.value);
      }
      if !registry[claim.kind].validCheckpoint(value) {
        return Err(Validation);
      }
      jobs := jobs[claim.job := jobs[claim.job].(checkpoint := Some(value), updated := now)];
      return Ok(());
    }

    method Complete(claim: Claim, now: nat) returns (r: Result<(), Error>)
      modifies this
      ensures Step(State(), r) == JobSteps.Complete(registry, old(State()), claim, now)
    {
      hide IdentityFault, EndAttempt;
      var fault := VerifyHolder(claim, now);
      if fault.Some? {
        return Err(fault.value);
      }
      EndAttemptKeepsJobs(State(), claim.job, now, DidComplete, None);
      r := InsertAttempt(claim.job, now, DidComplete, None);
      if r.Ok? {
        UpdateRow(claim.job, Completed, None, None, now);
        return Ok(());
      }
    }

    method Fail(claim: Claim, code: string, retryAt: Option<nat>, now: nat) returns (r: Result<(), Error>)
      modifies this
      ensures Step(State(), r) == JobSteps.Fail(registry, old(State()), claim, code, retryAt, now)
    {
      hide IdentityFault, EndAttempt, ValidErrorCode;
      var fault := VerifyHolder(claim, now);
      if fault.Some? {
        return Err(fault.value);
      }
      if !ValidErrorCode(code) || (retryAt.Some? && retryAt.value < now) {
        return Err(Validation);
      }
      if !registry[claim.kind].validFailure(code, claim.ordinal, now, retryAt) {
        return Err(Validation);
      }
      EndAttemptKeepsJobs(State(), claim.job, now, DidFail, Some(code));
      r := InsertAttempt(claim.job, now, DidFail, Some(code));
      if r.Ok? {
        UpdateRow(claim.job, if retryAt.Some? then RetryWait else Failed, retryAt, Some(code), now);
        return Ok(());
      }
    }

    method Cancel(id: Id, kind: Kind, context: Json, now: nat) returns (r: Result<Cancellation, Error>)
      modifies this
      ensures Step(State(), r) == JobSteps.Cancel(registry, old(State()), id, kind, context, now)
    {
      hide EndAttempt;
      if kind !in registry || id !in jobs {
        return Err(Validation);
      }
      var j := jobs[id];
      if j.kind != kind {
        return Err(Corrupt(WrongKind));
      }
      if j.state == Cancelled {
        return Ok(AlreadyCancelled);
      }
      if j.state !in NONTERMINAL {
        return Ok(TerminalUnchanged(j.state));
      }
      if !registry[kind].validCancellation(context, j.state) {
        return Err(Validation);
      }
      if now < j.created || now < j.updated {
        return Err(Corrupt(ClockRegressed));
      }
      var revoked: Option<nat> := None;
      if j.state == Running {
        EndAttemptKeepsJobs(State(), id, now, WasCancelled, None);
        var ended := InsertAttempt(id, now, WasCancelled, None);
        if ended.Err? {
          return Err(ended.error);
        }
        revoked := Some(j.attempts);
      }
      UpdateRow(id, Cancelled, None, j.lastError, now);
      return Ok(CancelledFrom(j.state, revoked));
    }

    /** Interrupt the row when it is running, then leave for `state`. */
    method SettleRow(id: Id, finished: nat, code: string, state: State, retryAt: Option<nat>, error: string, at: nat)
      returns (r: Result<Verdict, Error>)
      requires id in jobs
      modifies `jobs, `attempts
      ensures Step(State(), r) == Settle(old(State()), id, finished, code, state, retryAt, error, at)
    {
      hide Interrupt;
      var inserted := false;
      if jobs[id].state == Running {
        InterruptKeepsJobs(State(), id, finished, code);
        var cut := InsertInterruptedIfAbsent(id, finished, code);
        if cut.Err? {
          return Err(cut.error);
        }
        inserted := cut.value;
      }
      UpdateRow(id, state, retryAt, Some(error), at);
      return Ok(Settled(state, inserted));
    }

    method RecoverLegacyRow(id: Id, now: nat) returns (r: Result<Verdict, Error>)
      modifies this
      ensures Step(State(), r) == RecoverLegacy(old(State()), id, now)
    {
      hide Settle;
      if id !in jobs || jobs[id].dedupe.Some? || jobs[id].state !in NONTERMINAL {
        return Ok(Skipped);
      }
      r := SettleRow(id, now, LEGACY_CODE, Failed, None, LEGACY_CODE, Max(jobs[id].updated, now));
    }

    /** The interruption is written before the crash policy is asked; a policy that fails takes it back. */
    method RecoverStaleRow(id: Id, current: Id, now: nat) returns (r: Result<Verdict, Error>)
      modifies this
      ensures Step(State(), r) == RecoverStale(registry, old(State()), id, current, now)
    {
      hide Interrupt, CrashDecision;
      if id !in jobs || jobs[id].state != Running || jobs[id].run.None? || jobs[id].run == Some(current) {
        return Ok(Skipped);
      }
      var j, before := jobs[id], attempts;
      InterruptKeepsJobs(State(), id, now, INTERRUPTED_CODE);
      var cut := InsertInterruptedIfAbsent(id, now, INTERRUPTED_CODE);
      if cut.Err? {
        return Err(cut.error);
      }
      var d := CrashDecision(registry, j, now);
      if d.Err? {
        attempts := before;
        return Err(d.error);
      }
      var code := if d.value.error.Some? then d.value.error.value else INTERRUPTED_CODE;
      UpdateRow(id, d.value.state, d.value.retryAt, Some(code), Max(j.updated, now));
      return Ok(Settled(d.value.state, cut.value));
    }

    /** Invalidate every job a restored snapshot left live, in one unit of work. */
    method ReconcileRestoredJobs(now: nat) returns (r: Result<Reconciliation, Error>)
      modifies `jobs, `attempts
      ensures Step(State(), r) == Restore(old(State()), now)
    {
      hide Ascending, SettleRestored;
      var was, past := jobs, attempts;
      ghost var start := State();
      var ids := Ascending(Nonterminal(Ledger(jobs, attempts, map[])));
      assert Nonterminal(Ledger(jobs, attempts, map[])) == Nonterminal(start);
      var interrupted, i := 0, 0;
      while i < |ids|
        invariant 0 <= i <= |ids|
        invariant Continues(SettleAll(start, ids, now), SettleAll(State(), ids[i..], now), start, interrupted)
      {
        assert ids[i..][0] == ids[i] && ids[i..][1..] == ids[i + 1..];
        var row := SettleRestoredRow(ids[i], now);
        if row.Err? {
          jobs, attempts := was, past;
          return Err(row.error);
        }
        if row.value.Settled? && row.value.interrupted {
          interrupted := interrupted + 1;
        }
        i := i + 1;
      }
      assert ids[|ids|..] == [];
      var terminal := TerminalCount(Ledger(jobs, attempts, map[]));
      assert (set id | id in jobs && jobs[id].state !in NONTERMINAL)
          == (set id | id in State().jobs && State().jobs[id].state !in NONTERMINAL);
      return Ok(Reconciliation(|ids|, |ids|, interrupted, terminal - |ids|));
    }

    method SettleRestoredRow(id: Id, now: nat) returns (r: Result<Verdict, Error>)
      modifies `jobs, `attempts
      ensures Step(State(), r) == SettleRestored(old(State()), id, now)
    {
      hide Interrupt;
      if id !in jobs || jobs[id].state !in NONTERMINAL {
        return Err(Corrupt(LostRevalidation));
      }
      var at := Max(jobs[id].updated, now);
      r := SettleRow(id, at, RESTORE_CODE, Cancelled, None, RESTORE_CODE, at);
    }

    method RecoverOne(phase: Phase, id: Id, now: nat) returns (r: Result<Verdict, Error>)
      modifies this
      ensures Step(State(), r) == RecoverRow(registry, old(State()), phase, id, now)
    {
      match phase
      case Legacy => r := RecoverLegacyRow(id, now);
      case Stale(current) => r := RecoverStaleRow(id, current, now);
    }

    /** One unit of work of some other caller. */
    method Take(op: Op)
      modifies this
      ensures State() == Apply(registry, old(State()), op).0
    {
      hide JobSteps.Enqueue, JobSteps.ClaimNext, JobSteps.Checkpoint, JobSteps.Complete, JobSteps.Fail,
           JobSteps.Cancel, RecoverLegacy, RecoverStale, Restore;
      match op
      case DoEnqueue(kind, payload, key, now, newId) => var _ := EnqueueOrCoalesce(kind, payload, key, now, newId);
      case DoClaim(run, now) => var _ := ClaimNext(run, now);
      case DoCheckpoint(c, value, now) => var _ := Checkpoint(c, value, now);
      case DoComplete(c, now) => var _ := Complete(c, now);
      case DoFail(c, code, retryAt, now) => var _ := Fail(c, code, retryAt, now);
      case DoCancel(id, kind, context, now) => var _ := Cancel(id, kind, context, now);
      case DoRecoverLegacy(id, now) => var _ := RecoverLegacyRow(id, now);
      case DoRecoverStale(id, current, now) => var _ := RecoverStaleRow(id, current, now);
      case DoRestore(now) => var _ := ReconcileRestoredJobs(now);
    }

    /** What other callers of this process did between two units of work. */
    method Interleave(events: seq<Event>)
      requires forall i :: 0 <= i < |events| ==> events[i].reg == registry
      modifies this
      ensures State() == Run(old(State()), events)
    {
      hide Apply;
      ghost var start := State();
      for i := 0 to |events|
        invariant Run(start, events) == Run(State(), events[i..])
      {
        assert events[i..][0] == events[i] && events[i..][1..] == events[i + 1..];
        Take(events[i].op);
      }
      assert events[|events|..] == [];
    }

    /** Settle the listed rows, each in its own unit of work; a failure keeps the rows already settled. */
    method SweepRows(phase: Phase, ids: seq<Id>, now: nat, env: Env, at: nat, counts: Summary)
      returns (r: Result<Summary, Error>)
      requires forall i, k :: 0 <= k < |env(i)| ==> env(i)[k].reg == registry
      modifies this
      ensures Step(State(), r) == Sweep(registry, old(State()), phase, ids, now, env, at, counts)
    {
      hide RecoverRow, Run, Tally;
      ghost var start := State();
      var s, i := counts, 0;
      while i < |ids|
        invariant 0 <= i <= |ids|
        invariant Sweep(registry, start, phase, ids, now, env, at, counts)
               == Sweep(registry, State(), phase, ids[i..], now, env, at + i, s)
      {
        assert ids[i..][0] == ids[i] && ids[i..][1..] == ids[i + 1..];
        Interleave(env(at + i));
        ghost var u := State();
        var row := RecoverOne(phase, ids[i], now);
        if row.Err? {
          RefusedRowChangesNothing(registry, u, phase, ids[i], now);
          return Err(row.error);
        }
        s := Tally(s, row.value);
        i := i + 1;
      }
      assert ids[|ids|..] == [];
      return Ok(s);
    }

    /** Startup recovery: legacy rows first, then the rows claimed by other runs. */
    method RecoverStaleClaims(current: Id, now: nat, env: Env) returns (r: Result<Summary, Error>)
      requires forall i, k :: 0 <= k < |env(i)| ==> env(i)[k].reg == registry
      modifies this
      ensures Step(State(), r) == Recover(registry, old(State()), current, now, env)
    {
      hide Sweep, Ascending, Run;
      var legacy := Ascending(Listing(Ledger(jobs, attempts, map[]), Legacy));
      assert Listing(Ledger(jobs, attempts, map[]), Legacy) == Listing(State(), Legacy);
      r := SweepRows(Legacy, legacy, now, env, 0, ZERO);
      if r.Err? {
        return;
      }
      Interleave(env(|legacy|));
      var stale := Ascending(Listing(Ledger(jobs, attempts, map[]), Stale(current)));
      assert Listing(Ledger(jobs, attempts, map[]), Stale(current)) == Listing(State(), Stale(current));
      r := SweepRows(Stale(current), stale, now, env, |legacy| + 1, r.value);
    }
  }
}
