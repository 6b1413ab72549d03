/**
 The durable-job coordinator as steps on a value. A `Ledger` is the database (`jobs`, `attempts`) together
 with `issued`, the history of every claim ever handed out. A step that fails leaves the ledger unchanged:
 its unit of work rolls back.
 */
module JobSteps {
  import opened Prelude
  import opened JobTypes

  datatype Ledger = Ledger(jobs: map<Id, Job>, attempts: seq<Attempt>, issued: map<(Id, nat), Claim>)

  datatype Step<+T> = Step(after: Ledger, result: Result<T, Error>)

  function Refuse<T>(w: Ledger, e: Error): Step<T> { Step(w, Err(e)) }

  /* ---- Row changes the steps are built from ---- */

  function WithRow(w: Ledger, id: Id, j: Job): Ledger {
    w.(jobs := w.jobs[id := j])
  }

  /** Claim `id` for `run`: the next ordinal starts now. */
  function Start(w: Ledger, id: Id, now: nat, claim: Claim): Ledger
    requires id in w.jobs
  {
    var j := w.jobs[id];
    Ledger(
      w.jobs[id := j.(state := Running, run := Some(claim.run), started := Some(now), attempts := claim.ordinal,
                      retryAt := None, updated := now)],
      w.attempts,
      w.issued[(id, claim.ordinal) := claim])
  }

  /** Leave the current state for `state`, giving up any claim. */
  function Leave(w: Ledger, id: Id, state: State, retryAt: Option<nat>, error: Option<string>, at: nat): Ledger
    requires id in w.jobs
  {
    WithRow(w, id, w.jobs[id].(state := state, run := None, started := None, retryAt := retryAt,
                               lastError := error, updated := at))
  }

  /** Record how the running attempt of `id` ended. */
  function Record(w: Ledger, id: Id, finished: nat, outcome: Outcome, error: Option<string>): Ledger
    requires id in w.jobs && w.jobs[id].run.Some? && w.jobs[id].started.Some?
  {
    var j := w.jobs[id];
    w.(attempts := w.attempts
         + [Attempt(id, j.attempts, j.run.value, j.started.value, finished, outcome, error)])
  }

  predicate Recorded(w: Ledger, id: Id, ordinal: nat) {
    exists i :: 0 <= i < |w.attempts| && w.attempts[i].job == id && w.attempts[i].ordinal == ordinal
  }

  /* ---- Enqueue ---- */

  /** The rows one semantic identity may coalesce with. */
  function Matching(w: Ledger, kind: Kind, dedupe: Digest, states: set<State>): set<Id> {
    set id | id in w.jobs && w.jobs[id].kind == kind && w.jobs[id].dedupe == Some(dedupe)
             && w.jobs[id].state in states
  }

  function Enqueue(reg: Registry, w: Ledger, kind: Kind, payload: Json, key: string, now: nat, newId: Id): Step<Id> {
    if kind !in reg || !reg[kind].validPayload(payload) then Refuse(w, Validation) else
    var c := reg[kind];
    var derived := c.deriveKey(payload);
    if derived.None? || !ValidKey(derived.value) || derived.value != key then Refuse(w, Validation) else
    var dedupe := Sha256(kind, key);
    var rows := Ascending(Matching(w, kind, dedupe, c.coalesce));
    if |rows| > 1 then Refuse(w, Corrupt(MultipleMatches))
    else if |rows| == 1 then
      var j := w.jobs[rows[0]];
      if !c.validPayload(j.payload) then Refuse(w, Corrupt(PayloadInvalid))
      else if c.deriveKey(j.payload) != Some(key) then Refuse(w, Corrupt(KeyDisagreement))
      else Step(w, Ok(rows[0]))
    else if newId in w.jobs then Refuse(w, Corrupt(EnqueueViolated))
    else
      var j := Job(kind, Queued, now, now, 0, None, None, None, payload, None, None, Some(dedupe));
      Step(WithRow(w, newId, j), Ok(newId))
  }

  /* ---- Claim ---- */

  predicate Due(j: Job, now: nat) {
    j.state == Queued || (j.state == RetryWait && j.retryAt.Some? && j.retryAt.value <= now)
  }

  /** `ORDER BY (retry time is set), retry time, created, id`. */
  predicate Precedes(a: Id, x: Job, b: Id, y: Job) {
    if x.retryAt.None? != y.retryAt.None? then x.retryAt.None?
    else if x.retryAt.Some? && x.retryAt != y.retryAt then x.retryAt.value < y.retryAt.value
    else if x.created != y.created then x.created < y.created
    else a < b
  }

  /** The first due row among `ids` in that order. */
  function FirstDue(jobs: map<Id, Job>, ids: seq<Id>, now: nat): (next: Option<Id>)
    requires forall id :: id in ids ==> id in jobs
    ensures next.Some? ==> next.value in jobs
  {
    if ids == [] then None else
    var rest := FirstDue(jobs, ids[1..], now);
    if !Due(jobs[ids[0]], now) then rest
    else if rest.None? then Some(ids[0])
    else if Precedes(rest.value, jobs[rest.value], ids[0], jobs[ids[0]]) then rest
    else Some(ids[0])
  }

  function NextDue(jobs: map<Id, Job>, now: nat): (next: Option<Id>)
    ensures next.Some? ==> next.value in jobs
  {
    FirstDue(jobs, Ascending(jobs.Keys), now)
  }

  /** Why a persisted row does not reproduce its own dedupe identity, if it does not. */
  function IdentityFault(c: Contract, j: Job): Option<Integrity> {
    if j.dedupe.None? then Some(MissingDedupe)
    else if !c.validPayload(j.payload) then Some(PayloadInvalid)
    else
      var key := c.deriveKey(j.payload);
      if key.None? || !ValidKey(key.value) || j.dedupe != Some(Sha256(j.kind, key.value)) then Some(KeyDisagreement)
      else None
  }

  predicate CheckpointValid(c: Contract, checkpoint: Option<Json>) {
    checkpoint.Some? ==> c.validCheckpoint(checkpoint.value)
  }

  /** Claim the selected due row, or fail it when no contract can run it. */
  function ClaimRow(reg: Registry, w: Ledger, id: Id, run: Id, now: nat): Step<Option<Claim>>
    requires id in w.jobs
  {
    var j := w.jobs[id];
    if j.state == Queued && j.retryAt.Some? then Refuse(w, Corrupt(QueuedWithRetry))
    else if j.state == RetryWait && (j.retryAt.None? || j.retryAt.value > now) then Refuse(w, Corrupt(SelectedEarly))
    else if now < j.created || now < j.updated then Refuse(w, Corrupt(ClockRegressed))
    else if j.kind !in reg then
      Step(Leave(w, id, Failed, None, Some(UNAVAILABLE_CODE), Max(j.updated, now)), Ok(None))
    else
      var fault := IdentityFault(reg[j.kind], j);
      if fault.Some? then Refuse(w, Corrupt(fault.value))
      else if !CheckpointValid(reg[j.kind], j.checkpoint) then Refuse(w, Corrupt(CheckpointInvalid))
      else if j.run.Some? || j.started.Some? then Refuse(w, Corrupt(LostRevalidation))
      else
        var claim := Claim(id, j.kind, run, j.attempts + 1, now, j.dedupe.value, j.payload, j.checkpoint);
        Step(Start(w, id, now, claim), Ok(Some(claim)))
  }

  function ClaimNext(reg: Registry, w: Ledger, run: Id, now: nat): Step<Option<Claim>> {
    var next := NextDue(w.jobs, now);
    if next.None? then Step(w, Ok(None)) else ClaimRow(reg, w, next.value, run, now)
  }

  /* ---- Holding a claim ---- */

  /** The row still carries exactly this claim. */
  predicate Matches(w: Ledger, c: Claim) {
    && c.job in w.jobs
    && var j := w.jobs[c.job];
    && j.kind == c.kind && j.state == Running
    && j.run == Some(c.run) && j.attempts == c.ordinal && j.started == Some(c.started)
  }

  /** Exact claim revalidation; `None` when the claim still holds. */
  function ClaimFault(reg: Registry, w: Ledger, c: Claim): Option<Error> {
    if c.ordinal < 1 || c.kind !in reg then Some(Validation)
    else if !Matches(w, c) then Some(ClaimConflict)
    else
      var j := w.jobs[c.job];
      if j.dedupe.None? then Some(Corrupt(MissingDedupe))
      else if j.dedupe != Some(c.dedupe) || j.payload != c.payload then Some(Corrupt(IdentityChanged))
      else
        var fault := IdentityFault(reg[c.kind], j);
        if fault.Some? then Some(Corrupt(fault.value))
        else if !CheckpointValid(reg[c.kind], j.checkpoint) then Some(Corrupt(CheckpointInvalid))
        else None
  }

  /** Revalidation together with the clock check that every claim holder's write makes. */
  function HolderFault(reg: Registry, w: Ledger, c: Claim, now: nat): Option<Error> {
    var fault := ClaimFault(reg, w, c);
    if fault.Some? then fault
    else if c.job in w.jobs && (now < w.jobs[c.job].updated || now < c.started) then Some(Corrupt(ClockRegressed))
    else None
  }

  function Checkpoint(reg: Registry, w: Ledger, c: Claim, value: Json, now: nat): Step<()> {
    var fault := HolderFault(reg, w, c, now);
    if fault.Some? then Refuse(w, fault.value)
    else if !reg[c.kind].validCheckpoint(value) then Refuse(w, Validation)
    else Step(WithRow(w, c.job, w.jobs[c.job].(checkpoint := Some(value), updated := now)), Ok(()))
  }

  /** End the running attempt of `id` now: refused when its ordinal is already in the history. */
  function EndAttempt(w: Ledger, id: Id, now: nat, outcome: Outcome, error: Option<string>): Step<()> {
    if id !in w.jobs || w.jobs[id].attempts < 1 || w.jobs[id].run.None? || w.jobs[id].started.None? then
      Refuse(w, Corrupt(IncompleteClaim))
    else if Recorded(w, id, w.jobs[id].attempts) then Refuse(w, Corrupt(OrdinalRecorded))
    else if now < w.jobs[id].started.value then Refuse(w, Corrupt(FinishBeforeStart))
    else Step(Record(w, id, now, outcome, error), Ok(()))
  }

  function Complete(reg: Registry, w: Ledger, c: Claim, now: nat): Step<()> {
    var fault := HolderFault(reg, w, c, now);
    if fault.Some? then Refuse(w, fault.value) else
    var ended := EndAttempt(w, c.job, now, DidComplete, None);
    if ended.result.Err? then ended
    else Step(Leave(ended.after, c.job, Completed, None, None, now), Ok(()))
  }

  function Fail(reg: Registry, w: Ledger, c: Claim, code: string, retryAt: Option<nat>, now: nat): Step<()> {
    var fault := HolderFault(reg, w, c, now);
    if fault.Some? then Refuse(w, fault.value)
    else if !ValidErrorCode(code) || (retryAt.Some? && retryAt.value < now) then Refuse(w, Validation)
    else if !reg[c.kind].validFailure(code, c.ordinal, now, retryAt) then Refuse(w, Validation)
    else
      var ended := EndAttempt(w, c.job, now, DidFail, Some(code));
      if ended.result.Err? then ended
      else
        var state := if retryAt.Some? then RetryWait else Failed;
        Step(Leave(ended.after, c.job, state, retryAt, Some(code), now), Ok(()))
  }

  /* ---- Cancellation ---- */

  datatype Cancellation =
    | AlreadyCancelled
    | TerminalUnchanged(state: State)
    | CancelledFrom(state: State, revokedOrdinal: Option<nat>)

  function Cancel(reg: Registry, w: Ledger, id: Id, kind: Kind, context: Json, now: nat): Step<Cancellation> {
    if kind !in reg || id !in w.jobs then Refuse(w, Validation) else
    var j := w.jobs[id];
    if j.kind != kind then Refuse(w, Corrupt(WrongKind))
    else if j.state == Cancelled then Step(w, Ok(AlreadyCancelled))
    else if j.state !in NONTERMINAL then Step(w, Ok(TerminalUnchanged(j.state)))
    else if !reg[kind].validCancellation(context, j.state) then Refuse(w, Validation)
    else if now < j.created || now < j.updated then Refuse(w, Corrupt(ClockRegressed))
    else if j.state != Running then
      Step(Leave(w, id, Cancelled, None, j.lastError, now), Ok(CancelledFrom(j.state, None)))
    else
      var ended := EndAttempt(w, id, now, WasCancelled, None);
      if ended.result.Err? then Refuse(w, ended.result.error)
      else Step(Leave(ended.after, id, Cancelled, None, j.lastError, now),
                Ok(CancelledFrom(Running, Some(j.attempts))))
  }

  /* ---- Crash recovery and restore, one row at a time ---- */

  /** Record an interruption unless exactly that interruption is already recorded; says whether it inserted. */
  function Interrupt(w: Ledger, id: Id, at: nat, code: string): Step<bool> {
    if id !in w.jobs || w.jobs[id].attempts < 1 || w.jobs[id].run.None? || w.jobs[id].started.None? then
      Refuse(w, Corrupt(IncompleteClaim))
    else
      var j := w.jobs[id];
      if !Recorded(w, id, j.attempts) then
        Step(Record(w, id, Max(at, j.started.value), Interrupted, Some(code)), Ok(true))
      else if forall i :: 0 <= i < |w.attempts| && w.attempts[i].job == id && w.attempts[i].ordinal == j.attempts ==>
                var a := w.attempts[i];
                Some(a.run) == j.run && Some(a.started) == j.started && a.outcome == Interrupted
                && a.error == Some(code)
      then Step(w, Ok(false))
      else Refuse(w, Corrupt(ConflictingHistory))
  }

  datatype Verdict = Skipped | Settled(state: State, interrupted: bool)

  const LEGACY_CODE := "LEGACY_JOB_DEDUPE_UNAVAILABLE"
  const INTERRUPTED_CODE := "JOB_INTERRUPTED"
  const UNAVAILABLE_CODE := "JOB_CONTRACT_UNAVAILABLE"
  const RESTORE_CODE := "RESTORE_SNAPSHOT_JOB_INVALIDATED"

  /** Interrupt the row when it is running, then leave for `state`. */
  function Settle(w: Ledger, id: Id, finished: nat, code: string, state: State, retryAt: Option<nat>,
                  error: string, at: nat): Step<Verdict>
    requires id in w.jobs
  {
    if w.jobs[id].state != Running then
      Step(Leave(w, id, state, retryAt, Some(error), at), Ok(Settled(state, false)))
    else
      var cut := Interrupt(w, id, finished, code);
      if cut.result.Err? then Refuse(w, cut.result.error)
      else Step(Leave(cut.after, id, state, retryAt, Some(error), at), Ok(Settled(state, cut.result.value)))
  }

  /** A job from before dedupe identities existed cannot continue: it fails. */
  function RecoverLegacy(w: Ledger, id: Id, now: nat): Step<Verdict> {
    if id !in w.jobs || w.jobs[id].dedupe.Some? || w.jobs[id].state !in NONTERMINAL then Step(w, Ok(Skipped))
    else Settle(w, id, now, LEGACY_CODE, Failed, None, LEGACY_CODE, Max(w.jobs[id].updated, now))
  }

  function DispositionFault(d: Disposition, now: nat): Option<Error> {
    if d.state !in RECOVERY_STATES then Some(Corrupt(InvalidDisposition))
    else if d.state == RetryWait && (d.retryAt.None? || d.retryAt.value < now) then Some(Corrupt(InvalidDisposition))
    else if d.state != RetryWait && d.retryAt.Some? then Some(Corrupt(InvalidDisposition))
    else if d.error.Some? && d.error.value != "" && !ValidErrorCode(d.error.value) then Some(Validation)
    else None
  }

  /** Where a crashed row goes: failed without a contract, else as its registered crash policy decides. */
  function CrashDecision(reg: Registry, j: Job, now: nat): Result<Disposition, Error> {
    if j.kind !in reg then Ok(Disposition(Failed, None, Some(UNAVAILABLE_CODE))) else
    var c := reg[j.kind];
    var fault := IdentityFault(c, j);
    if fault.Some? then Err(Corrupt(fault.value))
    else if !CheckpointValid(c, j.checkpoint) then Err(Corrupt(CheckpointInvalid))
    else
      var d := c.recoverStale(j.payload, j.checkpoint, j.attempts, now);
      if d.None? then Err(Corrupt(CrashPolicyFailed)) else
      var wrong := DispositionFault(d.value, now);
      if wrong.Some? then Err(wrong.value)
      else if d.value.error.Some? && d.value.error.value != "" then Ok(d.value)
      else Ok(d.value.(error := Some(INTERRUPTED_CODE)))
  }

  /** A row claimed by another run is interrupted and leaves for the decided state. */
  function RecoverStale(reg: Registry, w: Ledger, id: Id, current: Id, now: nat): Step<Verdict> {
    if id !in w.jobs || w.jobs[id].state != Running || w.jobs[id].run.None? || w.jobs[id].run == Some(current) then
      Step(w, Ok(Skipped))
    else
      var cut := Interrupt(w, id, now, INTERRUPTED_CODE);
      if cut.result.Err? then Refuse(w, cut.result.error) else
      var d := CrashDecision(reg, w.jobs[id], now);
      if d.Err? then Refuse(w, d.error)
      else
        var code := if d.value.error.Some? then d.value.error.value else INTERRUPTED_CODE;
        Settle(w, id, now, INTERRUPTED_CODE, d.value.state, d.value.retryAt, code, Max(w.jobs[id].updated, now))
  }

  /** A job found in a restored snapshot is invalidated. */
  function SettleRestored(w: Ledger, id: Id, now: nat): Step<Verdict> {
    if id !in w.jobs || w.jobs[id].state !in NONTERMINAL then Refuse(w, Corrupt(LostRevalidation))
    else
      var at := Max(w.jobs[id].updated, now);
      Settle(w, id, at, RESTORE_CODE, Cancelled, None, RESTORE_CODE, at)
  }

  function Nonterminal(w: Ledger): (ids: set<Id>)
    ensures ids <= w.jobs.Keys
  {
    set id | id in w.jobs && w.jobs[id].state in NONTERMINAL
  }

  /** The restore loop over the remaining rows, counting the attempts it interrupted. */
  function SettleAll(w: Ledger, ids: seq<Id>, now: nat): Step<nat>
    decreases |ids|
  {
    if ids == [] then Step(w, Ok(0)) else
    var first := SettleRestored(w, ids[0], now);
    if first.result.Err? then Refuse(w, first.result.error) else
    var rest := SettleAll(first.after, ids[1..], now);
    if rest.result.Err? then Refuse(w, rest.result.error)
    else Step(rest.after, Ok(rest.result.value
                             + (if first.result.value.Settled? && first.result.value.interrupted then 1 else 0)))
  }

  datatype Reconciliation = Reconciliation(examined: nat, cancelled: nat, interrupted: nat, untouched: int)

  function TerminalCount(w: Ledger): nat {
    |set id | id in w.jobs && w.jobs[id].state !in NONTERMINAL|
  }

  function RestoreRows(w: Ledger, ids: seq<Id>, now: nat): Step<Reconciliation> {
    var s := SettleAll(w, ids, now);
    if s.result.Err? then Refuse(w, s.result.error)
    else Step(s.after, Ok(Reconciliation(|ids|, |ids|, s.result.value, TerminalCount(s.after) - |ids|)))
  }

  function Restore(w: Ledger, now: nat): Step<Reconciliation> {
    RestoreRows(w, Ascending(Nonterminal(w)), now)
  }

  /* ---- Runs ---- */

  datatype Op =
    | DoEnqueue(kind: Kind, payload: Json, key: string, now: nat, newId: Id)
    | DoClaim(run: Id, now: nat)
    | DoCheckpoint(claim: Claim, value: Json, now: nat)
    | DoComplete(claim: Claim, now: nat)
    | DoFail(claim: Claim, code: string, retryAt: Option<nat>, now: nat)
    | DoCancel(job: Id, kind: Kind, context: Json, now: nat)
    | DoRecoverLegacy(job: Id, now: nat)
    | DoRecoverStale(job: Id, current: Id, now: nat)
    | DoRestore(now: nat)

  function ErrorOf<T>(s: Step<T>): Option<Error> {
    if s.result.Err? then Some(s.result.error) else None
  }

  /** One serialised step: the ledger after it and the error it reported, if any. */
  function Apply(reg: Registry, w: Ledger, op: Op): (Ledger, Option<Error>) {
    match op
    case DoEnqueue(kind, payload, key, now, newId) =>
      var s := Enqueue(reg, w, kind, payload, key, now, newId); (s.after, ErrorOf(s))
    case DoClaim(run, now) => var s := ClaimNext(reg, w, run, now); (s.after, ErrorOf(s))
    case DoCheckpoint(c, value, now) => var s := Checkpoint(reg, w, c, value, now); (s.after, ErrorOf(s))
    case DoComplete(c, now) => var s := Complete(reg, w, c, now); (s.after, ErrorOf(s))
    case DoFail(c, code, retryAt, now) => var s := Fail(reg, w, c, code, retryAt, now); (s.after, ErrorOf(s))
    case DoCancel(id, kind, context, now) => var s := Cancel(reg, w, id, kind, context, now); (s.after, ErrorOf(s))
    case DoRecoverLegacy(id, now) => var s := RecoverLegacy(w, id, now); (s.after, ErrorOf(s))
    case DoRecoverStale(id, current, now) => var s := RecoverStale(reg, w, id, current, now); (s.after, ErrorOf(s))
    case DoRestore(now) => var s := Restore(w, now); (s.after, ErrorOf(s))
  }

  /** A step together with the registry of the process that takes it. */
  datatype Event = Event(reg: Registry, op: Op)

  /** Any interleaving of coordinators, as the sequence their serialised units of work took. */
  function Run(w: Ledger, events: seq<Event>): Ledger
    decreases |events|
  {
    if events == [] then w
    else Run(Apply(events[0].reg, w, events[0].op).0, events[1..])
  }
}
