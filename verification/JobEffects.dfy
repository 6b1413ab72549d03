/** What each coordinator operation does to the database, exactly, and exactly when it does it. */
module JobEffects {
  import opened Prelude
  import opened JobTypes
  import opened JobSteps
  import opened JobHistory
  import opened JobRecovery

  /** The row of `id` has left its claim for the given state; its identity, payload, checkpoint and attempts stay. */
  predicate Became(j: Job, k: Job, state: State, retryAt: Option<nat>, error: Option<string>, at: nat) {
    && k.state == state && k.retryAt == retryAt && k.lastError == error && k.updated == at
    && k.run.None? && k.started.None?
    && k.kind == j.kind && k.payload == j.payload && k.dedupe == j.dedupe && k.created == j.created
    && k.checkpoint == j.checkpoint && k.attempts == j.attempts
  }

  ghost predicate OnlyRow(w: Ledger, v: Ledger, id: Id) {
    id in v.jobs && v.jobs.Keys == w.jobs.Keys + {id} && forall i :: i in w.jobs && i != id ==> v.jobs[i] == w.jobs[i]
  }

  /** One row left its state, and the given attempts were recorded. */
  ghost predicate Left(w: Ledger, v: Ledger, id: Id, state: State, retryAt: Option<nat>, error: Option<string>, at: nat,
                       recorded: seq<Attempt>) {
    && id in w.jobs && OnlyRow(w, v, id) && Became(w.jobs[id], v.jobs[id], state, retryAt, error, at)
    && v.attempts == w.attempts + recorded && v.issued == w.issued
  }

  /** The attempt a running row is in, ended. */
  function EndOf(id: Id, j: Job, finished: nat, outcome: Outcome, error: Option<string>): seq<Attempt> {
    if j.state == Running && j.run.Some? && j.started.Some?
    then [Attempt(id, j.attempts, j.run.value, j.started.value, finished, outcome, error)]
    else []
  }

  /* ---- Holding a claim ---- */

  /** The payload yields the dedupe identity the row carries. */
  predicate Identified(c: Contract, j: Job) {
    && j.dedupe.Some? && c.validPayload(j.payload)
    && var key := c.deriveKey(j.payload);
    && key.Some? && ValidKey(key.value) && j.dedupe.value == Sha256(j.kind, key.value)
  }

  /** The holder of a claim may act on it: the row still carries exactly the claim, reads back, and time has not gone back. */
  predicate MayAct(reg: Registry, w: Ledger, c: Claim, now: nat) {
    && c.ordinal >= 1 && c.kind in reg && c.job in w.jobs
    && var j := w.jobs[c.job];
    && j.state == Running && j.kind == c.kind && j.run == Some(c.run) && j.started == Some(c.started)
    && j.attempts == c.ordinal && j.dedupe == Some(c.dedupe) && j.payload == c.payload
    && Identified(reg[c.kind], j)
    && (j.checkpoint.Some? ==> reg[c.kind].validCheckpoint(j.checkpoint.value))
    && j.updated <= now && c.started <= now
  }

  lemma IdentifiedIff(c: Contract, j: Job)
    ensures Identified(c, j) <==> IdentityFault(c, j).None?
  {
    hide ValidKey;
  }

  lemma MayActIff(reg: Registry, w: Ledger, c: Claim, now: nat)
    ensures MayAct(reg, w, c, now) <==> HolderFault(reg, w, c, now).None?
  {
    hide IdentityFault, Identified;
    if c.kind in reg && c.job in w.jobs { IdentifiedIff(reg[c.kind], w.jobs[c.job]); }
  }

  /** A checkpoint stores the given value and its time in the holder's row, and nothing else. */
  lemma CheckpointDoes(reg: Registry, w: Ledger, c: Claim, value: Json, now: nat)
    ensures var s := Checkpoint(reg, w, c, value, now);
            && (s.result.Ok? <==> MayAct(reg, w, c, now) && reg[c.kind].validCheckpoint(value))
            && (s.result.Err? ==> s.after == w)
            && (s.result.Ok? ==>
                  && OnlyRow(w, s.after, c.job) && s.after.attempts == w.attempts && s.after.issued == w.issued
                  && var j, k := w.jobs[c.job], s.after.jobs[c.job];
                  && k.checkpoint == Some(value) && k.updated == now && k.state == Running && k.run == Some(c.run)
                  && k.started == Some(c.started) && k.attempts == c.ordinal && k.payload == j.payload
                  && k.dedupe == j.dedupe && k.kind == j.kind && k.created == j.created && k.retryAt == j.retryAt
                  && k.lastError == j.lastError)
  {
    hide HolderFault, MayAct;
    MayActIff(reg, w, c, now);
    if MayAct(reg, w, c, now) { ActsOnRow(reg, w, c, now); }
  }

  lemma ActsOnRow(reg: Registry, w: Ledger, c: Claim, now: nat)
    requires MayAct(reg, w, c, now)
    ensures c.job in w.jobs && c.kind in reg
    ensures var j := w.jobs[c.job];
            && j.state == Running && j.run == Some(c.run) && j.started == Some(c.started) && j.attempts == c.ordinal
            && c.ordinal >= 1 && c.started <= now && j.updated <= now
  {
    hide Identified;
  }

  lemma NotRecorded(w: Ledger, id: Id)
    requires Inv(w) && id in w.jobs && w.jobs[id].state == Running
    ensures !Recorded(w, id, w.jobs[id].attempts)
  {
    RunningInterruptible(w, id, 0, "");
  }

  /** A completion that answers Ok leaves the job completed and the attempt recorded as completed now. */
  lemma CompleteDoes(reg: Registry, w: Ledger, c: Claim, now: nat)
    requires Inv(w)
    ensures var s := Complete(reg, w, c, now);
            && (s.result.Ok? <==> MayAct(reg, w, c, now)) && (s.result.Err? ==> s.after == w)
            && (s.result.Ok? ==> Left(w, s.after, c.job, Completed, None, None, now,
                                      [Attempt(c.job, c.ordinal, c.run, c.started, now, DidComplete, None)]))
  {
    hide HolderFault, MayAct, Inv, Recorded;
    MayActIff(reg, w, c, now);
    if MayAct(reg, w, c, now) {
      ActsOnRow(reg, w, c, now);
      NotRecorded(w, c.job);
    }
  }

  /** A failure that answers Ok leaves the job waiting for its retry time, or failed; with the code, recorded now. */
  lemma FailDoes(reg: Registry, w: Ledger, c: Claim, code: string, retryAt: Option<nat>, now: nat)
    requires Inv(w)
    ensures var s := Fail(reg, w, c, code, retryAt, now);
            && (s.result.Ok? <==>
                  && MayAct(reg, w, c, now) && CodeShaped(code) && (retryAt.Some? ==> now <= retryAt.value)
                  && reg[c.kind].validFailure(code, c.ordinal, now, retryAt))
            && (s.result.Err? ==> s.after == w)
            && (s.result.Ok? ==> Left(w, s.after, c.job, if retryAt.Some? then RetryWait else Failed, retryAt, Some(code), now,
                                      [Attempt(c.job, c.ordinal, c.run, c.started, now, DidFail, Some(code))]))
  {
    hide HolderFault, MayAct, Inv, Recorded, ValidErrorCode, CodeShaped;
    CodeShapedIff(code);
    MayActIff(reg, w, c, now);
    if MayAct(reg, w, c, now) {
      ActsOnRow(reg, w, c, now);
      NotRecorded(w, c.job);
    }
  }

  /** Cancellation leaves a live job cancelled with its last error, ending a running attempt; a settled one stays. */
  lemma CancelDoes(reg: Registry, w: Ledger, id: Id, kind: Kind, context: Json, now: nat)
    requires Inv(w)
    ensures var s := Cancel(reg, w, id, kind, context, now);
            && (s.result.Ok? <==>
                  && kind in reg && id in w.jobs && w.jobs[id].kind == kind
                  && (w.jobs[id].state in NONTERMINAL ==>
                        reg[kind].validCancellation(context, w.jobs[id].state) && w.jobs[id].updated <= now))
            && (s.result.Err? ==> s.after == w)
            && (s.result.Ok? && w.jobs[id].state !in NONTERMINAL ==>
                  && s.after == w
                  && s.result.value == if w.jobs[id].state == Cancelled then AlreadyCancelled
                                       else TerminalUnchanged(w.jobs[id].state))
            && (s.result.Ok? && w.jobs[id].state in NONTERMINAL ==>
                  && Left(w, s.after, id, Cancelled, None, w.jobs[id].lastError, now,
                          EndOf(id, w.jobs[id], now, WasCancelled, None))
                  && s.result.value == CancelledFrom(w.jobs[id].state,
                                                     if w.jobs[id].state == Running then Some(w.jobs[id].attempts) else None))
  {
    hide Recorded, IssuedOk, AttemptsOk, HistoryComplete;
    if id in w.jobs {
      assert RowOk(w.jobs[id]);
      if w.jobs[id].state == Running { NotRecorded(w, id); }
    }
  }

  /* ---- Enqueue and claim ---- */

  /** An enqueue names a coalescible job of the same identity and changes nothing, or inserts exactly one queued job. */
  lemma EnqueueDoes(reg: Registry, w: Ledger, kind: Kind, payload: Json, key: string, now: nat, newId: Id)
    ensures var s := Enqueue(reg, w, kind, payload, key, now, newId);
            && (s.result.Ok? ==>
                  && kind in reg && reg[kind].validPayload(payload) && reg[kind].deriveKey(payload) == Some(key) && ValidKey(key)
                  && var id := s.result.value;
                  && (id in w.jobs ==> s.after == w && id in Matching(w, kind, Sha256(kind, key), reg[kind].coalesce))
                  && (id !in w.jobs ==>
                        && id == newId && OnlyRow(w, s.after, id) && s.after.attempts == w.attempts
                        && s.after.issued == w.issued && Matching(w, kind, Sha256(kind, key), reg[kind].coalesce) == {}
                        && var k := s.after.jobs[id];
                        && k.kind == kind && k.payload == payload && k.dedupe == Some(Sha256(kind, key)) && k.state == Queued
                        && k.created == now && k.updated == now && k.attempts == 0 && k.run.None? && k.started.None?
                        && k.retryAt.None? && k.checkpoint.None? && k.lastError.None?))
            && (s.result.Err? ==> s.after == w)
            && (s.result == Err(Validation)
                <==> kind !in reg || !reg[kind].validPayload(payload) || reg[kind].deriveKey(payload) != Some(key)
                     || !ValidKey(key))
  {
    hide ValidKey, Ascending;
    if kind in reg {
      var rows := Matching(w, kind, Sha256(kind, key), reg[kind].coalesce);
      assert |Ascending(rows)| == |rows|;
      assert |rows| == 1 ==> Ascending(rows)[0] in Ascending(rows);
    }
  }

  /** A claim hands out the row's own work, and the row runs exactly under it; a job no contract can run fails. */
  lemma ClaimDoes(reg: Registry, w: Ledger, run: Id, now: nat)
    ensures var s := ClaimNext(reg, w, run, now);
            && (s.result.Err? ==> s.after == w)
            && (s.result.Ok? && NextDue(w.jobs, now).None? ==> s.after == w && s.result.value.None?)
            && (s.result.Ok? && NextDue(w.jobs, now).Some? ==>
                  var id := NextDue(w.jobs, now).value;
                  var j := w.jobs[id];
                  if j.kind in reg then
                    && s.result.value.Some?
                    && Handed(s.result.value.value, id, j, run, now) && Runs(w, s.after, s.result.value.value)
                  else
                    && s.result.value.None? && Left(w, s.after, id, Failed, None, Some("JOB_CONTRACT_UNAVAILABLE"), now, []))
  {
    hide NextDue, IdentityFault, CheckpointValid;
    FaultlessIdentified(reg);
  }

  /** The due row is claimed, or failed without a contract, exactly unless it does not read back or time has gone back. */
  lemma ClaimsIff(reg: Registry, w: Ledger, run: Id, now: nat)
    requires Inv(w) && NextDue(w.jobs, now).Some?
    ensures var j := w.jobs[NextDue(w.jobs, now).value];
            ClaimNext(reg, w, run, now).result.Ok?
            <==> j.updated <= now
                 && (j.kind in reg ==> Identified(reg[j.kind], j) && CheckpointValid(reg[j.kind], j.checkpoint))
  {
    hide NextDue, IdentityFault, Identified, CheckpointValid, IssuedOk, AttemptsOk, HistoryComplete;
    NextDueIsFirst(w.jobs, now);
    var j := w.jobs[NextDue(w.jobs, now).value];
    assert RowOk(j);
    if j.kind in reg { IdentifiedIff(reg[j.kind], j); }
  }

  lemma FaultlessIdentified(reg: Registry)
    ensures forall j: Job :: j.kind in reg && IdentityFault(reg[j.kind], j).None? ==> j.dedupe.Some?
  {
    hide ValidKey;
  }

  /** Work without a retry time goes first, then the earlier retry time, the earlier creation, the smaller identity. */
  lemma NextDueOrder(jobs: map<Id, Job>, now: nat, other: Id)
    requires NextDue(jobs, now).Some? && other in jobs && other != NextDue(jobs, now).value
    requires jobs[other].state == Queued
             || (jobs[other].state == RetryWait && jobs[other].retryAt.Some? && jobs[other].retryAt.value <= now)
    ensures var id := NextDue(jobs, now).value;
            var j, k := jobs[id], jobs[other];
            && (j.retryAt.Some? ==> k.retryAt.Some? && j.retryAt.value <= k.retryAt.value)
            && (j.retryAt == k.retryAt ==> j.created <= k.created)
            && (j.retryAt == k.retryAt && j.created == k.created ==> id < other)
  {
    hide NextDue;
    NextDueIsFirst(jobs, now);
  }

  /** Capital letters, digits and underscores, a letter first, at most 64. */
  predicate CodeShaped(code: string) {
    && 0 < |code| < 65 && 'A' <= code[0] <= 'Z'
    && forall c :: c in code ==> 'A' <= c <= 'Z' || '0' <= c <= '9' || c == '_'
  }

  lemma CodeShapedIff(code: string)
    ensures ValidErrorCode(code) <==> CodeShaped(code)
  {
    if CodeShaped(code) {
      forall i | 1 <= i < |code|
        ensures CodeTail(code[i])
      {
        assert code[i] in code;
      }
    }
  }

  /** A contract is registered only with a type name, a version, and a coalesce set of all live states and maybe completed. */
  lemma ContractValidIff(c: Contract)
    ensures ValidContract(c) <==>
              && 0 < |c.kind.0| && Utf8Length(c.kind.0) <= 256 && c.kind.1 > 0
              && (c.coalesce == {Queued, Running, WaitingReview, RetryWait}
                  || c.coalesce == {Queued, Running, WaitingReview, RetryWait, Completed})
  {
    if ValidContract(c) {
      assert Completed !in c.coalesce ==> c.coalesce == NONTERMINAL;
      assert Completed in c.coalesce ==> c.coalesce == COALESCIBLE;
    }
  }

  predicate Handed(c: Claim, id: Id, j: Job, run: Id, now: nat) {
    && c.job == id && c.kind == j.kind && c.run == run && c.ordinal == j.attempts + 1 && c.started == now
    && Some(c.dedupe) == j.dedupe && c.payload == j.payload && c.checkpoint == j.checkpoint
  }

  ghost predicate Runs(w: Ledger, v: Ledger, c: Claim) {
    && c.job in w.jobs && OnlyRow(w, v, c.job) && v.attempts == w.attempts && v.issued == w.issued[(c.job, c.ordinal) := c]
    && var j, k := w.jobs[c.job], v.jobs[c.job];
    && k.state == Running && k.run == Some(c.run) && k.started == Some(c.started) && k.attempts == c.ordinal
    && k.retryAt.None? && k.updated == c.started && k.kind == j.kind && k.payload == j.payload && k.dedupe == j.dedupe
    && k.checkpoint == j.checkpoint && k.created == j.created && k.lastError == j.lastError
  }

  /* ---- Recovery and restore ---- */

  /** Recovering a live legacy row fails it, with its running attempt recorded as interrupted. */
  lemma RecoverLegacyDoes(w: Ledger, id: Id, now: nat)
    requires Inv(w)
    ensures var s := RecoverLegacy(w, id, now);
            if id in w.jobs && w.jobs[id].dedupe.None? && w.jobs[id].state in NONTERMINAL then
              var j := w.jobs[id];
              && s.result == Ok(Settled(Failed, j.state == Running))
              && Left(w, s.after, id, Failed, None, Some("LEGACY_JOB_DEDUPE_UNAVAILABLE"), Max(j.updated, now),
                      Cut(id, j, now, "LEGACY_JOB_DEDUPE_UNAVAILABLE"))
            else s == Step(w, Ok(Skipped))
  {
    hide Inv, Recorded;
    if id in w.jobs && w.jobs[id].state == Running { RunningInterruptible(w, id, now, LEGACY_CODE); }
  }

  /** The interruption of a running row; it never finishes before it started. */
  function Cut(id: Id, j: Job, at: nat, code: string): seq<Attempt> {
    EndOf(id, j, if j.started.Some? then Max(at, j.started.value) else at, Interrupted, Some(code))
  }

  /** A row of another run is interrupted and goes where its contract's crash policy says, or fails without a contract. */
  lemma RecoverStaleDoes(reg: Registry, w: Ledger, id: Id, current: Id, now: nat)
    requires Inv(w)
    ensures var s := RecoverStale(reg, w, id, current, now);
            && (s.result.Err? ==> s.after == w)
            && (if id in w.jobs && w.jobs[id].state == Running && w.jobs[id].run != Some(current) then
                  var j := w.jobs[id];
                  s.result.Ok? ==>
                    exists state, retryAt, code ::
                      && s.result == Ok(Settled(state, true)) && Decided(reg, j, now, state, retryAt, code)
                      && Left(w, s.after, id, state, retryAt, Some(code), Max(j.updated, now),
                              Cut(id, j, now, "JOB_INTERRUPTED"))
                else s == Step(w, Ok(Skipped)))
  {
    hide Inv, Recorded, CrashDecision, Decided;
    if id in w.jobs && w.jobs[id].state == Running && w.jobs[id].run != Some(current) {
      var j := w.jobs[id];
      RunningInterruptible(w, id, now, INTERRUPTED_CODE);
      var d := CrashDecision(reg, j, now);
      if d.Ok? {
        DecisionMeans(reg, j, now);
        assert d.value.error.Some?;
        assert Decided(reg, j, now, d.value.state, d.value.retryAt, d.value.error.value);
      }
    }
  }

  /** The crash policy asked for exactly this, and it is admissible. */
  predicate Decided(reg: Registry, j: Job, now: nat, state: State, retryAt: Option<nat>, code: string) {
    if j.kind !in reg then state == Failed && retryAt.None? && code == "JOB_CONTRACT_UNAVAILABLE"
    else
      && Identified(reg[j.kind], j)
      && var d := reg[j.kind].recoverStale(j.payload, j.checkpoint, j.attempts, now);
      && d.Some? && d.value.state == state && d.value.retryAt == retryAt
      && state in {Queued, RetryWait, WaitingReview, Failed} && (state == RetryWait <==> retryAt.Some?)
      && (retryAt.Some? ==> now <= retryAt.value)
      && code == (if d.value.error.None? || d.value.error.value == "" then "JOB_INTERRUPTED" else d.value.error.value)
      && ValidErrorCode(code)
  }

  lemma DecisionMeans(reg: Registry, j: Job, now: nat)
    requires CrashDecision(reg, j, now).Ok?
    ensures var d := CrashDecision(reg, j, now).value;
            d.error.Some? && Decided(reg, j, now, d.state, d.retryAt, d.error.value)
  {
    hide IdentityFault, Identified;
    if j.kind in reg { IdentifiedIff(reg[j.kind], j); }
    assert ValidErrorCode("JOB_INTERRUPTED");
  }

  /** The interruptions a restore records for the listed rows, in order. */
  function Cuts(w: Ledger, ids: seq<Id>, now: nat): seq<Attempt>
    requires forall id :: id in ids ==> id in w.jobs
  {
    if ids == [] then []
    else Cut(ids[0], w.jobs[ids[0]], Max(w.jobs[ids[0]].updated, now), RESTORE_CODE)
         + Cuts(w, ids[1..], now)
  }

  lemma {:induction false} CutsSame(w: Ledger, v: Ledger, ids: seq<Id>, now: nat)
    requires forall id :: id in ids ==> id in w.jobs && id in v.jobs && v.jobs[id] == w.jobs[id]
    ensures Cuts(w, ids, now) == Cuts(v, ids, now)
    decreases |ids|
  {
    if ids != [] { CutsSame(w, v, ids[1..], now); }
  }

  ghost predicate AllLeft(w: Ledger, v: Ledger, ids: seq<Id>, now: nat) {
    && v.jobs.Keys == w.jobs.Keys && v.issued == w.issued
    && (forall id :: id in w.jobs ==>
          if id in ids then
            Became(w.jobs[id], v.jobs[id], Cancelled, None, Some(RESTORE_CODE),
                   Max(w.jobs[id].updated, now))
          else v.jobs[id] == w.jobs[id])
  }

  lemma SettleRestoredDoes(w: Ledger, id: Id, now: nat)
    requires Inv(w) && id in w.jobs && w.jobs[id].state in NONTERMINAL
    ensures var s := SettleRestored(w, id, now);
            var at := Max(w.jobs[id].updated, now);
            && s.result.Ok?
            && Left(w, s.after, id, Cancelled, None, Some(RESTORE_CODE), at,
                    Cut(id, w.jobs[id], at, RESTORE_CODE))
  {
    hide Inv, Recorded;
    if w.jobs[id].state == Running { RunningInterruptible(w, id, Max(w.jobs[id].updated, now), RESTORE_CODE); }
  }

  lemma {:induction false} SettleAllDoes(w: Ledger, ids: seq<Id>, now: nat)
    requires Inv(w) && Listed(w, ids)
    ensures var s := SettleAll(w, ids, now);
            s.result.Ok? && AllLeft(w, s.after, ids, now) && s.after.attempts == w.attempts + Cuts(w, ids, now)
    decreases |ids|
  {
    hide Inv, SettleRestored, AllLeft, Left, Became, Cut, Evolves;
    if ids == [] {
      NoneLeft(w, now);
    } else {
      var id, rest := ids[0], ids[1..];
      assert ids == [id] + rest && id !in rest;
      SettleRestoredDoes(w, id, now);
      SettleRestoredMoves(w, id, now);
      var v := SettleRestored(w, id, now).after;
      assert Listed(v, rest);
      SettleAllDoes(v, rest, now);
      OneMoreLeft(w, v, SettleAll(v, rest, now).after, ids, now);
    }
  }

  lemma NoneLeft(w: Ledger, now: nat)
    ensures AllLeft(w, w, [], now)
  {
  }

  lemma OneMoreLeft(w: Ledger, v: Ledger, z: Ledger, ids: seq<Id>, now: nat)
    requires ids != [] && ids[0] !in ids[1..] && Listed(w, ids) && Listed(v, ids[1..])
    requires var at := Max(w.jobs[ids[0]].updated, now);
             Left(w, v, ids[0], Cancelled, None, Some(RESTORE_CODE), at,
                  Cut(ids[0], w.jobs[ids[0]], at, RESTORE_CODE))
    requires AllLeft(v, z, ids[1..], now) && z.attempts == v.attempts + Cuts(v, ids[1..], now)
    ensures AllLeft(w, z, ids, now) && z.attempts == w.attempts + Cuts(w, ids, now)
  {
    hide *;
    ListedRows(w, ids);
    LeftMeans(w, v, ids[0], now);
    CutsGrow(w, v, ids, now);
    RowsLeft(w, v, z, ids, now);
  }

  lemma ListedRows(w: Ledger, ids: seq<Id>)
    requires Listed(w, ids)
    ensures forall id :: id in ids ==> id in w.jobs
  {
  }

  lemma LeftMeans(w: Ledger, v: Ledger, id: Id, now: nat)
    requires id in w.jobs
    requires var at := Max(w.jobs[id].updated, now);
             Left(w, v, id, Cancelled, None, Some(RESTORE_CODE), at, Cut(id, w.jobs[id], at, RESTORE_CODE))
    ensures OnlyRow(w, v, id) && v.issued == w.issued
    ensures id in v.jobs
            && Became(w.jobs[id], v.jobs[id], Cancelled, None, Some(RESTORE_CODE), Max(w.jobs[id].updated, now))
    ensures var at := Max(w.jobs[id].updated, now); v.attempts == w.attempts + Cut(id, w.jobs[id], at, RESTORE_CODE)
  {
  }

  lemma CutsGrow(w: Ledger, v: Ledger, ids: seq<Id>, now: nat)
    requires ids != [] && ids[0] !in ids[1..] && forall id :: id in ids ==> id in w.jobs
    requires OnlyRow(w, v, ids[0])
    ensures forall id :: id in ids[1..] ==> id in v.jobs
    ensures var first := w.jobs[ids[0]];
            Cuts(w, ids, now)
            == Cut(ids[0], first, Max(first.updated, now), RESTORE_CODE) + Cuts(v, ids[1..], now)
  {
    hide Cut;
    forall id | id in ids[1..]
      ensures id in ids && id != ids[0]
    {
      assert ids == [ids[0]] + ids[1..];
    }
    CutsSame(w, v, ids[1..], now);
  }

  lemma RowsLeft(w: Ledger, v: Ledger, z: Ledger, ids: seq<Id>, now: nat)
    requires ids != [] && ids[0] !in ids[1..] && ids[0] in w.jobs && OnlyRow(w, v, ids[0]) && v.issued == w.issued
    requires Became(w.jobs[ids[0]], v.jobs[ids[0]], Cancelled, None, Some(RESTORE_CODE),
                    Max(w.jobs[ids[0]].updated, now))
    requires AllLeft(v, z, ids[1..], now)
    ensures AllLeft(w, z, ids, now)
  {
    hide Became;
    var rest := ids[1..];
    assert ids == [ids[0]] + rest;
    forall id | id in w.jobs
      ensures if id in ids then
                Became(w.jobs[id], z.jobs[id], Cancelled, None, Some(RESTORE_CODE),
                       Max(w.jobs[id].updated, now))
              else z.jobs[id] == w.jobs[id]
    {
      assert id in ids <==> id == ids[0] || id in rest;
    }
  }

  /** A restore cancels exactly the live jobs, with the restore code, and records exactly the running ones' interruptions. */
  lemma RestoreDoes(w: Ledger, now: nat)
    requires Inv(w)
    ensures var v, ids := Restore(w, now).after, Ascending(Nonterminal(w));
            AllLeft(w, v, ids, now) && v.attempts == w.attempts + Cuts(w, ids, now)
  {
    hide Inv, AllLeft, Cuts, SettleAll;
    SettleAllDoes(w, Ascending(Nonterminal(w)), now);
  }

  /* ---- What the counts of a recovery count ---- */

  /** What became of each listed row of a phase. */
  function Verdicts(reg: Registry, w: Ledger, phase: Phase, ids: seq<Id>, now: nat, env: Env, at: nat): seq<Verdict>
    decreases |ids|
  {
    if ids == [] then [] else
    var row := RecoverRow(reg, Run(w, env(at)), phase, ids[0], now);
    if row.result.Err? then []
    else [row.result.value] + Verdicts(reg, row.after, phase, ids[1..], now, env, at + 1)
  }

  function Settlements(vs: seq<Verdict>, state: State): nat {
    if vs == [] then 0 else (if vs[0].Settled? && vs[0].state == state then 1 else 0) + Settlements(vs[1..], state)
  }

  function Interruptions(vs: seq<Verdict>): nat {
    if vs == [] then 0 else (if vs[0].Settled? && vs[0].interrupted then 1 else 0) + Interruptions(vs[1..])
  }

  function Skips(vs: seq<Verdict>): nat {
    if vs == [] then 0 else (if vs[0].Skipped? then 1 else 0) + Skips(vs[1..])
  }

  /** The summary grew by exactly what the verdicts say. */
  predicate Counts(s: Summary, t: Summary, vs: seq<Verdict>) {
    && t.examined == s.examined + |vs| && t.interrupted == s.interrupted + Interruptions(vs)
    && t.queued == s.queued + Settlements(vs, Queued) && t.retryWait == s.retryWait + Settlements(vs, RetryWait)
    && t.waitingReview == s.waitingReview + Settlements(vs, WaitingReview)
    && t.failed == s.failed + Settlements(vs, Failed) && t.skipped == s.skipped + Skips(vs)
  }

  lemma TallyCounts(s: Summary, v: Verdict, t: Summary, vs: seq<Verdict>)
    requires (v.Settled? ==> v.state in RECOVERY_STATES) && Counts(Tally(s, v), t, vs)
    ensures Counts(s, t, [v] + vs)
  {
    assert ([v] + vs)[1..] == vs;
  }

  /** Under any interference each count of a phase is the number of listed rows with that verdict. */
  lemma {:induction false} SweepCounts(reg: Registry, w: Ledger, phase: Phase, ids: seq<Id>, now: nat, env: Env, at: nat,
                                       s: Summary)
    requires Inv(w)
    ensures var r := Sweep(reg, w, phase, ids, now, env, at, s);
            r.result.Ok? ==> Counts(s, r.result.value, Verdicts(reg, w, phase, ids, now, env, at))
    decreases |ids|
  {
    hide Inv, Evolves, Tally, RecoverRow, Run, Counts;
    if ids == [] {
      NothingCounted(s);
    } else {
      var u := Run(w, env(at));
      RunMoves(w, env(at));
      var row := RecoverRow(reg, u, phase, ids[0], now);
      RecoverRowMoves(reg, u, phase, ids[0], now);
      if row.result.Ok? {
        var t := Tally(s, row.result.value);
        SweepCounts(reg, row.after, phase, ids[1..], now, env, at + 1, t);
        var r := Sweep(reg, w, phase, ids, now, env, at, s);
        if r.result.Ok? {
          TallyCounts(s, row.result.value, r.result.value, Verdicts(reg, row.after, phase, ids[1..], now, env, at + 1));
        }
      }
    }
  }

  lemma NothingCounted(s: Summary)
    ensures Counts(s, s, [])
  {
  }
}
