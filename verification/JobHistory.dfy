/**
 What every step of every coordinator keeps, and therefore what holds over whole runs: the attempt history
 is the image of the claims issued, ledgers only evolve forward, claims are fenced, work is deduplicated.
 */
module JobHistory {
  import opened Prelude
  import opened JobTypes
  import opened JobSteps

  /* ---- The invariant ---- */

  ghost predicate RowOk(j: Job) {
    && j.created <= j.updated
    && (j.state == Running <==> j.run.Some?)
    && (j.run.Some? <==> j.started.Some?)
    && (j.state == RetryWait <==> j.retryAt.Some?)
    && (j.state == Running ==> j.attempts >= 1 && j.started.value <= j.updated)
  }

  ghost predicate RowsOk(w: Ledger) {
    forall id :: id in w.jobs ==> RowOk(w.jobs[id])
  }

  /** Attempts of a row that have ended. */
  function Ended(j: Job): int {
    if j.state == Running then j.attempts - 1 else j.attempts
  }

  /**
   One claim was issued per ordinal 1..attempts, carrying the row's immutable identity; a row from before dedupe
   identities existed may have been claimed too, under whatever identity its claims then carried.
   */
  ghost predicate IssuedOk(w: Ledger) {
    && (forall id, k :: (id, k) in w.issued <==> id in w.jobs && 1 <= k <= w.jobs[id].attempts)
    && (forall id, k :: (id, k) in w.issued ==>
          var c, j := w.issued[(id, k)], w.jobs[id];
          c.job == id && c.ordinal == k && c.kind == j.kind && (j.dedupe.Some? ==> Some(c.dedupe) == j.dedupe)
          && c.payload == j.payload && c.started <= j.updated)
    && (forall id :: id in w.jobs && w.jobs[id].state == Running ==>
          (id, w.jobs[id].attempts) in w.issued &&
          var c := w.issued[(id, w.jobs[id].attempts)];
          w.jobs[id].run == Some(c.run) && w.jobs[id].started == Some(c.started))
  }

  /** Each recorded attempt is the image of its claim, is recorded once, and ends before the next begins. */
  ghost predicate AttemptsOk(w: Ledger) {
    && (forall i :: 0 <= i < |w.attempts| ==>
          var a := w.attempts[i];
          a.job in w.jobs && 1 <= a.ordinal <= Ended(w.jobs[a.job]) && (a.job, a.ordinal) in w.issued
          && a.run == w.issued[(a.job, a.ordinal)].run && a.started == w.issued[(a.job, a.ordinal)].started
          && a.started <= a.finished <= w.jobs[a.job].updated)
    && (forall i, j :: 0 <= i < j < |w.attempts| ==>
          w.attempts[i].job != w.attempts[j].job || w.attempts[i].ordinal != w.attempts[j].ordinal)
    && (forall i, k :: 0 <= i < |w.attempts| && (w.attempts[i].job, k) in w.issued && w.attempts[i].ordinal < k ==>
          w.attempts[i].finished <= w.issued[(w.attempts[i].job, k)].started)
  }

  ghost predicate HistoryComplete(w: Ledger) {
    forall id, k :: id in w.jobs && 1 <= k <= Ended(w.jobs[id]) ==> Recorded(w, id, k)
  }

  ghost predicate Inv(w: Ledger) {
    RowsOk(w) && IssuedOk(w) && AttemptsOk(w) && HistoryComplete(w)
  }

  /* ---- How a ledger may move ---- */

  predicate Terminal(j: Job) { j.state !in NONTERMINAL }

  ghost predicate RowEvolves(j: Job, k: Job) {
    && k.kind == j.kind && k.payload == j.payload && k.dedupe == j.dedupe && k.created == j.created
    && j.updated <= k.updated && j.attempts <= k.attempts
    && (Terminal(j) ==> k == j)
    && (j.attempts == k.attempts && k.state == Running ==>
          j.state == Running && k.run == j.run && k.started == j.started)
  }

  /** Forward motion: rows stay and evolve, claims and attempts are only added. */
  ghost predicate Evolves(w: Ledger, v: Ledger) {
    && (forall id :: id in w.jobs ==> id in v.jobs && RowEvolves(w.jobs[id], v.jobs[id]))
    && (forall key :: key in w.issued ==> key in v.issued && v.issued[key] == w.issued[key])
    && w.attempts <= v.attempts
  }

  ghost predicate Moves(w: Ledger, v: Ledger) {
    Inv(v) && Evolves(w, v)
  }

  lemma EvolvesTransitive(u: Ledger, v: Ledger, w: Ledger)
    requires Evolves(u, v) && Evolves(v, w)
    ensures Evolves(u, w)
  {
    forall id | id in u.jobs
      ensures id in w.jobs && RowEvolves(u.jobs[id], w.jobs[id])
    {
      assert RowEvolves(u.jobs[id], v.jobs[id]);
      assert RowEvolves(v.jobs[id], w.jobs[id]);
    }
  }

  /* ---- The five row changes keep the invariant ---- */

  lemma StartMoves(w: Ledger, id: Id, now: nat, claim: Claim)
    requires Inv(w) && id in w.jobs
    requires w.jobs[id].state in {Queued, RetryWait} && w.jobs[id].updated <= now
    requires claim.job == id && claim.ordinal == w.jobs[id].attempts + 1 && claim.started == now
    requires claim.kind == w.jobs[id].kind && Some(claim.dedupe) == w.jobs[id].dedupe
    requires claim.payload == w.jobs[id].payload
    ensures (id, claim.ordinal) !in w.issued
    ensures Moves(w, Start(w, id, now, claim))
  {
    var v := Start(w, id, now, claim);
    assert RowOk(w.jobs[id]);
    StartAttemptsOk(w, id, now, claim);
    forall i, k | i in v.jobs && 1 <= k <= Ended(v.jobs[i])
      ensures Recorded(v, i, k)
    {
      assert Recorded(w, i, k);
    }
  }

  lemma StartAttemptsOk(w: Ledger, id: Id, now: nat, claim: Claim)
    requires RowsOk(w) && AttemptsOk(w) && id in w.jobs && w.jobs[id].updated <= now
    requires w.jobs[id].state != Running && claim.ordinal == w.jobs[id].attempts + 1 && claim.started == now
    requires (id, claim.ordinal) !in w.issued
    ensures AttemptsOk(Start(w, id, now, claim))
  {
  }

  lemma LeaveMoves(w: Ledger, id: Id, state: State, retryAt: Option<nat>, error: Option<string>, at: nat)
    requires Inv(w) && id in w.jobs
    requires !Terminal(w.jobs[id]) && w.jobs[id].state != Running && state in {Failed, Cancelled}
    requires retryAt.None? && w.jobs[id].updated <= at
    ensures Moves(w, Leave(w, id, state, retryAt, error, at))
  {
    var v := Leave(w, id, state, retryAt, error, at);
    assert RowOk(w.jobs[id]);
    forall i, k | i in v.jobs && 1 <= k <= Ended(v.jobs[i])
      ensures Recorded(v, i, k)
    {
      assert Recorded(w, i, k);
    }
  }

  lemma EndMoves(w: Ledger, id: Id, finished: nat, outcome: Outcome, code: Option<string>,
                 state: State, retryAt: Option<nat>, error: Option<string>, at: nat)
    requires Inv(w) && id in w.jobs && w.jobs[id].state == Running && state != Running
    requires state == RetryWait <==> retryAt.Some?
    requires w.jobs[id].started.value <= finished <= at && w.jobs[id].updated <= at
    ensures !Recorded(w, id, w.jobs[id].attempts)
    ensures Moves(w, Leave(Record(w, id, finished, outcome, code), id, state, retryAt, error, at))
  {
    var u := Record(w, id, finished, outcome, code);
    var v := Leave(u, id, state, retryAt, error, at);
    assert RowOk(w.jobs[id]);
    EndCompletes(w, id, u.attempts[|w.attempts|], v);
    EndAttemptsOk(w, id, u.attempts[|w.attempts|], v);
  }

  ghost predicate Closes(w: Ledger, id: Id, a: Attempt, v: Ledger) {
    && id in w.jobs && w.jobs[id].state == Running && id in v.jobs
    && v.jobs == w.jobs[id := v.jobs[id]] && v.issued == w.issued && v.attempts == w.attempts + [a]
    && v.jobs[id].state != Running && v.jobs[id].attempts == w.jobs[id].attempts
    && w.jobs[id].updated <= v.jobs[id].updated
    && a.job == id && a.ordinal == w.jobs[id].attempts
    && Some(a.run) == w.jobs[id].run && Some(a.started) == w.jobs[id].started
    && a.started <= a.finished <= v.jobs[id].updated
  }

  lemma EndAttemptsOk(w: Ledger, id: Id, a: Attempt, v: Ledger)
    requires Inv(w) && Closes(w, id, a, v)
    ensures AttemptsOk(v)
  {
    forall i | 0 <= i < |v.attempts|
      ensures var b := v.attempts[i];
              b.job in v.jobs && 1 <= b.ordinal <= Ended(v.jobs[b.job]) && (b.job, b.ordinal) in v.issued
              && b.run == v.issued[(b.job, b.ordinal)].run && b.started == v.issued[(b.job, b.ordinal)].started
              && b.started <= b.finished <= v.jobs[b.job].updated
      ensures i < |w.attempts| ==> v.attempts[i].job != a.job || v.attempts[i].ordinal != a.ordinal
      ensures forall k :: (v.attempts[i].job, k) in v.issued && v.attempts[i].ordinal < k ==>
                v.attempts[i].finished <= v.issued[(v.attempts[i].job, k)].started
    {
      if i < |w.attempts| {
        assert v.attempts[i] == w.attempts[i];
      } else {
        assert v.attempts[i] == a;
        assert RowOk(w.jobs[id]);
      }
    }
  }

  lemma EndCompletes(w: Ledger, id: Id, a: Attempt, v: Ledger)
    requires Inv(w) && Closes(w, id, a, v)
    ensures HistoryComplete(v) && !Recorded(w, id, a.ordinal)
  {
    forall i, k | i in v.jobs && 1 <= k <= Ended(v.jobs[i])
      ensures Recorded(v, i, k)
    {
      if i == id && k == a.ordinal {
        assert v.attempts[|w.attempts|] == a;
      } else {
        assert Recorded(w, i, k);
        var n :| 0 <= n < |w.attempts| && w.attempts[n].job == i && w.attempts[n].ordinal == k;
        assert v.attempts[n] == w.attempts[n];
      }
    }
  }

  lemma TouchMoves(w: Ledger, id: Id, value: Json, now: nat)
    requires Inv(w) && id in w.jobs && !Terminal(w.jobs[id]) && w.jobs[id].updated <= now
    ensures Moves(w, WithRow(w, id, w.jobs[id].(checkpoint := Some(value), updated := now)))
  {
    var v := WithRow(w, id, w.jobs[id].(checkpoint := Some(value), updated := now));
    assert RowOk(w.jobs[id]);
    forall i, k | i in v.jobs && 1 <= k <= Ended(v.jobs[i])
      ensures Recorded(v, i, k)
    {
      assert Recorded(w, i, k);
    }
  }

  lemma InsertMoves(w: Ledger, id: Id, j: Job)
    requires Inv(w) && id !in w.jobs && RowOk(j) && j.state == Queued && j.attempts == 0
    ensures Moves(w, WithRow(w, id, j))
  {
    var v := WithRow(w, id, j);
    forall i, k | i in v.jobs && 1 <= k <= Ended(v.jobs[i])
      ensures Recorded(v, i, k)
    {
      assert Recorded(w, i, k);
    }
  }

  /* ---- Every step moves forward ---- */

  lemma FirstDueIsFirst(jobs: map<Id, Job>, ids: seq<Id>, now: nat)
    requires forall id :: id in ids ==> id in jobs
    ensures var next := FirstDue(jobs, ids, now);
            if next.None? then forall id :: id in ids ==> !Due(jobs[id], now)
            else next.value in ids && Due(jobs[next.value], now)
                 && forall id :: id in ids && Due(jobs[id], now) ==> !Precedes(id, jobs[id], next.value, jobs[next.value])
  {
    if ids != [] {
      FirstDueIsFirst(jobs, ids[1..], now);
      assert ids == [ids[0]] + ids[1..];
      var rest := FirstDue(jobs, ids[1..], now);
      assert rest.Some? ==> rest.value in ids[1..];
    }
  }

  /** The row `claim_next` selects: due, first in the stated order, and absent exactly when nothing is due. */
  lemma NextDueIsFirst(jobs: map<Id, Job>, now: nat)
    ensures var next := NextDue(jobs, now);
            if next.None? then forall id :: id in jobs ==> !Due(jobs[id], now)
            else next.value in jobs && Due(jobs[next.value], now)
                 && forall id :: id in jobs && Due(jobs[id], now) ==> !Precedes(id, jobs[id], next.value, jobs[next.value])
  {
    FirstDueIsFirst(jobs, Ascending(jobs.Keys), now);
  }

  lemma StayMoves(w: Ledger)
    requires Inv(w)
    ensures Moves(w, w)
  {
  }

  lemma EnqueueMoves(reg: Registry, w: Ledger, kind: Kind, payload: Json, key: string, now: nat, newId: Id)
    requires Inv(w)
    ensures Moves(w, Enqueue(reg, w, kind, payload, key, now, newId).after)
  {
    StayMoves(w);
    if newId !in w.jobs {
      InsertMoves(w, newId,
                  Job(kind, Queued, now, now, 0, None, None, None, payload, None, None, Some(Sha256(kind, key))));
    }
  }

  ghost predicate ClaimsFreshly(w: Ledger, s: Step<Option<Claim>>, run: Id, now: nat) {
    s.result.Ok? && s.result.value.Some? ==>
      var c := s.result.value.value;
      && c.job in w.jobs && c.run == run && c.started == now
      && (c.job, c.ordinal) !in w.issued && s.after.issued == w.issued[(c.job, c.ordinal) := c]
      && Matches(s.after, c)
      && (w.jobs[c.job].state == RetryWait ==> w.jobs[c.job].retryAt.Some? && w.jobs[c.job].retryAt.value <= now)
  }

  lemma ClaimRowMoves(reg: Registry, w: Ledger, id: Id, run: Id, now: nat)
    requires Inv(w) && id in w.jobs && Due(w.jobs[id], now)
    ensures Moves(w, ClaimRow(reg, w, id, run, now).after)
    ensures ClaimsFreshly(w, ClaimRow(reg, w, id, run, now), run, now)
    ensures ClaimRow(reg, w, id, run, now).result.Ok? && ClaimRow(reg, w, id, run, now).result.value.Some?
            ==> ClaimRow(reg, w, id, run, now).result.value.value.job == id
  {
    StayMoves(w);
    var s := ClaimRow(reg, w, id, run, now);
    var j := w.jobs[id];
    assert RowOk(j);
    if s.result.Ok? {
      if s.result.value.Some? {
        StartMoves(w, id, now, s.result.value.value);
      } else {
        LeaveMoves(w, id, Failed, None, Some(UNAVAILABLE_CODE), Max(j.updated, now));
      }
    }
  }

  /** A claim is a fresh ordinal on the first due row, no earlier than its retry time; the row then carries it. */
  lemma ClaimMoves(reg: Registry, w: Ledger, run: Id, now: nat)
    requires Inv(w)
    ensures Moves(w, ClaimNext(reg, w, run, now).after)
    ensures ClaimsFreshly(w, ClaimNext(reg, w, run, now), run, now)
    ensures ClaimNext(reg, w, run, now).result.Ok? && ClaimNext(reg, w, run, now).result.value.Some?
            ==> NextDue(w.jobs, now) == Some(ClaimNext(reg, w, run, now).result.value.value.job)
  {
    NextDueIsFirst(w.jobs, now);
    StayMoves(w);
    var next := NextDue(w.jobs, now);
    if next.Some? {
      ClaimRowMoves(reg, w, next.value, run, now);
    }
  }

  lemma CheckpointMoves(reg: Registry, w: Ledger, c: Claim, value: Json, now: nat)
    requires Inv(w)
    ensures Moves(w, Checkpoint(reg, w, c, value, now).after)
  {
    StayMoves(w);
    if HolderFault(reg, w, c, now).None? {
      TouchMoves(w, c.job, value, now);
    }
  }

  /** What a holder that passes revalidation knows of its row. */
  lemma HolderRow(reg: Registry, w: Ledger, c: Claim, now: nat)
    requires RowsOk(w) && HolderFault(reg, w, c, now).None?
    ensures c.job in w.jobs && w.jobs[c.job].state == Running && w.jobs[c.job].started.Some?
    ensures w.jobs[c.job].started.value <= now && w.jobs[c.job].updated <= now
  {
    hide IdentityFault;
    assert RowOk(w.jobs[c.job]);
  }

  lemma CompleteMoves(reg: Registry, w: Ledger, c: Claim, now: nat)
    requires Inv(w)
    ensures Moves(w, Complete(reg, w, c, now).after)
  {
    hide IssuedOk, AttemptsOk, HistoryComplete, Evolves, HolderFault;
    StayMoves(w);
    if HolderFault(reg, w, c, now).None? {
      HolderRow(reg, w, c, now);
      EndMoves(w, c.job, now, DidComplete, None, Completed, None, None, now);
    }
  }

  lemma FailMoves(reg: Registry, w: Ledger, c: Claim, code: string, retryAt: Option<nat>, now: nat)
    requires Inv(w)
    ensures Moves(w, Fail(reg, w, c, code, retryAt, now).after)
  {
    hide IssuedOk, AttemptsOk, HistoryComplete, Evolves, HolderFault, ValidErrorCode;
    StayMoves(w);
    if HolderFault(reg, w, c, now).None? {
      HolderRow(reg, w, c, now);
      var state := if retryAt.Some? then RetryWait else Failed;
      EndMoves(w, c.job, now, DidFail, Some(code), state, retryAt, Some(code), now);
    }
  }

  lemma CancelMoves(reg: Registry, w: Ledger, id: Id, kind: Kind, context: Json, now: nat)
    requires Inv(w)
    ensures Moves(w, Cancel(reg, w, id, kind, context, now).after)
  {
    StayMoves(w);
    if id in w.jobs && w.jobs[id].state in NONTERMINAL && w.jobs[id].updated <= now {
      var j := w.jobs[id];
      assert RowOk(j);
      if j.state == Running {
        EndMoves(w, id, now, WasCancelled, None, Cancelled, None, j.lastError, now);
      } else {
        LeaveMoves(w, id, Cancelled, None, j.lastError, now);
      }
    }
  }

  /** A running row's ordinal is never in the history yet, so its interruption is always recorded afresh. */
  lemma RunningInterruptible(w: Ledger, id: Id, at: nat, code: string)
    requires Inv(w) && id in w.jobs && w.jobs[id].state == Running
    ensures w.jobs[id].run.Some? && w.jobs[id].started.Some? && !Recorded(w, id, w.jobs[id].attempts)
    ensures Interrupt(w, id, at, code)
         == Step(Record(w, id, Max(at, w.jobs[id].started.value), Interrupted, Some(code)), Ok(true))
  {
    assert RowOk(w.jobs[id]);
  }

  /** Settling a live row never meets recorded or incomplete history; it records one interruption iff running. */
  lemma SettleMoves(w: Ledger, id: Id, finished: nat, code: string, state: State, retryAt: Option<nat>,
                    error: string, at: nat)
    requires Inv(w) && id in w.jobs && !Terminal(w.jobs[id])
    requires state != Running && (state == RetryWait <==> retryAt.Some?)
    requires w.jobs[id].state != Running ==> state in {Failed, Cancelled}
    requires finished <= at && w.jobs[id].updated <= at
    ensures var s := Settle(w, id, finished, code, state, retryAt, error, at);
            && s.result == Ok(Settled(state, w.jobs[id].state == Running))
            && Moves(w, s.after) && s.after.jobs.Keys == w.jobs.Keys && s.after.jobs[id].state == state
            && (forall i :: i in w.jobs && i != id ==> s.after.jobs[i] == w.jobs[i])
  {
    var j := w.jobs[id];
    assert RowOk(j);
    if j.state == Running {
      RunningInterruptible(w, id, finished, code);
      EndMoves(w, id, Max(finished, j.started.value), Interrupted, Some(code), state, retryAt, Some(error), at);
    } else {
      LeaveMoves(w, id, state, retryAt, Some(error), at);
    }
  }

  lemma RecoverLegacyMoves(w: Ledger, id: Id, now: nat)
    requires Inv(w)
    ensures var s := RecoverLegacy(w, id, now);
            s.result.Ok? && Moves(w, s.after) && s.after.jobs.Keys == w.jobs.Keys
            && (forall i :: i in w.jobs && i != id ==> s.after.jobs[i] == w.jobs[i])
            && (id in w.jobs && w.jobs[id].dedupe.None? ==> s.after.jobs[id].state !in NONTERMINAL)
  {
    StayMoves(w);
    if RecoverLegacy(w, id, now).result != Ok(Skipped) {
      SettleMoves(w, id, now, LEGACY_CODE, Failed, None, LEGACY_CODE, Max(w.jobs[id].updated, now));
    }
  }

  lemma CrashDecisionSound(reg: Registry, j: Job, now: nat)
    ensures var d := CrashDecision(reg, j, now);
            d.Ok? ==> d.value.state in RECOVERY_STATES && (d.value.state == RetryWait <==> d.value.retryAt.Some?)
  {
  }

  lemma RecoverStaleMoves(reg: Registry, w: Ledger, id: Id, current: Id, now: nat)
    requires Inv(w)
    ensures var s := RecoverStale(reg, w, id, current, now);
            && Moves(w, s.after) && s.after.jobs.Keys == w.jobs.Keys
            && (forall i :: i in w.jobs && i != id ==> s.after.jobs[i] == w.jobs[i])
            && (s.result.Ok? && id in w.jobs && s.after.jobs[id].state == Running ==>
                  s.after.jobs[id].run == Some(current))
            && (s.result.Ok? && s.result.value.Settled? ==> s.result.value.state in RECOVERY_STATES)
            && (s.result.Err? && id in w.jobs ==> CrashDecision(reg, w.jobs[id], now) == Err(s.result.error))
  {
    StayMoves(w);
    if id in w.jobs && w.jobs[id].state == Running && w.jobs[id].run != Some(current) {
      var j := w.jobs[id];
      assert RowOk(j);
      CrashDecisionSound(reg, j, now);
      RunningInterruptible(w, id, now, INTERRUPTED_CODE);
      var d := CrashDecision(reg, j, now);
      if d.Ok? {
        var code := if d.value.error.Some? then d.value.error.value else INTERRUPTED_CODE;
        SettleMoves(w, id, now, INTERRUPTED_CODE, d.value.state, d.value.retryAt, code, Max(j.updated, now));
      }
    }
  }

  ghost predicate Listed(w: Ledger, ids: seq<Id>) {
    && (forall id :: id in ids ==> id in w.jobs && !Terminal(w.jobs[id]))
    && (forall i, j :: 0 <= i < j < |ids| ==> ids[i] < ids[j])
  }

  /** The running rows, and those of them in a list. */
  function RunningJobs(w: Ledger): set<Id> {
    set id | id in w.jobs && w.jobs[id].state == Running
  }

  function RunningIn(w: Ledger, ids: seq<Id>): set<Id> {
    set id | id in RunningJobs(w) && id in ids
  }

  lemma SettleRestoredMoves(w: Ledger, id: Id, now: nat)
    requires Inv(w) && id in w.jobs && !Terminal(w.jobs[id])
    ensures var s := SettleRestored(w, id, now);
            && s.result == Ok(Settled(Cancelled, w.jobs[id].state == Running))
            && Moves(w, s.after) && s.after.jobs.Keys == w.jobs.Keys && s.after.jobs[id].state == Cancelled
            && (forall i :: i in w.jobs && i != id ==> s.after.jobs[i] == w.jobs[i])
  {
    var at := Max(w.jobs[id].updated, now);
    SettleMoves(w, id, at, RESTORE_CODE, Cancelled, None, RESTORE_CODE, at);
  }

  /** The restore loop cancels every listed row, interrupts exactly the running ones, and touches nothing else. */
  lemma {:induction false} SettleAllMoves(w: Ledger, ids: seq<Id>, now: nat)
    requires Inv(w) && Listed(w, ids)
    ensures var s := SettleAll(w, ids, now);
            && s.result == Ok(|RunningIn(w, ids)|)
            && Moves(w, s.after) && s.after.jobs.Keys == w.jobs.Keys
            && (forall id :: id in ids ==> id in s.after.jobs && s.after.jobs[id].state == Cancelled)
            && (forall id :: id in w.jobs && id !in ids ==> s.after.jobs[id] == w.jobs[id])
    decreases |ids|
  {
    hide Inv, Evolves, SettleRestored;
    if ids == [] {
      StayMoves(w);
      assert RunningIn(w, ids) == {};
    } else {
      var id, rest := ids[0], ids[1..];
      assert ids == [id] + rest && id !in rest;
      SettleRestoredMoves(w, id, now);
      var v := SettleRestored(w, id, now).after;
      assert Listed(v, rest);
      SettleAllMoves(v, rest, now);
      EvolvesTransitive(w, v, SettleAll(v, rest, now).after);
      RunningSplits(w, v, id, rest);
    }
  }

  lemma RunningSplits(w: Ledger, v: Ledger, id: Id, rest: seq<Id>)
    requires id in w.jobs && id !in rest && v.jobs.Keys == w.jobs.Keys
    requires forall i :: i in w.jobs && i != id ==> v.jobs[i] == w.jobs[i]
    ensures |RunningIn(w, [id] + rest)|
         == |RunningIn(v, rest)| + (if w.jobs[id].state == Running then 1 else 0)
  {
    var there := RunningIn(v, rest);
    assert RunningIn(w, [id] + rest) == if w.jobs[id].state == Running then there + {id} else there;
  }

  ghost predicate Accounts(w: Ledger, s: Step<Reconciliation>) {
    && s.result.Ok? && s.after.jobs.Keys == w.jobs.Keys && Nonterminal(s.after) == {}
    && s.result.value.examined == s.result.value.cancelled == |Nonterminal(w)|
    && s.result.value.examined + s.result.value.untouched == |w.jobs|
    && s.result.value.interrupted == |RunningJobs(w)|
    && (forall id :: id in w.jobs && Terminal(w.jobs[id]) ==> s.after.jobs[id] == w.jobs[id])
  }

  lemma RestoreRowsAccount(w: Ledger, ids: seq<Id>, now: nat)
    requires Inv(w) && Listed(w, ids) && |ids| == |Nonterminal(w)|
    requires forall id :: id in Nonterminal(w) ==> id in ids
    ensures Moves(w, RestoreRows(w, ids, now).after) && Accounts(w, RestoreRows(w, ids, now))
  {
    hide RowsOk, IssuedOk, AttemptsOk, HistoryComplete, Evolves;
    var live := Nonterminal(w);
    SettleAllMoves(w, ids, now);
    AllTerminal(SettleAll(w, ids, now).after, w, live);
    assert RunningIn(w, ids) == RunningJobs(w);
  }

  /**
   Restore accounts for every job: it never fails on a sound ledger, leaves nothing live, counts each job once
   as examined or untouched, and interrupts exactly the jobs that were running.
   */
  lemma RestoreAccounts(w: Ledger, now: nat)
    requires Inv(w)
    ensures Moves(w, Restore(w, now).after) && Accounts(w, Restore(w, now))
  {
    hide Inv, Evolves, Accounts;
    RestoreRowsAccount(w, Ascending(Nonterminal(w)), now);
  }

  lemma AllTerminal(v: Ledger, w: Ledger, live: set<Id>)
    requires v.jobs.Keys == w.jobs.Keys && live == Nonterminal(w)
    requires forall id :: id in live ==> v.jobs[id].state == Cancelled
    requires forall id :: id in w.jobs && id !in live ==> v.jobs[id] == w.jobs[id]
    ensures Nonterminal(v) == {} && TerminalCount(v) == |w.jobs|
  {
    assert (set id | id in v.jobs && v.jobs[id].state !in NONTERMINAL) == w.jobs.Keys;
  }

  lemma ApplyMoves(reg: Registry, w: Ledger, op: Op)
    requires Inv(w)
    ensures Moves(w, Apply(reg, w, op).0)
  {
    match op
    case DoEnqueue(kind, payload, key, now, newId) => EnqueueMoves(reg, w, kind, payload, key, now, newId);
    case DoClaim(run, now) => ClaimMoves(reg, w, run, now);
    case DoCheckpoint(c, value, now) => CheckpointMoves(reg, w, c, value, now);
    case DoComplete(c, now) => CompleteMoves(reg, w, c, now);
    case DoFail(c, code, retryAt, now) => FailMoves(reg, w, c, code, retryAt, now);
    case DoCancel(id, kind, context, now) => CancelMoves(reg, w, id, kind, context, now);
    case DoRecoverLegacy(id, now) => RecoverLegacyMoves(w, id, now);
    case DoRecoverStale(id, current, now) => RecoverStaleMoves(reg, w, id, current, now);
    case DoRestore(now) => RestoreAccounts(w, now);
  }

  /** Every interleaving keeps the invariant and only moves the ledger forward. */
  lemma {:induction false} RunMoves(w: Ledger, events: seq<Event>)
    requires Inv(w)
    ensures Moves(w, Run(w, events))
    decreases |events|
  {
    if events == [] {
      StayMoves(w);
    } else {
      var v := Apply(events[0].reg, w, events[0].op).0;
      ApplyMoves(events[0].reg, w, events[0].op);
      RunMoves(v, events[1..]);
      EvolvesTransitive(w, v, Run(v, events[1..]));
    }
  }
}
