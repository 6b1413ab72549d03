/** A retry never starts before the time it was deferred to, whatever runs in between. */
module JobRetry {
  import opened Prelude
  import opened JobTypes
  import opened JobSteps
  import opened JobHistory

  /** After attempt `n` the job waits until `t`, or has ended, or its next attempt started no earlier than `t`. */
  ghost predicate WaitsOut(w: Ledger, id: Id, n: nat, t: nat) {
    && id in w.jobs && n <= w.jobs[id].attempts
    && (w.jobs[id].attempts == n ==> Terminal(w.jobs[id]) || Waiting(w.jobs[id], t))
    && (w.jobs[id].attempts > n ==> (id, n + 1) in w.issued && t <= w.issued[(id, n + 1)].started)
  }

  predicate Waiting(j: Job, t: nat) {
    j.state == RetryWait && j.retryAt == Some(t)
  }

  /** The row is as it was, or has reached a terminal state with the same attempts. */
  predicate StillOrEnded(w: Ledger, v: Ledger, id: Id)
    requires id in w.jobs
  {
    id in v.jobs && v.jobs[id].attempts == w.jobs[id].attempts && (v.jobs[id] == w.jobs[id] || Terminal(v.jobs[id]))
  }

  lemma HolderStepsLeaveWaiting(reg: Registry, w: Ledger, id: Id, op: Op)
    requires id in w.jobs && w.jobs[id].state == RetryWait
    requires op.DoCheckpoint? || op.DoComplete? || op.DoFail?
    ensures StillOrEnded(w, Apply(reg, w, op).0, id)
  {
    hide IdentityFault, ValidErrorCode, Recorded;
  }

  lemma OwnerStepsLeaveWaiting(reg: Registry, w: Ledger, id: Id, op: Op)
    requires id in w.jobs && w.jobs[id].state == RetryWait
    requires op.DoCancel? || op.DoRecoverLegacy? || op.DoRecoverStale? || op.DoEnqueue?
    ensures StillOrEnded(w, Apply(reg, w, op).0, id)
  {
    hide CrashDecision, Recorded, Ascending, ValidKey;
  }

  lemma RestoreEndsWaiting(w: Ledger, id: Id, now: nat)
    requires Inv(w) && id in w.jobs && w.jobs[id].state == RetryWait
    ensures StillOrEnded(w, Restore(w, now).after, id)
  {
    hide Inv, Restore;
    RestoreAccounts(w, now);
    var v := Restore(w, now).after;
    assert id !in Nonterminal(v);
    RestoreKeepsAttempts(w, id, now);
  }

  lemma {:induction false} SettleAllKeepsAttempts(w: Ledger, ids: seq<Id>, now: nat, id: Id)
    requires id in w.jobs
    ensures var v := SettleAll(w, ids, now).after; id in v.jobs && v.jobs[id].attempts == w.jobs[id].attempts
    decreases |ids|
  {
    hide SettleRestored;
    if ids != [] {
      SettleKeepsAttempts(w, ids[0], now, id);
      if SettleRestored(w, ids[0], now).result.Ok? {
        SettleAllKeepsAttempts(SettleRestored(w, ids[0], now).after, ids[1..], now, id);
      }
    }
  }

  lemma SettleKeepsAttempts(w: Ledger, which: Id, now: nat, id: Id)
    requires id in w.jobs
    ensures var v := SettleRestored(w, which, now).after; id in v.jobs && v.jobs[id].attempts == w.jobs[id].attempts
  {
    hide Recorded;
  }

  lemma RestoreKeepsAttempts(w: Ledger, id: Id, now: nat)
    requires id in w.jobs
    ensures var v := Restore(w, now).after; id in v.jobs && v.jobs[id].attempts == w.jobs[id].attempts
  {
    hide SettleAll, Ascending;
    SettleAllKeepsAttempts(w, Ascending(Nonterminal(w)), now, id);
  }

  /** A claim either takes the waiting job, at its time or later, or leaves it, or fails it for want of a contract. */
  lemma ClaimLeavesWaiting(reg: Registry, w: Ledger, id: Id, run: Id, now: nat, t: nat)
    requires Inv(w) && id in w.jobs && Waiting(w.jobs[id], t)
    ensures var v := ClaimNext(reg, w, run, now).after;
            StillOrEnded(w, v, id) || WaitsOut(v, id, w.jobs[id].attempts, t)
  {
    hide Inv, NextDue, IdentityFault, CheckpointValid, Moves;
    ClaimMoves(reg, w, run, now);
  }

  lemma StepWaitsOut(reg: Registry, w: Ledger, op: Op, id: Id, n: nat, t: nat)
    requires Inv(w) && WaitsOut(w, id, n, t)
    ensures WaitsOut(Apply(reg, w, op).0, id, n, t)
  {
    hide Inv, Apply;
    ApplyMoves(reg, w, op);
    var v := Apply(reg, w, op).0;
    assert RowEvolves(w.jobs[id], v.jobs[id]);
    if w.jobs[id].attempts == n && !Terminal(w.jobs[id]) {
      WaitingStep(reg, w, op, id, t);
    }
  }

  lemma WaitingStep(reg: Registry, w: Ledger, op: Op, id: Id, t: nat)
    requires Inv(w) && id in w.jobs && Waiting(w.jobs[id], t)
    ensures var v := Apply(reg, w, op).0; StillOrEnded(w, v, id) || WaitsOut(v, id, w.jobs[id].attempts, t)
  {
    hide Inv, ClaimNext, Restore, StillOrEnded, WaitsOut;
    match op
    case DoClaim(run, now) => ClaimLeavesWaiting(reg, w, id, run, now, t);
    case DoRestore(now) => RestoreEndsWaiting(w, id, now);
    case DoCheckpoint(_, _, _) => hide Apply; HolderStepsLeaveWaiting(reg, w, id, op);
    case DoComplete(_, _) => hide Apply; HolderStepsLeaveWaiting(reg, w, id, op);
    case DoFail(_, _, _, _) => hide Apply; HolderStepsLeaveWaiting(reg, w, id, op);
    case _ => hide Apply; OwnerStepsLeaveWaiting(reg, w, id, op);
  }

  lemma {:induction false} RunWaitsOut(w: Ledger, events: seq<Event>, id: Id, n: nat, t: nat)
    requires Inv(w) && WaitsOut(w, id, n, t)
    ensures WaitsOut(Run(w, events), id, n, t)
    decreases |events|
  {
    hide Inv, Apply, WaitsOut, Evolves;
    if events != [] {
      StepWaitsOut(events[0].reg, w, events[0].op, id, n, t);
      ApplyMoves(events[0].reg, w, events[0].op);
      RunWaitsOut(Apply(events[0].reg, w, events[0].op).0, events[1..], id, n, t);
    }
  }

  /** A failure that defers its job until `t`: the next attempt, whenever it comes, starts at `t` or later. */
  lemma RetryNeverEarly(reg: Registry, w: Ledger, c: Claim, code: string, t: nat, now: nat, events: seq<Event>)
    requires Inv(w) && Fail(reg, w, c, code, Some(t), now).result.Ok?
    ensures var v := Run(Fail(reg, w, c, code, Some(t), now).after, events);
            (c.job, c.ordinal + 1) in v.issued ==> t <= v.issued[(c.job, c.ordinal + 1)].started
  {
    hide Inv, Run, Fail;
    var u := Fail(reg, w, c, code, Some(t), now).after;
    FailMoves(reg, w, c, code, Some(t), now);
    FailDefers(reg, w, c, code, t, now);
    RunWaitsOut(u, events, c.job, c.ordinal, t);
    RunMoves(u, events);
    if (c.job, c.ordinal + 1) in Run(u, events).issued {
      IssuedMeansAttempted(Run(u, events), c.job, c.ordinal + 1);
    }
  }

  lemma FailDefers(reg: Registry, w: Ledger, c: Claim, code: string, t: nat, now: nat)
    requires Fail(reg, w, c, code, Some(t), now).result.Ok?
    ensures WaitsOut(Fail(reg, w, c, code, Some(t), now).after, c.job, c.ordinal, t)
  {
    hide IdentityFault, ValidErrorCode, Recorded;
  }

  lemma IssuedMeansAttempted(w: Ledger, id: Id, k: nat)
    requires Inv(w) && (id, k) in w.issued
    ensures id in w.jobs && 1 <= k <= w.jobs[id].attempts
  {
  }
}
