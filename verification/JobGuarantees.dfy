/** What the durable queue promises over any interleaving, derived from the step invariants. */
module JobGuarantees {
  import opened Prelude
  import opened JobTypes
  import opened JobSteps
  import opened JobHistory

  const EMPTY := Ledger(map[], [], map[])

  /* ---- Attempt history ---- */

  /**
   Over every run the recorded ordinals of a job are exactly 1..attempts, minus the last while it is running;
   each is recorded once, with the run and start time of the claim issued for it; claim fields are set iff
   the job is running and a retry time iff it waits for one.
   */
  lemma AttemptHistoryIsImageOfClaims(events: seq<Event>, id: Id)
    requires id in Run(EMPTY, events).jobs
    ensures var w := Run(EMPTY, events);
            var j := w.jobs[id];
            && (forall k: nat :: Recorded(w, id, k) <==> 1 <= k <= Ended(j))
            && (forall n, m :: 0 <= n < m < |w.attempts| && w.attempts[n].job == w.attempts[m].job ==>
                  w.attempts[n].ordinal != w.attempts[m].ordinal)
            && (forall n :: 0 <= n < |w.attempts| && w.attempts[n].job == id ==>
                  var a := w.attempts[n];
                  (id, a.ordinal) in w.issued && w.issued[(id, a.ordinal)].run == a.run
                  && w.issued[(id, a.ordinal)].started == a.started)
            && (j.state == Running <==> j.run.Some?) && (j.state == Running <==> j.started.Some?)
            && (j.state == RetryWait <==> j.retryAt.Some?)
  {
    assert Inv(EMPTY);
    RunMoves(EMPTY, events);
    HistoryOf(Run(EMPTY, events), id);
  }

  lemma HistoryOf(w: Ledger, id: Id)
    requires Inv(w) && id in w.jobs
    ensures forall k: nat :: Recorded(w, id, k) <==> 1 <= k <= Ended(w.jobs[id])
    ensures RowOk(w.jobs[id])
  {
  }

  /** Attempt intervals never overlap: an attempt ends no later than any later one of the job starts. */
  lemma AttemptsNeverOverlap(w: Ledger, events: seq<Event>, n: nat, m: nat)
    requires Inv(w)
    requires n < |Run(w, events).attempts| && m < |Run(w, events).attempts|
    requires Run(w, events).attempts[n].job == Run(w, events).attempts[m].job
    requires Run(w, events).attempts[n].ordinal < Run(w, events).attempts[m].ordinal
    ensures var a, b := Run(w, events).attempts[n], Run(w, events).attempts[m];
            a.started <= a.finished <= b.started <= b.finished
  {
    RunMoves(w, events);
  }

  /** Whatever the clocks handed to the steps do, no row's `updated` time ever decreases. */
  lemma UpdatedNeverDecreases(w: Ledger, before: seq<Event>, after: seq<Event>, id: Id)
    requires Inv(w) && id in Run(w, before).jobs
    ensures id in Run(Run(w, before), after).jobs
    ensures Run(w, before).jobs[id].updated <= Run(Run(w, before), after).jobs[id].updated
    ensures Terminal(Run(w, before).jobs[id]) ==> Run(Run(w, before), after).jobs[id] == Run(w, before).jobs[id]
  {
    RunMoves(w, before);
    RunMoves(Run(w, before), after);
    assert RowEvolves(Run(w, before).jobs[id], Run(Run(w, before), after).jobs[id]);
  }

  /* ---- Fencing ---- */

  predicate Issued(w: Ledger, c: Claim) {
    (c.job, c.ordinal) in w.issued && w.issued[(c.job, c.ordinal)] == c
  }

  /**
   A claim that passes revalidation is the most recent one issued for its job, and its ordinal is not in the
   attempt history: it was not completed, failed, cancelled, recovered or restored away.
   */
  lemma HolderIsLatest(reg: Registry, w: Ledger, c: Claim)
    requires Inv(w) && ClaimFault(reg, w, c).None?
    ensures c.job in w.jobs && c.ordinal == w.jobs[c.job].attempts && (c.job, c.ordinal) in w.issued
    ensures w.issued[(c.job, c.ordinal)].(checkpoint := c.checkpoint) == c
    ensures !Recorded(w, c.job, c.ordinal)
  {
    assert RowOk(w.jobs[c.job]);
    HistoryOf(w, c.job);
  }

  /** No ABA: a claim that was issued and no longer matches never matches again, whatever happens later. */
  lemma RevokedForever(w: Ledger, c: Claim, events: seq<Event>)
    requires Inv(w) && Issued(w, c) && !Matches(w, c)
    ensures !Matches(Run(w, events), c)
  {
    RunMoves(w, events);
    var v := Run(w, events);
    assert w.issued[(c.job, c.ordinal)] == c;
    assert RowEvolves(w.jobs[c.job], v.jobs[c.job]);
    assert RowOk(w.jobs[c.job]);
  }

  /** The steps that end an attempt: its holder's, a cancellation, a restore, and both recoveries of its row. */
  predicate Ends(w: Ledger, op: Op, c: Claim) {
    (op.DoComplete? && op.claim == c) || (op.DoFail? && op.claim == c)
    || (op.DoCancel? && op.job == c.job) || op.DoRestore?
    || (op.DoRecoverLegacy? && op.job == c.job && c.job in w.jobs && w.jobs[c.job].dedupe.None?)
    || (op.DoRecoverStale? && op.job == c.job && op.current != c.run)
  }

  /** Ending the attempt, by whichever step, revokes the claim at once and for good: a second end conflicts. */
  lemma EndedOnce(reg: Registry, w: Ledger, c: Claim, op: Op, events: seq<Event>, later: Registry, now: nat)
    requires Inv(w) && Issued(w, c) && Ends(w, op, c) && Apply(reg, w, op).1.None?
    requires c.ordinal >= 1 && c.kind in later
    ensures var v := Run(Apply(reg, w, op).0, events);
            ClaimFault(later, v, c) == Some(ClaimConflict) && Complete(later, v, c, now) == Step(v, Err(ClaimConflict))
  {
    var u := Apply(reg, w, op).0;
    ApplyMoves(reg, w, op);
    EndRevokes(reg, w, c, op);
    assert Issued(u, c);
    RevokedForever(u, c, events);
  }

  lemma EndRevokes(reg: Registry, w: Ledger, c: Claim, op: Op)
    requires Inv(w) && Issued(w, c) && Ends(w, op, c) && Apply(reg, w, op).1.None?
    ensures !Matches(Apply(reg, w, op).0, c)
  {
    hide Inv, Evolves, ClaimFault, Restore, RecoverLegacy, RecoverStale;
    match op
    case DoRestore(now) => RestoreAccounts(w, now); assert c.job !in Nonterminal(Restore(w, now).after);
    case DoRecoverLegacy(id, now) => RecoverLegacyMoves(w, id, now);
    case DoRecoverStale(id, current, now) => StaleRevokes(reg, w, c, current, now);
    case _ =>
  }

  lemma StaleRevokes(reg: Registry, w: Ledger, c: Claim, current: Id, now: nat)
    requires Inv(w) && Issued(w, c) && current != c.run && RecoverStale(reg, w, c.job, current, now).result.Ok?
    ensures !Matches(RecoverStale(reg, w, c.job, current, now).after, c)
  {
    RecoverStaleMoves(reg, w, c.job, current, now);
  }

  /** A row from before dedupe identities existed, still claimed by the run that crashed. */
  function LegacyLedger(run: Id, claim: Claim): Ledger {
    Ledger(map[claim.job := Job(claim.kind, Running, 0, claim.started, 1, None, Some(run), Some(claim.started),
                                claim.payload, None, None, None)],
           [], map[(claim.job, 1) := claim])
  }

  /** Such rows are among the states all of this covers, and recovering one interrupts its attempt. */
  lemma LegacyRowsMayRun(claim: Claim, now: nat)
    requires claim.ordinal == 1
    ensures var w := LegacyLedger(claim.run, claim);
            && Inv(w) && Matches(w, claim)
            && RecoverLegacy(w, claim.job, now).result == Ok(Settled(Failed, true))
            && !Matches(RecoverLegacy(w, claim.job, now).after, claim)
            && Recorded(RecoverLegacy(w, claim.job, now).after, claim.job, 1)
  {
    var w := LegacyLedger(claim.run, claim);
    var v := RecoverLegacy(w, claim.job, now).after;
    assert v.attempts[0].job == claim.job && v.attempts[0].ordinal == 1;
  }

  /* ---- Semantic dedupe ---- */

  type Policy = Kind -> set<State>

  ghost predicate ValidPolicy(policy: Policy) {
    forall k :: NONTERMINAL <= policy(k) <= COALESCIBLE
  }

  ghost predicate Agrees(reg: Registry, policy: Policy) {
    forall k :: k in reg ==> reg[k].coalesce == policy(k)
  }

  predicate SameWork(j: Job, k: Job) {
    j.kind == k.kind && j.dedupe.Some? && j.dedupe == k.dedupe
  }

  /** At most one job per semantic identity is in its contract's coalesce states. */
  ghost predicate UniqueWork(w: Ledger, policy: Policy) {
    forall a, b :: a in w.jobs && b in w.jobs && a != b && SameWork(w.jobs[a], w.jobs[b]) ==>
      w.jobs[a].state !in policy(w.jobs[a].kind) || w.jobs[b].state !in policy(w.jobs[b].kind)
  }

  /** No transition re-enters a coalesce set from outside. */
  lemma EvolvingKeepsUniqueWork(w: Ledger, v: Ledger, policy: Policy)
    requires ValidPolicy(policy) && UniqueWork(w, policy) && Evolves(w, v) && v.jobs.Keys == w.jobs.Keys
    ensures UniqueWork(v, policy)
  {
    forall a, b | a in v.jobs && b in v.jobs && a != b && SameWork(v.jobs[a], v.jobs[b])
      ensures v.jobs[a].state !in policy(v.jobs[a].kind) || v.jobs[b].state !in policy(v.jobs[b].kind)
    {
      assert RowEvolves(w.jobs[a], v.jobs[a]) && RowEvolves(w.jobs[b], v.jobs[b]);
      assert SameWork(w.jobs[a], w.jobs[b]);
    }
  }

  lemma MatchingUnique(w: Ledger, policy: Policy, kind: Kind, dedupe: Digest)
    requires UniqueWork(w, policy)
    ensures |Matching(w, kind, dedupe, policy(kind))| <= 1
  {
    var rows := Matching(w, kind, dedupe, policy(kind));
    if rows != {} {
      var a :| a in rows;
      forall b | b in rows
        ensures b == a
      {
        assert a != b ==> SameWork(w.jobs[a], w.jobs[b]);
      }
      assert rows == {a};
    }
  }

  lemma EnqueueKeepsUniqueWork(reg: Registry, w: Ledger, policy: Policy, kind: Kind, payload: Json, key: string,
                               now: nat, newId: Id)
    requires Inv(w) && UniqueWork(w, policy) && Agrees(reg, policy)
    ensures UniqueWork(Enqueue(reg, w, kind, payload, key, now, newId).after, policy)
    ensures Enqueue(reg, w, kind, payload, key, now, newId).result != Err(Corrupt(MultipleMatches))
  {
    hide Inv, Ascending, Utf8Length;
    MatchingUnique(w, policy, kind, Sha256(kind, key));
    var v := Enqueue(reg, w, kind, payload, key, now, newId).after;
    if v != w {
      var rows := Matching(w, kind, Sha256(kind, key), policy(kind));
      assert rows == {} by {
        assert |Ascending(rows)| == 0;
      }
      assert v.jobs == w.jobs[newId := v.jobs[newId]] && newId !in w.jobs;
      forall a, b | a in v.jobs && b in v.jobs && a != b && SameWork(v.jobs[a], v.jobs[b])
        ensures v.jobs[a].state !in policy(v.jobs[a].kind) || v.jobs[b].state !in policy(v.jobs[b].kind)
      {
        assert a in w.jobs ==> a !in rows;
        assert b in w.jobs ==> b !in rows;
        assert a in w.jobs && b in w.jobs ==> SameWork(w.jobs[a], w.jobs[b]);
      }
    }
  }

  /** The same rows with the same checkpoints. */
  ghost predicate SameRows(w: Ledger, v: Ledger) {
    v.jobs.Keys == w.jobs.Keys && forall id :: id in w.jobs ==> v.jobs[id].checkpoint == w.jobs[id].checkpoint
  }

  lemma CancelKeepsRows(reg: Registry, w: Ledger, id: Id, kind: Kind, context: Json, now: nat)
    ensures SameRows(w, Cancel(reg, w, id, kind, context, now).after)
  {
  }

  lemma LegacyKeepsRows(w: Ledger, id: Id, now: nat)
    ensures SameRows(w, RecoverLegacy(w, id, now).after)
  {
    hide Settle;
    if id in w.jobs {
      SettleKeepsRows(w, id, now, LEGACY_CODE, Failed, None, LEGACY_CODE, Max(w.jobs[id].updated, now));
    }
  }

  lemma CheckpointKeepsKeys(reg: Registry, w: Ledger, c: Claim, value: Json, now: nat)
    ensures Checkpoint(reg, w, c, value, now).after.jobs.Keys == w.jobs.Keys
  {
  }

  lemma ClaimKeepsRows(reg: Registry, w: Ledger, run: Id, now: nat)
    ensures SameRows(w, ClaimNext(reg, w, run, now).after)
  {
    hide NextDue, IdentityFault;
  }

  lemma SettleKeepsRows(w: Ledger, id: Id, finished: nat, code: string, state: State, retryAt: Option<nat>,
                        error: string, at: nat)
    requires id in w.jobs
    ensures SameRows(w, Settle(w, id, finished, code, state, retryAt, error, at).after)
  {
  }

  lemma RecoverStaleKeepsRows(reg: Registry, w: Ledger, id: Id, current: Id, now: nat)
    ensures SameRows(w, RecoverStale(reg, w, id, current, now).after)
  {
    hide CrashDecision;
  }

  lemma {:induction false} SettleAllKeepsRows(w: Ledger, ids: seq<Id>, now: nat)
    ensures SameRows(w, SettleAll(w, ids, now).after)
    decreases |ids|
  {
    if ids != [] {
      var first := SettleRestored(w, ids[0], now);
      SettleAllKeepsRows(first.after, ids[1..], now);
    }
  }

  lemma RestoreKeepsRows(w: Ledger, now: nat)
    ensures SameRows(w, Restore(w, now).after)
  {
    hide SettleAll, Ascending;
    SettleAllKeepsRows(w, Ascending(Nonterminal(w)), now);
  }

  /** Only an enqueue adds a row and only a checkpoint changes one. */
  lemma OthersKeepRows(reg: Registry, w: Ledger, op: Op)
    requires !op.DoEnqueue? && !op.DoCheckpoint?
    ensures SameRows(w, Apply(reg, w, op).0)
  {
    hide Restore, RecoverStale, ClaimNext, Cancel, RecoverLegacy;
    match op
    case DoCancel(id, kind, context, now) => CancelKeepsRows(reg, w, id, kind, context, now);
    case DoRecoverLegacy(id, now) => LegacyKeepsRows(w, id, now);
    case DoClaim(run, now) => ClaimKeepsRows(reg, w, run, now);
    case DoRecoverStale(id, current, now) => RecoverStaleKeepsRows(reg, w, id, current, now);
    case DoRestore(now) => RestoreKeepsRows(w, now);
    case _ =>
  }

  lemma StepKeepsUniqueWork(e: Event, w: Ledger, policy: Policy)
    requires Inv(w) && ValidPolicy(policy) && UniqueWork(w, policy) && Agrees(e.reg, policy)
    ensures UniqueWork(Apply(e.reg, w, e.op).0, policy)
  {
    hide Inv, Evolves, Enqueue, Checkpoint, UniqueWork, Agrees;
    match e.op
    case DoEnqueue(kind, payload, key, now, newId) =>
      EnqueueKeepsUniqueWork(e.reg, w, policy, kind, payload, key, now, newId);
    case DoCheckpoint(c, value, now) =>
      CheckpointMoves(e.reg, w, c, value, now);
      CheckpointKeepsKeys(e.reg, w, c, value, now);
      EvolvingKeepsUniqueWork(w, Checkpoint(e.reg, w, c, value, now).after, policy);
    case _ =>
      hide Apply;
      ApplyMoves(e.reg, w, e.op);
      OthersKeepRows(e.reg, w, e.op);
      EvolvingKeepsUniqueWork(w, Apply(e.reg, w, e.op).0, policy);
  }

  ghost predicate AllAgree(events: seq<Event>, policy: Policy) {
    forall i :: 0 <= i < |events| ==> Agrees(events[i].reg, policy)
  }

  /** As long as the registries keep one coalescing policy, work stays unique over every run. */
  lemma {:induction false} UniqueWorkAlways(w: Ledger, events: seq<Event>, policy: Policy)
    requires Inv(w) && ValidPolicy(policy) && UniqueWork(w, policy) && AllAgree(events, policy)
    ensures UniqueWork(Run(w, events), policy)
    decreases |events|
  {
    hide Inv, Evolves, UniqueWork, Apply;
    if events != [] {
      StepKeepsUniqueWork(events[0], w, policy);
      ApplyMoves(events[0].reg, w, events[0].op);
      UniqueWorkAlways(Apply(events[0].reg, w, events[0].op).0, events[1..], policy);
    }
  }

  predicate Holds(reg: Registry, w: Ledger, id: Id, kind: Kind, key: string) {
    && id in w.jobs && kind in reg
    && w.jobs[id].kind == kind && w.jobs[id].dedupe == Some(Sha256(kind, key))
    && reg[kind].validPayload(w.jobs[id].payload) && reg[kind].deriveKey(w.jobs[id].payload) == Some(key)
  }

  lemma EnqueueHolds(reg: Registry, w: Ledger, kind: Kind, payload: Json, key: string, now: nat, newId: Id)
    requires Enqueue(reg, w, kind, payload, key, now, newId).result.Ok?
    ensures ValidKey(key)
    ensures var s := Enqueue(reg, w, kind, payload, key, now, newId); Holds(reg, s.after, s.result.value, kind, key)
  {
    hide Ascending, ValidKey;
  }

  lemma EnqueueFinds(reg: Registry, w: Ledger, policy: Policy, id: Id, kind: Kind, payload: Json, key: string, now: nat,
                     newId: Id)
    requires UniqueWork(w, policy) && Agrees(reg, policy)
    requires Holds(reg, w, id, kind, key) && w.jobs[id].state in policy(kind)
    requires reg[kind].validPayload(payload) && reg[kind].deriveKey(payload) == Some(key) && ValidKey(key)
    ensures Enqueue(reg, w, kind, payload, key, now, newId) == Step(w, Ok(id))
  {
    hide Ascending, ValidKey;
    var rows := Matching(w, kind, Sha256(kind, key), policy(kind));
    MatchingUnique(w, policy, kind, Sha256(kind, key));
    assert id in rows;
    assert id in Ascending(rows) && |Ascending(rows)| == |rows|;
  }

  /** Two enqueues of one semantic key name the same job for as long as the first remains coalescible. */
  lemma EnqueuesCoalesce(reg: Registry, w: Ledger, policy: Policy, kind: Kind, key: string,
                         payload: Json, now: nat, newId: Id, events: seq<Event>, payload2: Json, later: nat, newId2: Id)
    requires Inv(w) && ValidPolicy(policy) && UniqueWork(w, policy) && Agrees(reg, policy) && AllAgree(events, policy)
    requires Enqueue(reg, w, kind, payload, key, now, newId).result.Ok?
    requires kind in reg && reg[kind].validPayload(payload2) && reg[kind].deriveKey(payload2) == Some(key)
    ensures var s := Enqueue(reg, w, kind, payload, key, now, newId);
            var v := Run(s.after, events);
            && s.result.value in v.jobs
            && (v.jobs[s.result.value].state in policy(kind) ==>
                  Enqueue(reg, v, kind, payload2, key, later, newId2) == Step(v, Ok(s.result.value)))
  {
    hide Inv, UniqueWork, Enqueue, ValidKey;
    var s := Enqueue(reg, w, kind, payload, key, now, newId);
    EnqueueHolds(reg, w, kind, payload, key, now, newId);
    EnqueueMoves(reg, w, kind, payload, key, now, newId);
    EnqueueKeepsUniqueWork(reg, w, policy, kind, payload, key, now, newId);
    UniqueWorkAlways(s.after, events, policy);
    RunMoves(s.after, events);
    var v := Run(s.after, events);
    var id := s.result.value;
    assert RowEvolves(s.after.jobs[id], v.jobs[id]);
    if v.jobs[id].state in policy(kind) {
      EnqueueFinds(reg, v, policy, id, kind, payload2, key, later, newId2);
    }
  }

  /* ---- Corruption is unreachable ---- */

  /** Persisted rows still reproduce their identity and checkpoint under the registry. */
  ghost predicate Faithful(reg: Registry, w: Ledger) {
    forall id :: id in w.jobs && w.jobs[id].kind in reg ==>
      && (w.jobs[id].dedupe.Some? ==> IdentityFault(reg[w.jobs[id].kind], w.jobs[id]).None?)
      && CheckpointValid(reg[w.jobs[id].kind], w.jobs[id].checkpoint)
  }

  predicate LegacyLive(w: Ledger) {
    exists id :: id in w.jobs && w.jobs[id].dedupe.None? && w.jobs[id].state in NONTERMINAL
  }

  /** The caller passes claims it was given and fresh identifiers. */
  predicate Genuine(w: Ledger, op: Op) {
    match op
    case DoEnqueue(_, _, _, _, newId) => newId !in w.jobs
    case DoCheckpoint(c, _, _) => Issued(w, c)
    case DoComplete(c, _) => Issued(w, c)
    case DoFail(c, _, _, _) => Issued(w, c)
    case _ => true
  }

  /** What a sound database can still be refused for: the clock, the caller's job type, the crash policy. */
  predicate Excusable(w: Ledger, what: Integrity) {
    what in {ClockRegressed, WrongKind, CrashPolicyFailed, InvalidDisposition}
    || (what == MissingDedupe && LegacyLive(w))
  }

  lemma HolderFaultExcusable(reg: Registry, w: Ledger, c: Claim, now: nat, what: Integrity)
    requires Inv(w) && Faithful(reg, w) && Issued(w, c) && HolderFault(reg, w, c, now) == Some(Corrupt(what))
    ensures Excusable(w, what)
  {
    assert w.issued[(c.job, c.ordinal)] == c;
  }

  lemma HolderMayEnd(reg: Registry, w: Ledger, c: Claim, now: nat, outcome: Outcome, error: Option<string>)
    requires Inv(w) && HolderFault(reg, w, c, now).None?
    ensures EndAttempt(w, c.job, now, outcome, error).result.Ok?
  {
    assert RowOk(w.jobs[c.job]);
    HistoryOf(w, c.job);
  }

  lemma ClaimExcusable(reg: Registry, w: Ledger, run: Id, now: nat, what: Integrity)
    requires Inv(w) && Faithful(reg, w) && ClaimNext(reg, w, run, now).result == Err(Corrupt(what))
    ensures Excusable(w, what)
  {
    hide NextDue;
    NextDueIsFirst(w.jobs, now);
    var id := NextDue(w.jobs, now).value;
    assert RowOk(w.jobs[id]);
  }

  lemma EnqueueExcusable(reg: Registry, w: Ledger, policy: Policy, op: Op, what: Integrity)
    requires Inv(w) && Faithful(reg, w) && UniqueWork(w, policy) && Agrees(reg, policy) && op.DoEnqueue?
    requires Genuine(w, op)
    ensures Enqueue(reg, w, op.kind, op.payload, op.key, op.now, op.newId).result != Err(Corrupt(what))
  {
    hide Inv, Ascending, ValidKey;
    EnqueueKeepsUniqueWork(reg, w, policy, op.kind, op.payload, op.key, op.now, op.newId);
    if op.kind in reg {
      var rows := Ascending(Matching(w, op.kind, Sha256(op.kind, op.key), reg[op.kind].coalesce));
      assert |rows| == 1 ==> rows[0] in rows;
    }
  }

  /**
   On a sound database under one registry, no genuine step reports corruption: "multiple durable jobs match",
   "attempt ordinal already has terminal history", "conflicting attempt history" and the rest are unreachable.
   */
  lemma CorruptionUnreachable(reg: Registry, w: Ledger, policy: Policy, op: Op, what: Integrity)
    requires Inv(w) && Faithful(reg, w) && UniqueWork(w, policy) && Agrees(reg, policy) && Genuine(w, op)
    requires Apply(reg, w, op).1 == Some(Corrupt(what))
    ensures Excusable(w, what)
  {
    hide Inv, Evolves, ClaimNext, HolderFault, Cancel, Enqueue, RecoverLegacy, Restore, Faithful, Excusable;
    match op
    case DoEnqueue(_, _, _, _, _) => EnqueueExcusable(reg, w, policy, op, what);
    case DoClaim(run, now) => ClaimExcusable(reg, w, run, now, what);
    case DoCheckpoint(c, value, now) =>
      if HolderFault(reg, w, c, now).Some? { HolderFaultExcusable(reg, w, c, now, what); }
    case DoComplete(c, now) =>
      if HolderFault(reg, w, c, now).Some? { HolderFaultExcusable(reg, w, c, now, what); }
      else { HolderMayEnd(reg, w, c, now, DidComplete, None); }
    case DoFail(c, code, retryAt, now) =>
      if HolderFault(reg, w, c, now).Some? { HolderFaultExcusable(reg, w, c, now, what); }
      else { HolderMayEnd(reg, w, c, now, DidFail, Some(code)); }
    case DoCancel(id, kind, context, now) => CancelExcusable(reg, w, id, kind, context, now, what);
    case DoRecoverLegacy(id, now) => RecoverLegacyMoves(w, id, now);
    case DoRecoverStale(id, current, now) =>
      RecoverStaleMoves(reg, w, id, current, now);
      CrashExcusable(reg, w, id, now, what);
    case DoRestore(now) => RestoreAccounts(w, now);
  }

  lemma CrashExcusable(reg: Registry, w: Ledger, id: Id, now: nat, what: Integrity)
    requires Faithful(reg, w) && id in w.jobs && w.jobs[id].state == Running
    requires CrashDecision(reg, w.jobs[id], now) == Err(Corrupt(what))
    ensures Excusable(w, what)
  {
  }

  lemma CancelExcusable(reg: Registry, w: Ledger, id: Id, kind: Kind, context: Json, now: nat, what: Integrity)
    requires Inv(w) && Cancel(reg, w, id, kind, context, now).result == Err(Corrupt(what))
    ensures Excusable(w, what)
  {
    assert RowOk(w.jobs[id]);
    HistoryOf(w, id);
  }

  lemma EnqueueKeepsFaithful(reg: Registry, w: Ledger, kind: Kind, payload: Json, key: string, now: nat, newId: Id)
    requires Faithful(reg, w)
    ensures Faithful(reg, Enqueue(reg, w, kind, payload, key, now, newId).after)
  {
    hide Ascending, ValidKey;
    var v := Enqueue(reg, w, kind, payload, key, now, newId).after;
    if v != w {
      EnqueueHolds(reg, w, kind, payload, key, now, newId);
      assert v.jobs == w.jobs[newId := v.jobs[newId]];
    }
  }

  lemma EvolvingKeepsFaithful(reg: Registry, w: Ledger, v: Ledger)
    requires Faithful(reg, w) && Evolves(w, v) && SameRows(w, v)
    ensures Faithful(reg, v)
  {
    forall id | id in v.jobs && v.jobs[id].kind in reg
      ensures v.jobs[id].dedupe.Some? ==> IdentityFault(reg[v.jobs[id].kind], v.jobs[id]).None?
      ensures CheckpointValid(reg[v.jobs[id].kind], v.jobs[id].checkpoint)
    {
      assert RowEvolves(w.jobs[id], v.jobs[id]);
    }
  }

  /** A process whose registry wrote the rows can read them back: faithfulness is kept by every step. */
  lemma StepKeepsFaithful(reg: Registry, w: Ledger, op: Op)
    requires Inv(w) && Faithful(reg, w)
    ensures Faithful(reg, Apply(reg, w, op).0)
  {
    hide Inv, Evolves, SameRows, Enqueue, ClaimFault;
    match op
    case DoEnqueue(kind, payload, key, now, newId) =>
      EnqueueKeepsFaithful(reg, w, kind, payload, key, now, newId);
    case DoCheckpoint(c, value, now) => CheckpointKeepsFaithful(reg, w, c, value, now);
    case _ =>
      hide Apply, Faithful;
      ApplyMoves(reg, w, op);
      OthersKeepRows(reg, w, op);
      EvolvingKeepsFaithful(reg, w, Apply(reg, w, op).0);
  }

  lemma CheckpointKeepsFaithful(reg: Registry, w: Ledger, c: Claim, value: Json, now: nat)
    requires Faithful(reg, w)
    ensures Faithful(reg, Checkpoint(reg, w, c, value, now).after)
  {
  }

  /** A whole run under one registry, from the empty database: nothing a genuine step does finds corruption. */
  lemma {:induction false} RunStaysSound(reg: Registry, w: Ledger, policy: Policy, events: seq<Event>)
    requires Inv(w) && Faithful(reg, w) && UniqueWork(w, policy) && ValidPolicy(policy) && Agrees(reg, policy)
    requires forall i :: 0 <= i < |events| ==> events[i].reg == reg
    ensures Inv(Run(w, events)) && Faithful(reg, Run(w, events)) && UniqueWork(Run(w, events), policy)
    decreases |events|
  {
    hide Inv, Evolves, UniqueWork, Faithful, Apply;
    if events != [] {
      var v := Apply(reg, w, events[0].op).0;
      StepKeepsUniqueWork(events[0], w, policy);
      StepKeepsFaithful(reg, w, events[0].op);
      ApplyMoves(reg, w, events[0].op);
      RunStaysSound(reg, v, policy, events[1..]);
    }
  }

  /** No row from before dedupe identities existed. */
  ghost predicate Modern(w: Ledger) {
    forall id :: id in w.jobs ==> w.jobs[id].dedupe.Some?
  }

  lemma StepKeepsModern(reg: Registry, w: Ledger, op: Op)
    requires Inv(w) && Modern(w)
    ensures Modern(Apply(reg, w, op).0)
  {
    hide Inv, Enqueue, Checkpoint, SameRows;
    match op
    case DoEnqueue(kind, payload, key, now, newId) => EnqueueKeepsModern(reg, w, kind, payload, key, now, newId);
    case DoCheckpoint(c, value, now) => CheckpointKeepsModern(reg, w, c, value, now);
    case _ =>
      hide Apply, Modern, Evolves;
      ApplyMoves(reg, w, op);
      OthersKeepRows(reg, w, op);
      EvolvingKeepsModern(w, Apply(reg, w, op).0);
  }

  lemma EnqueueKeepsModern(reg: Registry, w: Ledger, kind: Kind, payload: Json, key: string, now: nat, newId: Id)
    requires Modern(w)
    ensures Modern(Enqueue(reg, w, kind, payload, key, now, newId).after)
  {
    hide Ascending, ValidKey;
  }

  lemma CheckpointKeepsModern(reg: Registry, w: Ledger, c: Claim, value: Json, now: nat)
    requires Modern(w)
    ensures Modern(Checkpoint(reg, w, c, value, now).after)
  {
  }

  lemma EvolvingKeepsModern(w: Ledger, v: Ledger)
    requires Modern(w) && Evolves(w, v) && SameRows(w, v)
    ensures Modern(v)
  {
    forall id | id in v.jobs
      ensures v.jobs[id].dedupe.Some?
    {
      assert RowEvolves(w.jobs[id], v.jobs[id]);
    }
  }

  lemma {:induction false} RunStaysModern(w: Ledger, events: seq<Event>)
    requires Inv(w) && Modern(w)
    ensures Modern(Run(w, events))
    decreases |events|
  {
    hide Inv, Evolves, Modern, Apply;
    if events != [] {
      StepKeepsModern(events[0].reg, w, events[0].op);
      ApplyMoves(events[0].reg, w, events[0].op);
      RunStaysModern(Apply(events[0].reg, w, events[0].op).0, events[1..]);
    }
  }

  /**
   Whatever ran before, under one registry, a genuine step finds corruption only as a regressed clock, a job
   type the caller got wrong, or a crash policy that misbehaves.
   */
  lemma DatabaseNeverCorrupts(reg: Registry, policy: Policy, events: seq<Event>, op: Op, what: Integrity)
    requires ValidPolicy(policy) && Agrees(reg, policy)
    requires forall i :: 0 <= i < |events| ==> events[i].reg == reg
    requires Genuine(Run(EMPTY, events), op)
    requires Apply(reg, Run(EMPTY, events), op).1 == Some(Corrupt(what))
    ensures what in {ClockRegressed, WrongKind, CrashPolicyFailed, InvalidDisposition}
  {
    hide Apply, Run, Genuine;
    EmptyIsSound(reg, policy);
    RunStaysSound(reg, EMPTY, policy, events);
    RunStaysModern(EMPTY, events);
    CorruptionUnreachable(reg, Run(EMPTY, events), policy, op, what);
  }

  lemma EmptyIsSound(reg: Registry, policy: Policy)
    ensures Inv(EMPTY) && Faithful(reg, EMPTY) && UniqueWork(EMPTY, policy) && Modern(EMPTY)
  {
  }
}
