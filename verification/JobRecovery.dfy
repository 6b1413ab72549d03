/**
 Startup recovery as the loops it is: list the rows, then settle each in its own unit of work. Between two
 units of work anything else may run: `env(i)` is what other callers did before the i-th one.
 */
module JobRecovery {
  import opened Prelude
  import opened JobTypes
  import opened JobSteps
  import opened JobHistory

  type Env = nat -> seq<Event>

  const QUIET: Env := (i: nat) => []

  datatype Summary = Summary(examined: nat, interrupted: nat, queued: nat, retryWait: nat, waitingReview: nat,
                             failed: nat, skipped: nat)

  const ZERO := Summary(0, 0, 0, 0, 0, 0, 0)

  datatype Phase = Legacy | Stale(current: Id)

  /** Count one examined row. */
  function Tally(s: Summary, v: Verdict): Summary {
    var t := s.(examined := s.examined + 1);
    match v
    case Skipped => t.(skipped := t.skipped + 1)
    case Settled(state, cut) =>
      var u := if cut then t.(interrupted := t.interrupted + 1) else t;
      match state
      case Queued => u.(queued := u.queued + 1)
      case RetryWait => u.(retryWait := u.retryWait + 1)
      case WaitingReview => u.(waitingReview := u.waitingReview + 1)
      case _ => u.(failed := u.failed + 1)
  }

  function RecoverRow(reg: Registry, w: Ledger, phase: Phase, id: Id, now: nat): Step<Verdict> {
    match phase
    case Legacy => RecoverLegacy(w, id, now)
    case Stale(current) => RecoverStale(reg, w, id, current, now)
  }

  /** The rows a phase lists. */
  function Listing(w: Ledger, phase: Phase): set<Id> {
    match phase
    case Legacy => set id | id in w.jobs && w.jobs[id].dedupe.None? && w.jobs[id].state in NONTERMINAL
    case Stale(current) =>
      set id | id in w.jobs && w.jobs[id].state == Running && w.jobs[id].dedupe.Some?
               && w.jobs[id].run.Some? && w.jobs[id].run != Some(current)
  }

  /** One phase over the listed rows; a failure keeps the rows already settled. */
  function Sweep(reg: Registry, w: Ledger, phase: Phase, ids: seq<Id>, now: nat, env: Env, at: nat, s: Summary)
    : Step<Summary>
    decreases |ids|
  {
    if ids == [] then Step(w, Ok(s)) else
    var u := Run(w, env(at));
    var row := RecoverRow(reg, u, phase, ids[0], now);
    if row.result.Err? then Step(u, Err(row.result.error))
    else Sweep(reg, row.after, phase, ids[1..], now, env, at + 1, Tally(s, row.result.value))
  }

  /** The second phase lists its rows only after the first has finished. */
  function SweepRest(reg: Registry, w: Ledger, current: Id, now: nat, env: Env, at: nat, s: Summary): Step<Summary> {
    Sweep(reg, w, Stale(current), Ascending(Listing(w, Stale(current))), now, env, at, s)
  }

  function RecoverFrom(reg: Registry, w: Ledger, ids: seq<Id>, current: Id, now: nat, env: Env): Step<Summary> {
    var first := Sweep(reg, w, Legacy, ids, now, env, 0, ZERO);
    if first.result.Err? then first
    else SweepRest(reg, Run(first.after, env(|ids|)), current, now, env, |ids| + 1, first.result.value)
  }

  function Recover(reg: Registry, w: Ledger, current: Id, now: nat, env: Env): Step<Summary> {
    RecoverFrom(reg, w, Ascending(Listing(w, Legacy)), current, now, env)
  }

  /* ---- Accounting under interference ---- */

  predicate Balanced(s: Summary) {
    s.examined == s.queued + s.retryWait + s.waitingReview + s.failed + s.skipped
  }

  predicate Adds(r: Step<Summary>) {
    r.result.Ok? ==> Balanced(r.result.value)
  }

  lemma RecoverRowMoves(reg: Registry, w: Ledger, phase: Phase, id: Id, now: nat)
    requires Inv(w)
    ensures var s := RecoverRow(reg, w, phase, id, now);
            && Moves(w, s.after) && s.after.jobs.Keys == w.jobs.Keys
            && (forall i :: i in w.jobs && i != id ==> s.after.jobs[i] == w.jobs[i])
            && (s.result.Ok? && s.result.value.Settled? ==> s.result.value.state in RECOVERY_STATES)
            && (s.result.Ok? ==> id !in Listing(s.after, phase))
            && (s.result.Ok? ==> |s.after.attempts| - |w.attempts|
                                 == if s.result.value.Settled? && s.result.value.interrupted then 1 else 0)
  {
    hide Inv, Evolves;
    match phase
    case Legacy => RecoverLegacyMoves(w, id, now);
    case Stale(current) => RecoverStaleMoves(reg, w, id, current, now);
  }

  lemma ZeroBalances()
    ensures Balanced(ZERO)
  {
  }

  lemma TallyBalances(s: Summary, v: Verdict)
    requires Balanced(s) && (v.Settled? ==> v.state in RECOVERY_STATES)
    ensures Balanced(Tally(s, v)) && Tally(s, v).examined == s.examined + 1
  {
  }

  /** However other steps interleave, a phase moves the ledger forward and counts every listed row exactly once. */
  lemma {:induction false} SweepBalances(reg: Registry, w: Ledger, phase: Phase, ids: seq<Id>, now: nat, env: Env,
                                         at: nat, s: Summary)
    requires Inv(w) && Balanced(s)
    ensures var r := Sweep(reg, w, phase, ids, now, env, at, s);
            && Moves(w, r.after) && Adds(r)
            && (r.result.Ok? ==> r.result.value.examined == s.examined + |ids|)
    decreases |ids|
  {
    hide Inv, Evolves, Balanced, Tally, RecoverRow, Run;
    StayMoves(w);
    if ids != [] {
      var u := Run(w, env(at));
      RunMoves(w, env(at));
      var row := RecoverRow(reg, u, phase, ids[0], now);
      RecoverRowMoves(reg, u, phase, ids[0], now);
      if row.result.Ok? {
        var v := row.after;
        var t := Tally(s, row.result.value);
        TallyBalances(s, row.result.value);
        SweepBalances(reg, v, phase, ids[1..], now, env, at + 1, t);
        EvolvesTransitive(w, u, v);
        EvolvesTransitive(w, v, Sweep(reg, v, phase, ids[1..], now, env, at + 1, t).after);
      }
    }
  }

  lemma SweepRestBalances(reg: Registry, w: Ledger, current: Id, now: nat, env: Env, at: nat, s: Summary)
    requires Inv(w) && Balanced(s)
    ensures Moves(w, SweepRest(reg, w, current, now, env, at, s).after)
    ensures Adds(SweepRest(reg, w, current, now, env, at, s))
  {
    hide Inv, Evolves, Sweep, Ascending;
    SweepBalances(reg, w, Stale(current), Ascending(Listing(w, Stale(current))), now, env, at, s);
  }

  lemma RecoverFromBalances(reg: Registry, w: Ledger, ids: seq<Id>, current: Id, now: nat, env: Env)
    requires Inv(w)
    ensures Moves(w, RecoverFrom(reg, w, ids, current, now, env).after)
    ensures Adds(RecoverFrom(reg, w, ids, current, now, env))
  {
    hide Inv, Evolves, Sweep, SweepRest, Run, Balanced;
    ZeroBalances();
    var r := RecoverFrom(reg, w, ids, current, now, env);
    var first := Sweep(reg, w, Legacy, ids, now, env, 0, ZERO);
    SweepBalances(reg, w, Legacy, ids, now, env, 0, ZERO);
    if first.result.Ok? {
      var v := Run(first.after, env(|ids|));
      RunMoves(first.after, env(|ids|));
      var z := SweepRest(reg, v, current, now, env, |ids| + 1, first.result.value);
      SweepRestBalances(reg, v, current, now, env, |ids| + 1, first.result.value);
      assert r == z;
      assert Adds(z);
      EvolvesTransitive(w, first.after, v);
      EvolvesTransitive(w, v, r.after);
      assert Moves(w, r.after);
    } else {
      assert r == first;
    }
  }

  /** Even with interleaved steps: examined = queued + retry_wait + waiting_review + failed + skipped. */
  lemma RecoverBalances(reg: Registry, w: Ledger, current: Id, now: nat, env: Env)
    requires Inv(w)
    ensures Moves(w, Recover(reg, w, current, now, env).after)
    ensures Adds(Recover(reg, w, current, now, env))
  {
    hide Inv, Evolves, RecoverFrom, Ascending;
    RecoverFromBalances(reg, w, Ascending(Listing(w, Legacy)), current, now, env);
  }

  /* ---- Recovery without interference ---- */

  lemma {:induction false} QuietSweep(reg: Registry, w: Ledger, phase: Phase, ids: seq<Id>, now: nat, at: nat,
                                      s: Summary)
    requires Inv(w)
    requires forall id :: id in Listing(w, phase) ==> id in ids
    requires forall i, j :: 0 <= i < j < |ids| ==> ids[i] < ids[j]
    ensures var r := Sweep(reg, w, phase, ids, now, QUIET, at, s);
            && Moves(w, r.after) && r.after.jobs.Keys == w.jobs.Keys
            && (r.result.Ok? ==> Listing(r.after, phase) == {})
            && (r.result.Ok? ==> |r.after.attempts| + s.interrupted == |w.attempts| + r.result.value.interrupted)
            && (forall id :: id in w.jobs && id !in ids ==> r.after.jobs[id] == w.jobs[id])
    decreases |ids|
  {
    hide Inv, Evolves, RecoverRow, Tally;
    StayMoves(w);
    if ids != [] {
      assert Run(w, QUIET(at)) == w;
      var row := RecoverRow(reg, w, phase, ids[0], now);
      RecoverRowMoves(reg, w, phase, ids[0], now);
      assert ids == [ids[0]] + ids[1..] && ids[0] !in ids[1..];
      if row.result.Ok? {
        var t := Tally(s, row.result.value);
        ListingShrinks(w, row.after, phase, ids);
        TallyInterrupts(s, row.result.value);
        QuietSweep(reg, row.after, phase, ids[1..], now, at + 1, t);
        EvolvesTransitive(w, row.after, Sweep(reg, row.after, phase, ids[1..], now, QUIET, at + 1, t).after);
      }
    }
  }

  lemma TallyInterrupts(s: Summary, v: Verdict)
    ensures Tally(s, v).interrupted == s.interrupted + (if v.Settled? && v.interrupted then 1 else 0)
  {
  }

  lemma ListingShrinks(w: Ledger, v: Ledger, phase: Phase, ids: seq<Id>)
    requires ids != [] && v.jobs.Keys == w.jobs.Keys && ids[0] !in Listing(v, phase)
    requires forall i :: i in w.jobs && i != ids[0] ==> v.jobs[i] == w.jobs[i]
    requires forall id :: id in Listing(w, phase) ==> id in ids
    ensures forall id :: id in Listing(v, phase) ==> id in ids[1..]
  {
    forall id | id in Listing(v, phase)
      ensures id in ids[1..]
    {
      assert id in Listing(w, phase);
    }
  }

  lemma ListingStays(w: Ledger, v: Ledger)
    requires Evolves(w, v) && v.jobs.Keys == w.jobs.Keys && Listing(w, Legacy) == {}
    ensures Listing(v, Legacy) == {}
  {
    forall id | id in v.jobs
      ensures id !in Listing(v, Legacy)
    {
      assert RowEvolves(w.jobs[id], v.jobs[id]);
      assert id !in Listing(w, Legacy);
    }
  }

  /**
   With no interference a normal return leaves no live legacy row and no job running under a foreign run, and
   records exactly the interruptions it counts.
   */
  lemma RecoverSettles(reg: Registry, w: Ledger, current: Id, now: nat)
    requires Inv(w) && Recover(reg, w, current, now, QUIET).result.Ok?
    ensures var r := Recover(reg, w, current, now, QUIET);
            && Inv(r.after)
            && (forall id :: id in r.after.jobs && r.after.jobs[id].state in NONTERMINAL ==> r.after.jobs[id].dedupe.Some?)
            && (forall id :: id in r.after.jobs && r.after.jobs[id].state == Running ==> r.after.jobs[id].run == Some(current))
            && |r.after.attempts| == |w.attempts| + r.result.value.interrupted
            && Listing(r.after, Legacy) == {} && Listing(r.after, Stale(current)) == {}
  {
    var ids := Ascending(Listing(w, Legacy));
    var first := Sweep(reg, w, Legacy, ids, now, QUIET, 0, ZERO);
    QuietSweep(reg, w, Legacy, ids, now, 0, ZERO);
    var v := first.after;
    assert Run(v, QUIET(|ids|)) == v;
    QuietSweep(reg, v, Stale(current), Ascending(Listing(v, Stale(current))), now, |ids| + 1, first.result.value);
    var z := Recover(reg, w, current, now, QUIET).after;
    ListingStays(v, z);
    NothingListed(z, current);
  }

  lemma NothingListed(z: Ledger, current: Id)
    requires RowsOk(z) && Listing(z, Legacy) == {} && Listing(z, Stale(current)) == {}
    ensures forall id :: id in z.jobs && z.jobs[id].state in NONTERMINAL ==> z.jobs[id].dedupe.Some?
    ensures forall id :: id in z.jobs && z.jobs[id].state == Running ==> z.jobs[id].run == Some(current)
  {
    forall id | id in z.jobs
      ensures z.jobs[id].state in NONTERMINAL ==> z.jobs[id].dedupe.Some?
      ensures z.jobs[id].state == Running ==> z.jobs[id].run == Some(current)
    {
      assert RowOk(z.jobs[id]);
      assert id !in Listing(z, Legacy) && id !in Listing(z, Stale(current));
    }
  }

  /** A second recovery by the same run examines nothing and changes nothing. */
  lemma SecondRecoveryExaminesNothing(reg: Registry, w: Ledger, current: Id, now: nat, later: nat)
    requires Inv(w) && Recover(reg, w, current, now, QUIET).result.Ok?
    ensures var v := Recover(reg, w, current, now, QUIET).after;
            Recover(reg, v, current, later, QUIET) == Step(v, Ok(ZERO))
  {
    RecoverSettles(reg, w, current, now);
    var v := Recover(reg, w, current, now, QUIET).after;
    assert Ascending(Listing(v, Legacy)) == [];
    assert Ascending(Listing(v, Stale(current))) == [];
    assert Run(v, QUIET(0)) == v;
  }
}
