/** The terminal endpoint of a Service Request, as the SLA reads it from the accepted status history. */
module SlaEndpoint {
  import opened Prelude

  /** A usable accepted status observation; without a chronology it cannot be ordered. */
  datatype Observation = Observation(evidence: Id, status: string, chronology: Option<nat>)

  datatype Endpoint = Endpoint(at: nat, evidence: Id)

  predicate Terminal(status: string) { status == "Resolved" || status == "Closed" }

  predicate Interrupts(status: string) { status == "Customer Agreed Suspend" || status == "Cancelled" }

  /** Comparable and no later than the current status. */
  predicate Counts(o: Observation, current: nat) {
    o.chronology.Some? && o.chronology.value <= current
  }

  predicate Before(a: Endpoint, b: Endpoint) {
    a.at < b.at || (a.at == b.at && a.evidence < b.evidence)
  }

  /** Sorting candidates and taking the first. */
  function Least(cs: seq<Endpoint>): (e: Endpoint)
    requires cs != []
    ensures e in cs && forall c :: c in cs ==> !Before(c, e)
  {
    if |cs| == 1 then cs[0]
    else
      var rest := Least(cs[1..]);
      assert cs == [cs[0]] + cs[1..];
      if Before(rest, cs[0]) then rest else cs[0]
  }

  /* ---- Declarative meaning ---- */

  /** Some observation interrupts at or after `from`, up to the current status. */
  predicate InterruptedSince(history: seq<Observation>, from: nat, current: nat) {
    exists o :: o in history && Counts(o, current) && Interrupts(o.status) && from <= o.chronology.value
  }

  /** A Resolved or Closed observation that nothing interrupts up to the current status. */
  predicate Candidate(history: seq<Observation>, current: nat, e: Endpoint) {
    && Observed(history, current, e)
    && !InterruptedSince(history, e.at, current)
  }

  predicate Observed(history: seq<Observation>, current: nat, e: Endpoint) {
    exists o :: o in history && Counts(o, current) && Terminal(o.status) && o.chronology == Some(e.at)
                && o.evidence == e.evidence
  }

  /** The least candidate. */
  ghost predicate IsEndpoint(history: seq<Observation>, current: nat, e: Endpoint) {
    Candidate(history, current, e) && forall c :: Candidate(history, current, c) ==> !Before(c, e)
  }

  /** The boundary loop, then the candidate loop; absent without a comparable terminal current status. */
  method TerminalEndpoint(history: seq<Observation>, status: string, chronology: Option<nat>)
    returns (r: Option<Endpoint>)
    ensures !Terminal(status) || chronology.None? ==> r.None?
    ensures Terminal(status) && chronology.Some? && r.Some? ==> IsEndpoint(history, chronology.value, r.value)
    ensures Terminal(status) && chronology.Some? && r.None? ==> forall e :: !Candidate(history, chronology.value, e)
  {
    if !Terminal(status) || chronology.None? {
      return None;
    }
    var current := chronology.value;
    var boundary := -1;
    for i := 0 to |history|
      invariant -1 <= boundary
      invariant forall j :: 0 <= j < i && Counts(history[j], current) && Interrupts(history[j].status) ==>
                              history[j].chronology.value <= boundary
      invariant boundary >= 0 ==> InterruptedSince(history, boundary, current)
    {
      var o := history[i];
      if Counts(o, current) && Interrupts(o.status) {
        assert o in history;
        boundary := Max(boundary, o.chronology.value);
      }
    }
    BoundaryMeans(history, boundary, current);
    var candidates: seq<Endpoint> := [];
    for i := 0 to |history|
      invariant forall c :: c in candidates ==> Candidate(history, current, c)
      invariant forall j :: 0 <= j < i && Counts(history[j], current) && Terminal(history[j].status)
                              && history[j].chronology.value > boundary ==>
                              Endpoint(history[j].chronology.value, history[j].evidence) in candidates
    {
      var o := history[i];
      if Counts(o, current) && Terminal(o.status) && o.chronology.value > boundary {
        assert o in history;
        assert Candidate(history, current, Endpoint(o.chronology.value, o.evidence));
        candidates := candidates + [Endpoint(o.chronology.value, o.evidence)];
      }
    }
    forall e | Candidate(history, current, e)
      ensures e in candidates
    {
      assert !InterruptedSince(history, e.at, current);
      var o :| o in history && Counts(o, current) && Terminal(o.status) && o.chronology == Some(e.at)
               && o.evidence == e.evidence;
      var j :| 0 <= j < |history| && history[j] == o;
      assert Endpoint(history[j].chronology.value, history[j].evidence) in candidates;
    }
    if candidates == [] {
      return None;
    }
    return Some(Least(candidates));
  }

  /** Later than the boundary is exactly uninterrupted. */
  lemma BoundaryMeans(history: seq<Observation>, boundary: int, current: nat)
    requires -1 <= boundary
    requires forall j :: 0 <= j < |history| && Counts(history[j], current) && Interrupts(history[j].status) ==>
                           history[j].chronology.value <= boundary
    requires boundary >= 0 ==> InterruptedSince(history, boundary, current)
    ensures forall from: nat :: from > boundary <==> !InterruptedSince(history, from, current)
  {
    forall from: nat
      ensures from > boundary <==> !InterruptedSince(history, from, current)
    {
      if InterruptedSince(history, from, current) {
        var o :| o in history && Counts(o, current) && Interrupts(o.status) && from <= o.chronology.value;
        var j :| 0 <= j < |history| && history[j] == o;
      }
    }
  }

  /** The current status is itself an accepted observation. */
  predicate CurrentObserved(history: seq<Observation>, status: string, current: nat) {
    exists o :: o in history && o.status == status && o.chronology == Some(current)
  }

  /** There is no endpoint exactly when an interrupting observation shares the current chronology. */
  lemma AbsentIffInterruptedNow(history: seq<Observation>, status: string, current: nat)
    requires Terminal(status) && CurrentObserved(history, status, current)
    ensures (forall e :: !Candidate(history, current, e)) <==> InterruptedSince(history, current, current)
  {
    var o :| o in history && o.status == status && o.chronology == Some(current);
    var e := Endpoint(current, o.evidence);
    assert Observed(history, current, e);
    if InterruptedSince(history, current, current) {
      forall c
        ensures !Candidate(history, current, c)
      {
        var x :| x in history && Counts(x, current) && Interrupts(x.status) && current <= x.chronology.value;
        if Observed(history, current, c) {
          assert c.at <= current <= x.chronology.value;
          assert InterruptedSince(history, c.at, current);
        }
      }
    } else {
      assert Candidate(history, current, e);
    }
  }

  /** The statuses the endpoint algorithm distinguishes. */
  predicate FourStatuses(history: seq<Observation>) {
    forall o :: o in history ==> Terminal(o.status) || Interrupts(o.status)
  }

  predicate AllTerminalFrom(history: seq<Observation>, from: nat, current: nat) {
    forall o :: o in history && Counts(o, current) && from <= o.chronology.value ==> Terminal(o.status)
  }

  /**
   Everything from the endpoint to the current status is Resolved or Closed exactly when the stretch holds no status
   outside the four: always over the four-status vocabulary.
   */
  lemma StretchIsTerminal(history: seq<Observation>, current: nat, e: Endpoint)
    requires IsEndpoint(history, current, e)
    ensures AllTerminalFrom(history, e.at, current) <==>
            forall o :: o in history && Counts(o, current) && e.at <= o.chronology.value ==>
                          Terminal(o.status) || Interrupts(o.status)
    ensures FourStatuses(history) ==> AllTerminalFrom(history, e.at, current)
  {
    forall o | o in history && Counts(o, current) && e.at <= o.chronology.value
      ensures !Interrupts(o.status)
    {
    }
  }

  /** And it is the whole of the final stretch: no earlier point starts an all-terminal stretch with an observation. */
  lemma StretchIsMaximal(history: seq<Observation>, current: nat, e: Endpoint, o: Observation)
    requires FourStatuses(history) && IsEndpoint(history, current, e)
    requires o in history && Counts(o, current) && o.chronology.value < e.at
    ensures !AllTerminalFrom(history, o.chronology.value, current)
  {
    if AllTerminalFrom(history, o.chronology.value, current) {
      TerminalFromIsCandidate(history, current, o);
    }
  }

  lemma TerminalFromIsCandidate(history: seq<Observation>, current: nat, o: Observation)
    requires o in history && Counts(o, current) && AllTerminalFrom(history, o.chronology.value, current)
    ensures Candidate(history, current, Endpoint(o.chronology.value, o.evidence))
  {
  }
}
