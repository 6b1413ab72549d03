/** Source presence of Service Requests: a chain of disappearance and reappearance events, read by its head. */
module SourcePresence {
  import opened Prelude

  datatype Kind = Disappearance | Reappearance

  datatype Event = Event(id: Id, sr: Id, kind: Kind, prior: Option<Id>)

  datatype Identity = Identity(official: Option<string>, revision: nat)

  datatype Db = Db(srs: map<Id, Identity>, events: seq<Event>)

  datatype Error = NotFound | Integrity | Stale | Persistence

  /** The base token, identified with the canonical object it hashes. */
  datatype Token = BaseToken(sr: Id, identity: Identity, latest: Option<(Id, Kind)>)

  datatype State = State(latest: Option<(Id, Kind)>, active: Option<Id>, token: Token)

  predicate HasSuccessor(events: seq<Event>, id: Id) {
    exists i :: 0 <= i < |events| && events[i].prior == Some(id)
  }

  /** Positions of the request's events that no event names as its prior: the anti-join. */
  function Heads(events: seq<Event>, sr: Id): (s: set<Id>)
    ensures forall i :: i in s ==> i < |events|
  {
    set i: nat | i < |events| && events[i].sr == sr && !HasSuccessor(events, events[i].id)
  }

  /** The head, the active disappearance and the base token. */
  function Current(db: Db, sr: Id): Result<State, Error> {
    if sr !in db.srs then Err(NotFound)
    else
      var heads := Heads(db.events, sr);
      if |heads| > 1 then Err(Integrity)
      else
        var latest := if heads == {} then None
                      else Some((db.events[Minimum(heads)].id, db.events[Minimum(heads)].kind));
        var active := if latest.Some? && latest.value.1 == Disappearance then Some(latest.value.0) else None;
        Ok(State(latest, active, BaseToken(sr, db.srs[sr], latest)))
  }

  predicate Known(events: seq<Event>, id: Id) {
    exists i :: 0 <= i < |events| && events[i].id == id
  }

  function Disappear(db: Db, sr: Id, token: Token, valid: bool, newId: Id): (Db, Result<Id, Error>) {
    var state := Current(db, sr);
    if state.Err? then (db, Err(state.error))
    else if state.value.token != token || state.value.active.Some? || !valid then (db, Err(Stale))
    else if Known(db.events, newId) then (db, Err(Persistence))
    else
      var prior := if state.value.latest.None? then None else Some(state.value.latest.value.0);
      (db.(events := db.events + [Event(newId, sr, Disappearance, prior)]), Ok(newId))
  }

  function Reappear(db: Db, sr: Id, expected: Id, valid: bool, newId: Id): (Db, Result<Id, Error>) {
    var state := Current(db, sr);
    if state.Err? then (db, Err(state.error))
    else if state.value.active != Some(expected) || !valid then (db, Err(Stale))
    else if Known(db.events, newId) then (db, Err(Persistence))
    else (db.(events := db.events + [Event(newId, sr, Reappearance, state.value.active)]), Ok(newId))
  }

  datatype Op =
    | DoDisappear(sr: Id, token: Token, valid: bool, newId: Id)
    | DoReappear(sr: Id, expected: Id, valid: bool, newId: Id)
    | DoElsewhere(srs: map<Id, Identity>)

  function Apply(db: Db, op: Op): Db {
    match op
    case DoDisappear(sr, token, valid, id) => Disappear(db, sr, token, valid, id).0
    case DoReappear(sr, expected, valid, id) => Reappear(db, sr, expected, valid, id).0
    case DoElsewhere(srs) => db.(srs := srs)
  }

  function Run(db: Db, ops: seq<Op>): Db
    decreases |ops|
  {
    if ops == [] then db else Run(Apply(db, ops[0]), ops[1..])
  }

  /* ---- The chain ---- */

  /** The request's last appended event. */
  function Last(events: seq<Event>, sr: Id): Option<Event>
    decreases |events|
  {
    if events == [] then None
    else if events[|events| - 1].sr == sr then Some(events[|events| - 1])
    else Last(events[..|events| - 1], sr)
  }

  /** The event continues its request's chain: it names the last event so far, and turns its kind over. */
  predicate Continues(events: seq<Event>, e: Event) {
    var last := Last(events, e.sr);
    && !Known(events, e.id)
    && e.prior == (if last.None? then None else Some(last.value.id))
    && (e.kind == Disappearance <==> last.None? || last.value.kind == Reappearance)
  }

  /** The events of every request form one linear alternating chain over all of them. */
  ghost predicate Chained(events: seq<Event>) {
    forall i :: 0 <= i < |events| ==> Continues(events[..i], events[i])
  }

  lemma LastOfAppend(events: seq<Event>, e: Event, sr: Id)
    ensures Last(events + [e], sr) == if e.sr == sr then Some(e) else Last(events, sr)
  {
    assert (events + [e])[..|events|] == events;
  }

  lemma ChainedAppend(events: seq<Event>, e: Event)
    requires Chained(events) && Continues(events, e)
    ensures Chained(events + [e])
  {
    var es := events + [e];
    forall i | 0 <= i < |es|
      ensures Continues(es[..i], es[i])
    {
      assert es[..i] == events[..i];
      assert i == |events| ==> events[..i] == events;
    }
  }

  /** Where the request's last event is. */
  ghost predicate LastAt(events: seq<Event>, sr: Id, n: nat) {
    n < |events| && events[n].sr == sr && Last(events, sr) == Some(events[n])
    && forall i :: n < i < |events| ==> events[i].sr != sr
  }

  lemma {:induction false} FindLast(events: seq<Event>, sr: Id)
    ensures Last(events, sr).None? ==> forall i :: 0 <= i < |events| ==> events[i].sr != sr
    ensures Last(events, sr).Some? ==> exists n :: LastAt(events, sr, n)
    decreases |events|
  {
    if events != [] {
      var m := |events| - 1;
      if events[m].sr == sr {
        assert LastAt(events, sr, m);
      } else {
        FindLast(events[..m], sr);
        if Last(events, sr).Some? {
          var n :| LastAt(events[..m], sr, n);
          assert LastAt(events, sr, n);
        }
      }
    }
  }

  /** Every event of the request but its last one is named by a later event of the request. */
  lemma OlderHasSuccessor(events: seq<Event>, sr: Id, i: nat, n: nat)
    requires Chained(events) && LastAt(events, sr, n) && i < n && events[i].sr == sr
    ensures HasSuccessor(events, events[i].id)
    decreases n - i
  {
    var k := NextOf(events, sr, i, n);
    assert Continues(events[..k], events[k]);
    FindLast(events[..k], sr);
    assert events[..k][i] == events[i];
    var m :| LastAt(events[..k], sr, m);
    assert m == i;
  }

  /** The request's next event after position `i`. */
  lemma NextOf(events: seq<Event>, sr: Id, i: nat, n: nat) returns (k: nat)
    requires i < n < |events| && events[n].sr == sr
    ensures i < k <= n && events[k].sr == sr && forall j :: i < j < k ==> events[j].sr != sr
  {
    k := i + 1;
    while events[k].sr != sr
      invariant i < k <= n && forall j :: i < j < k ==> events[j].sr != sr
      decreases n - k
    {
      k := k + 1;
    }
  }

  lemma LastHasNoSuccessor(events: seq<Event>, sr: Id, n: nat)
    requires Chained(events) && LastAt(events, sr, n)
    ensures !HasSuccessor(events, events[n].id)
  {
    forall k | 0 <= k < |events|
      ensures events[k].prior != Some(events[n].id)
    {
      assert Continues(events[..k], events[k]);
      FindLast(events[..k], events[k].sr);
      if Last(events[..k], events[k].sr).Some? {
        var m :| LastAt(events[..k], events[k].sr, m);
        IdsDiffer(events, m, n);
      }
    }
  }

  lemma IdsDiffer(events: seq<Event>, m: nat, n: nat)
    requires Chained(events) && m < |events| && n < |events| && m != n
    ensures events[m].id != events[n].id
  {
    var a, b := if m < n then m else n, if m < n then n else m;
    assert Continues(events[..b], events[b]);
    assert events[..b][a] == events[a];
  }

  lemma HeadsAre(events: seq<Event>, sr: Id, n: nat)
    requires Chained(events) && LastAt(events, sr, n)
    ensures Heads(events, sr) == {n}
  {
    hide Chained, HasSuccessor;
    LastHasNoSuccessor(events, sr, n);
    forall i | i in Heads(events, sr)
      ensures i == n
    {
      if i < n { OlderHasSuccessor(events, sr, i, n); }
    }
  }

  /** The anti-join head exists iff the request has events, is unique, and is its last appended event. */
  lemma HeadIsLast(events: seq<Event>, sr: Id)
    requires Chained(events)
    ensures Last(events, sr).None? ==> Heads(events, sr) == {}
    ensures Last(events, sr).Some? ==>
              |Heads(events, sr)| == 1 && events[Minimum(Heads(events, sr))] == Last(events, sr).value
  {
    hide Chained, Heads, Minimum;
    FindLast(events, sr);
    if Last(events, sr).Some? {
      var n :| LastAt(events, sr, n);
      HeadsAre(events, sr, n);
    } else {
      NoHeads(events, sr);
    }
  }

  lemma NoHeads(events: seq<Event>, sr: Id)
    requires forall i :: 0 <= i < |events| ==> events[i].sr != sr
    ensures Heads(events, sr) == {}
  {
  }

  lemma CurrentIsLast(db: Db, sr: Id)
    requires Chained(db.events) && sr in db.srs
    ensures Current(db, sr).Ok?
    ensures var s, last := Current(db, sr).value, Last(db.events, sr);
            && (s.latest.Some? <==> last.Some?)
            && (last.Some? ==> s.latest == Some((last.value.id, last.value.kind)))
            && (s.active.Some? <==> last.Some? && last.value.kind == Disappearance)
            && (s.active.Some? ==> s.active == Some(last.value.id))
  {
    HeadIsLast(db.events, sr);
  }

  lemma StepKeeps(db: Db, op: Op)
    requires Chained(db.events)
    ensures Chained(Apply(db, op).events) && db.events <= Apply(db, op).events
  {
    hide Chained, Heads;
    match op
    case DoDisappear(sr, _, _, id) =>
      if Apply(db, op) != db {
        CurrentIsLast(db, sr);
        var latest := Current(db, sr).value.latest;
        ChainedAppend(db.events, Event(id, sr, Disappearance, if latest.None? then None else Some(latest.value.0)));
      }
    case DoReappear(sr, _, _, id) =>
      if Apply(db, op) != db {
        CurrentIsLast(db, sr);
        ChainedAppend(db.events, Event(id, sr, Reappearance, Current(db, sr).value.active));
      }
    case DoElsewhere(_) =>
  }

  /** Over every run the events of each request are one alternating chain; the head never reports corruption. */
  lemma {:induction false} RunKeeps(db: Db, ops: seq<Op>)
    requires Chained(db.events)
    ensures Chained(Run(db, ops).events) && db.events <= Run(db, ops).events
    decreases |ops|
  {
    hide Chained, Apply;
    if ops != [] {
      StepKeeps(db, ops[0]);
      RunKeeps(Apply(db, ops[0]), ops[1..]);
    }
  }

  /** The warning is active exactly when the request's last event is a disappearance. */
  lemma WarningIffLastDisappeared(srs: map<Id, Identity>, ops: seq<Op>, sr: Id)
    requires sr in Run(Db(srs, []), ops).srs
    ensures var db := Run(Db(srs, []), ops);
            && Current(db, sr).Ok?
            && (Current(db, sr).value.active.Some? <==>
                Last(db.events, sr).Some? && Last(db.events, sr).value.kind == Disappearance)
            && (Current(db, sr).value.latest.Some? <==> exists i :: 0 <= i < |db.events| && db.events[i].sr == sr)
  {
    hide Run;
    RunKeeps(Db(srs, []), ops);
    var db := Run(Db(srs, []), ops);
    CurrentIsLast(db, sr);
    FindLast(db.events, sr);
    if Last(db.events, sr).Some? {
      var n :| LastAt(db.events, sr, n);
    }
  }

  /* ---- What the two services append ---- */

  predicate Missing(events: seq<Event>, sr: Id) {
    Last(events, sr).Some? && Last(events, sr).value.kind == Disappearance
  }

  /** A disappearance is appended exactly for a present request, under its current base and valid evidence. */
  lemma DisappearDoes(db: Db, sr: Id, token: Token, valid: bool, newId: Id)
    requires Chained(db.events)
    ensures var (d, r) := Disappear(db, sr, token, valid, newId);
            var last := Last(db.events, sr);
            && (r.Ok? <==>
                  && sr in db.srs && !Missing(db.events, sr) && valid && !Known(db.events, newId)
                  && token == BaseToken(sr, db.srs[sr], if last.None? then None else Some((last.value.id, last.value.kind))))
            && (r.Ok? ==> r.value == newId && d.srs == db.srs
                          && d.events == db.events + [Event(newId, sr, Disappearance,
                                                            if last.None? then None else Some(last.value.id))])
            && (r.Err? ==> d == db)
  {
    hide Chained;
    if sr in db.srs { CurrentIsLast(db, sr); }
  }

  /** A reappearance is appended exactly for a missing request, naming its last disappearance, under valid evidence. */
  lemma ReappearDoes(db: Db, sr: Id, expected: Id, valid: bool, newId: Id)
    requires Chained(db.events)
    ensures var (d, r) := Reappear(db, sr, expected, valid, newId);
            && (r.Ok? <==>
                  && sr in db.srs && Missing(db.events, sr) && Last(db.events, sr).value.id == expected && valid
                  && !Known(db.events, newId))
            && (r.Ok? ==> r.value == newId && d.srs == db.srs
                          && d.events == db.events + [Event(newId, sr, Reappearance, Some(expected))])
            && (r.Err? ==> d == db)
  {
    hide Chained;
    if sr in db.srs { CurrentIsLast(db, sr); }
  }

  /* ---- The service over its event table ---- */

  class PresenceService {
    var srs: map<Id, Identity>
    var events: seq<Event>

    constructor (db: Db)
      ensures Tables() == db
    {
      srs, events := db.srs, db.events;
    }

    function Tables(): Db
      reads this
    {
      Db(srs, events)
    }

    method AppendEvent(id: Id, sr: Id, kind: Kind, prior: Option<Id>)
      modifies `events
      ensures events == old(events) + [Event(id, sr, kind, prior)]
    {
      events := events + [Event(id, sr, kind, prior)];
    }

    method ApplyDisappearance(sr: Id, token: Token, valid: bool, newId: Id) returns (r: Result<Id, Error>)
      modifies `events
      ensures (Tables(), r) == Disappear(old(Tables()), sr, token, valid, newId)
    {
      hide Current;
      var state := Current(Tables(), sr);
      if state.Err? {
        return Err(state.error);
      }
      if state.value.token != token || state.value.active.Some? {
        return Err(Stale);
      }
      if !valid {
        return Err(Stale);
      }
      if Known(events, newId) {
        return Err(Persistence);
      }
      AppendEvent(newId, sr, Disappearance,
                  if state.value.latest.None? then None else Some(state.value.latest.value.0));
      return Ok(newId);
    }

    method ApplyReappearance(sr: Id, expected: Id, valid: bool, newId: Id) returns (r: Result<Id, Error>)
      modifies `events
      ensures (Tables(), r) == Reappear(old(Tables()), sr, expected, valid, newId)
    {
      hide Current;
      var state := Current(Tables(), sr);
      if state.Err? {
        return Err(state.error);
      }
      if state.value.active != Some(expected) || !valid {
        return Err(Stale);
      }
      if Known(events, newId) {
        return Err(Persistence);
      }
      AppendEvent(newId, sr, Reappearance, state.value.active);
      return Ok(newId);
    }
  }
}
