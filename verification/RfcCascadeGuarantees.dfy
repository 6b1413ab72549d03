/** What the source lifecycle and the terminal cascade promise in every reachable state. */
module RfcCascadeGuarantees {
  import opened Prelude
  import F = RfcForest
  import Forest = RfcForestSafety
  import Users = RfcForestGuarantees
  import A = RfcArchive
  import opened RfcCascade
  import opened RfcCascadeScope
  import opened RfcCascadeSafety

  const EMPTY := World(F.Forest(map[], map[], map[], map[], map[]), Cascade(map[], []), A.Log(map[], [], []))

  lemma EmptySound()
    ensures Sound(EMPTY)
  {
  }

  /** Over every run an RFC has a terminal epoch exactly while its status is terminal, and then a captured proposal. */
  lemma EpochIffTerminal(ops: seq<Op>, rfc: Id)
    requires AllFresh(EMPTY, ops) && rfc in Run(EMPTY, ops).c.projections
    ensures var c := Run(EMPTY, ops).c;
            && (c.projections[rfc].epoch.Some? <==> Terminal(c.projections[rfc].status))
            && (c.projections[rfc].epoch.Some? ==> HasProposal(c.proposals, rfc, c.projections[rfc].epoch.value))
  {
    hide Run, AllFresh, Evolves;
    EmptySound();
    RunMoves(EMPTY, ops);
    assert ProjectionOk(Run(EMPTY, ops).c.projections[rfc]);
  }

  /** At most one proposal of an RFC is pending, and it belongs to the RFC's current epoch. */
  lemma OnePendingPerRfc(ops: seq<Op>, i: nat, j: nat)
    requires AllFresh(EMPTY, ops)
    requires var ps := Run(EMPTY, ops).c.proposals;
             && i < |ps| && j < |ps| && ps[i].trigger == ps[j].trigger
             && ps[i].state == Pending && ps[j].state == Pending
    ensures i == j
    ensures var c := Run(EMPTY, ops).c;
            && c.proposals[i].trigger in c.projections
            && c.projections[c.proposals[i].trigger].epoch == Some(c.proposals[i].epoch)
  {
    hide Run, AllFresh, Evolves, Inv;
    EmptySound();
    RunMoves(EMPTY, ops);
    var c := Run(EMPTY, ops).c;
    PendingRow(c, i);
    PendingRow(c, j);
    OnePendingPerChain(c, i, j);
  }

  /**
   The proposals of one epoch, in insertion order, are a single refresh chain: all but the newest are superseded,
   each by the very command that created the next, and at most one is ever executed.
   */
  lemma EpochIsOneChain(ops: seq<Op>, i: nat, j: nat)
    requires AllFresh(EMPTY, ops)
    requires i < j < |Run(EMPTY, ops).c.proposals|
    requires SameChain(Run(EMPTY, ops).c.proposals[i], Run(EMPTY, ops).c.proposals[j])
    ensures var ps := Run(EMPTY, ops).c.proposals;
            && ps[i].state == Superseded && ps[i].executed.None?
            && (Adjacent(ps, i, j) ==> ps[i].superseded == Some(ps[j].created))
  {
    hide Run, AllFresh, Evolves;
    EmptySound();
    RunMoves(EMPTY, ops);
    assert ProposalOk(Run(EMPTY, ops).c.proposals[i]);
  }

  /** Once Enhanced RFC, always Enhanced RFC: no later step brings back provisional authority. */
  lemma EnhancedForever(ops: seq<Op>, later: seq<Op>, rfc: Id)
    requires AllFresh(EMPTY, ops) && AllFresh(Run(EMPTY, ops), later) && rfc in Run(EMPTY, ops).c.projections
    requires Run(EMPTY, ops).c.projections[rfc].authority == Some(F.EnhancedRfc)
    ensures rfc in Run(Run(EMPTY, ops), later).c.projections
    ensures Run(Run(EMPTY, ops), later).c.projections[rfc].authority == Some(F.EnhancedRfc)
  {
    hide Run, AllFresh, Inv;
    EmptySound();
    RunMoves(EMPTY, ops);
    RunMoves(Run(EMPTY, ops), later);
    assert ProjectionEvolves(Run(EMPTY, ops).c.projections[rfc], Run(Run(EMPTY, ops), later).c.projections[rfc]);
  }

  /** A status leaves the terminal classes only in an acceptance that carries a review. */
  lemma ReversalNeedsReview(w: World, op: Op, rfc: Id)
    requires Sound(w) && Fresh(w.c, op)
    requires IsTerminal(Current(w.c, rfc)) && !IsTerminal(Current(Apply(w, op).c, rfc))
    ensures op.DoApply? && op.rfc == rfc && op.reviewed
  {
    hide Inv, Evolves, Forest.Inv, F.Apply, ApplyDeltas, AcceptProvisional, Refresh, Execute, Moves;
    match op
    case DoApply(r, command, deltas, valid, reviewed, capturing, tasks, newEpoch, newId) =>
      ApplyDeltasMoves(w.f, w.c, r, command, deltas, valid, reviewed, capturing, tasks, newEpoch, newId);
    case DoProvisional(no, d, token, command, valid, tasks, newEpoch, newId) =>
      ProvisionalMoves(w.f, w.c, no, d, token, command, valid, tasks, newEpoch, newId);
    case DoRefresh(id, revision, tasks, command, newId) => RefreshMoves(w.f, w.c, id, revision, tasks, command, newId);
    case DoExecute(id, revision, tasks, consent, command) =>
      ExecuteMoves(w.f, w.c, id, revision, tasks, consent, command);
    case DoForest(fop) =>
  }

  /**
   A cascade executes only on an unchanged scope: the status, its evidence and epoch, the branch with every revision
   and the applicable WFMs are exactly what the proposal captured.
   */
  lemma ExecutesOnlyUnchanged(f: F.Forest, c: Cascade, id: Id, revision: nat, tasks: Tasks, consent: Consent,
                              command: Id)
    requires Inv(c) && Execute(f, c, id, revision, tasks, consent, command).result.Ok?
    ensures FindProposal(c.proposals, id).Some?
    ensures var i := FindProposal(c.proposals, id).value;
            var p := c.proposals[i];
            && p.state == Pending && p.revision == revision
            && Bound(c, p.trigger, p.epoch, p.status, p.evidence)
            && CaptureRfcs(f, p.trigger) == Ok(RfcScope(p.kind, p.rfcs))
            && tasks(MemberIds(p.rfcs)).Some?
            && multiset(tasks(MemberIds(p.rfcs)).value) == multiset(p.wfms)
            && (forall m :: m in p.rfcs ==> m.rfc in f.rfcs && f.rfcs[m.rfc].revision == m.revision)
            && Execute(f, c, id, revision, tasks, consent, command).after == MarkExecuted(c, i, command)
  {
    hide Inv, CaptureRfcs, Normalize, MembersOk, IdSet, ConsentFault;
    var p := c.proposals[FindProposal(c.proposals, id).value];
    NormalizeIdempotent(tasks(MemberIds(p.rfcs)).value, IdSet(p.rfcs));
    CapturedRevisions(f, p.trigger);
  }

  lemma CapturedRevisions(f: F.Forest, trigger: Id)
    requires CaptureRfcs(f, trigger).Ok?
    ensures forall m :: m in CaptureRfcs(f, trigger).value.members ==>
              m.rfc in f.rfcs && f.rfcs[m.rfc].revision == m.revision
  {
    hide Ascending;
    var ms := CaptureRfcs(f, trigger).value.members;
    if ms[0].role != SubordinateRole {
      var ids := Ascending(F.Children(f, trigger) * f.rfcs.Keys);
      assert ms == [ms[0]] + ChildMembers(f, ids);
      forall i | 1 <= i < |ms|
        ensures ms[i].rfc in f.rfcs && f.rfcs[ms[i].rfc].revision == ms[i].revision
      {
        assert ms[i] == ChildMembers(f, ids)[i - 1] && ids[i - 1] in ids;
      }
    }
  }

  /** Any later change to a captured RFC, by whichever service, blocks the execution. */
  lemma ChangedMemberBlocksExecution(w: World, between: seq<Op>, i: nat, m: RfcMember, revision: nat, tasks: Tasks,
                                     consent: Consent, command: Id)
    requires Sound(w) && AllFresh(w, between) && i < |w.c.proposals| && m in w.c.proposals[i].rfcs
    requires m.rfc in w.f.rfcs && m.revision < w.f.rfcs[m.rfc].revision
    ensures var v := Run(w, between); Execute(v.f, v.c, w.c.proposals[i].id, revision, tasks, consent, command).result.Err?
  {
    hide Run, AllFresh, Inv, Execute, Forest.Inv, MarkExecuted;
    RunMoves(w, between);
    var v := Run(w, between);
    var p := w.c.proposals[i];
    if Execute(v.f, v.c, p.id, revision, tasks, consent, command).result.Ok? {
      ExecutesOnlyUnchanged(v.f, v.c, p.id, revision, tasks, consent, command);
      assert ProposalEvolves(p, v.c.proposals[i]);
      SameId(v.c, i, FindProposal(v.c.proposals, p.id).value);
    }
  }

  lemma SameId(c: Cascade, i: nat, j: nat)
    requires Inv(c) && i < |c.proposals| && j < |c.proposals| && c.proposals[i].id == c.proposals[j].id
    ensures i == j
  {
  }

  /**
   No lost update across all services: a hierarchy, link or Customer command prepared against a superseded revision of
   an RFC changes nothing, whatever ran in between, archives and restores included.
   */
  lemma StaleCommandsChangeNothing(w: World, between: seq<Op>, op: F.Op, id: Id, rev: nat)
    requires Sound(w) && AllFresh(w, between)
    requires id in w.f.rfcs && rev < w.f.rfcs[id].revision && Users.Expects(op, id, rev)
    ensures Apply(Run(w, between), DoForest(op)) == Run(w, between)
  {
    hide Run, AllFresh, Inv, Forest.Inv, F.Apply, Users.Expects;
    RunMoves(w, between);
    Users.StaleBaseRefused(Run(w, between).f, op, id, rev);
  }

  /** And the archive log still agrees with the state of every RFC. */
  lemma ArchiveStateAlwaysLogged(ops: seq<Op>, rfc: Id)
    requires AllFresh(EMPTY, ops) && rfc in Run(EMPTY, ops).f.rfcs
    ensures Run(EMPTY, ops).f.rfcs[rfc].archived <==> A.EndsArchived(Run(EMPTY, ops).log.events, rfc)
  {
    hide Run, AllFresh;
    assert Sound(EMPTY);
    RunMoves(EMPTY, ops);
  }

  /** A settled proposal stays settled: later executions and refreshes of it are refused and change nothing. */
  lemma SettledOnce(w: World, i: nat, ops: seq<Op>, revision: nat, tasks: Tasks, consent: Consent, command: Id, newId: Id)
    requires Sound(w) && AllFresh(w, ops) && i < |w.c.proposals| && w.c.proposals[i].state != Pending
    ensures var v := Run(w, ops);
            var id := w.c.proposals[i].id;
            && i < |v.c.proposals| && v.c.proposals[i] == w.c.proposals[i]
            && Execute(v.f, v.c, id, revision, tasks, consent, command) == Step(v.c, Err(NotPending))
            && Refresh(v.f, v.c, id, revision, tasks, command, newId) == Step(v.c, Err(NotPending))
  {
    hide Run, AllFresh, Inv, CaptureScope, Forest.Inv;
    RunMoves(w, ops);
    var v := Run(w, ops);
    assert ProposalEvolves(w.c.proposals[i], v.c.proposals[i]);
    SameId(v.c, i, FindProposal(v.c.proposals, w.c.proposals[i].id).value);
  }

  /* ---- What a set of deltas means ---- */

  predicate DistinctFields(deltas: seq<Delta>) {
    forall i, j :: 0 <= i < j < |deltas| ==> deltas[i].field != deltas[j].field
  }

  predicate AllAccepted(deltas: seq<Delta>, valid: Delta -> bool) {
    forall d :: d in deltas ==> ShapeOk(d) && valid(d)
  }

  /** The delta at stake for one field: the one that is not skipped. */
  predicate Chooses(current: Option<Projection>, deltas: seq<Delta>, d: Delta) {
    d in deltas && !Skipped(current, d)
  }

  ghost predicate Means(current: Option<Projection>, deltas: seq<Delta>, ch: Changes, r: Changes) {
    && (forall k :: k in r.facts <==> k in ch.facts || exists d :: Chooses(current, deltas, d) && d.field == k)
    && (forall d :: Chooses(current, deltas, d) ==>
          && d.field in r.facts && r.facts[d.field] == Fact(d.value, d.evidence)
          && (d.field == Status ==> r.status == Some(d)))
    && (forall k :: k in ch.facts && (forall d :: Chooses(current, deltas, d) ==> d.field != k) ==>
          k in r.facts && r.facts[k] == ch.facts[k])
    && ((forall d :: Chooses(current, deltas, d) ==> d.field != Status) ==> r.status == ch.status)
  }

  /** The loop accepts exactly the well-shaped, valid deltas of different fields, and changes exactly what they choose. */
  lemma {:induction false} AcceptMeans(current: Option<Projection>, deltas: seq<Delta>, valid: Delta -> bool,
                                       seen: set<Field>, ch: Changes)
    ensures var r := Accept(current, deltas, valid, seen, ch);
            && (r.Ok? <==> AllAccepted(deltas, valid) && DistinctFields(deltas)
                           && forall d :: d in deltas ==> d.field !in seen)
            && (r.Ok? ==> Means(current, deltas, ch, r.value))
    decreases |deltas|
  {
    hide ShapeOk, Skipped;
    if deltas != [] {
      var d := deltas[0];
      assert d in deltas && deltas == [d] + deltas[1..];
      if ShapeOk(d) && d.field !in seen && valid(d) {
        var next := if Skipped(current, d) then ch else Change(ch, d);
        AcceptMeans(current, deltas[1..], valid, seen + {d.field}, next);
        RestOk(deltas, valid, seen);
        var r := Accept(current, deltas, valid, seen, ch);
        if r.Ok? {
          MeansOfRest(current, deltas, ch, r.value);
        }
      }
    }
  }

  lemma RestOk(deltas: seq<Delta>, valid: Delta -> bool, seen: set<Field>)
    requires deltas != [] && ShapeOk(deltas[0]) && valid(deltas[0]) && deltas[0].field !in seen
    ensures AllAccepted(deltas, valid) && DistinctFields(deltas) && (forall d :: d in deltas ==> d.field !in seen)
       <==> AllAccepted(deltas[1..], valid) && DistinctFields(deltas[1..])
            && (forall d :: d in deltas[1..] ==> d.field !in seen + {deltas[0].field})
  {
    hide ShapeOk;
    var rest := deltas[1..];
    assert deltas == [deltas[0]] + rest;
    if DistinctFields(deltas) {
      forall d | d in rest
        ensures d.field != deltas[0].field
      {
        var i :| 0 <= i < |rest| && rest[i] == d;
        assert deltas[i + 1] == d;
      }
    }
    if DistinctFields(rest) && forall d :: d in rest ==> d.field != deltas[0].field {
      forall i, j | 0 <= i < j < |deltas|
        ensures deltas[i].field != deltas[j].field
      {
        assert deltas[j] == rest[j - 1] && deltas[j] in rest;
      }
    }
  }

  lemma MeansOfRest(current: Option<Projection>, deltas: seq<Delta>, ch: Changes, r: Changes)
    requires deltas != [] && forall d :: d in deltas[1..] ==> d.field != deltas[0].field
    requires Means(current, deltas[1..], if Skipped(current, deltas[0]) then ch else Change(ch, deltas[0]), r)
    ensures Means(current, deltas, ch, r)
  {
    hide Skipped, Means;
    var first, rest := deltas[0], deltas[1..];
    assert deltas == [first] + rest;
    assert forall d :: Chooses(current, rest, d) ==> d in rest;
    if Skipped(current, first) {
      assert forall d :: Chooses(current, deltas, d) <==> Chooses(current, rest, d);
      MeansSame(current, rest, deltas, ch, r);
    } else {
      assert forall d :: Chooses(current, deltas, d) <==> Chooses(current, rest, d) || d == first;
      MeansChanged(current, rest, deltas, first, ch, r);
    }
  }

  lemma MeansSame(current: Option<Projection>, a: seq<Delta>, b: seq<Delta>, ch: Changes, r: Changes)
    requires Means(current, a, ch, r) && forall d :: Chooses(current, b, d) <==> Chooses(current, a, d)
    ensures Means(current, b, ch, r)
  {
    hide Chooses;
  }

  /** One more chosen delta, for a field the others leave alone. */
  lemma MeansChanged(current: Option<Projection>, a: seq<Delta>, b: seq<Delta>, first: Delta, ch: Changes, r: Changes)
    requires Means(current, a, Change(ch, first), r)
    requires forall d :: Chooses(current, b, d) <==> Chooses(current, a, d) || d == first
    requires forall d :: Chooses(current, a, d) ==> d.field != first.field
    ensures Means(current, b, ch, r)
  {
    hide Chooses;
    assert Chooses(current, b, first);
    forall k
      ensures k in r.facts <==> k in ch.facts || exists d :: Chooses(current, b, d) && d.field == k
    {
      if d :| Chooses(current, a, d) && d.field == k {
        assert Chooses(current, b, d);
      }
    }
    forall k | k in ch.facts && forall d :: Chooses(current, b, d) ==> d.field != k
      ensures k in r.facts && r.facts[k] == ch.facts[k]
    {
      assert k != first.field;
    }
  }

  lemma MeansUnique(current: Option<Projection>, a: seq<Delta>, b: seq<Delta>, ch: Changes, r: Changes, s: Changes)
    requires Means(current, a, ch, r) && Means(current, b, ch, s) && forall d :: d in a <==> d in b
    ensures r == s
  {
    hide Skipped;
    forall d
      ensures Chooses(current, a, d) == Chooses(current, b, d)
    {
    }
    forall k
      ensures k in r.facts <==> k in s.facts
      ensures k in r.facts ==> r.facts[k] == s.facts[k]
    {
      if d :| Chooses(current, a, d) && d.field == k {
        assert Chooses(current, b, d);
      }
    }
    if d :| Chooses(current, a, d) && d.field == Status {
      assert Chooses(current, b, d);
    }
  }

  /** The order in which the accepted deltas of one command are listed does not matter. */
  lemma DeltaOrderIrrelevant(f: F.Forest, c: Cascade, rfc: Id, command: Id, a: seq<Delta>, b: seq<Delta>,
                             valid: Delta -> bool, reviewed: bool, capturing: bool, tasks: Tasks, newEpoch: Id, newId: Id)
    requires multiset(a) == multiset(b)
    ensures ApplyDeltas(f, c, rfc, command, a, valid, reviewed, capturing, tasks, newEpoch, newId)
         == ApplyDeltas(f, c, rfc, command, b, valid, reviewed, capturing, tasks, newEpoch, newId)
  {
    hide ApplyChanges, Means, ShapeOk;
    var current := Current(c, rfc);
    assert |a| == |multiset(a)| == |multiset(b)| == |b|;
    AcceptMeans(current, a, valid, {}, NOTHING);
    AcceptMeans(current, b, valid, {}, NOTHING);
    SameElements(a, b);
    DistinctFieldsPermute(a, b);
    DistinctFieldsPermute(b, a);
    var x, y := Accept(current, a, valid, {}, NOTHING), Accept(current, b, valid, {}, NOTHING);
    if x.Ok? {
      MeansUnique(current, a, b, NOTHING, x.value, y.value);
    } else {
      OnlyInvalid(current, a, valid, {}, NOTHING);
      OnlyInvalid(current, b, valid, {}, NOTHING);
    }
  }

  lemma {:induction false} OnlyInvalid(current: Option<Projection>, deltas: seq<Delta>, valid: Delta -> bool,
                                       seen: set<Field>, ch: Changes)
    ensures Accept(current, deltas, valid, seen, ch).Err? ==>
              Accept(current, deltas, valid, seen, ch) == Err(ProjectionInvalid)
    decreases |deltas|
  {
    if deltas != [] {
      OnlyInvalid(current, deltas[1..], valid, seen + {deltas[0].field},
                  if Skipped(current, deltas[0]) then ch else Change(ch, deltas[0]));
    }
  }

  lemma SameElements(a: seq<Delta>, b: seq<Delta>)
    requires multiset(a) == multiset(b)
    ensures forall d :: d in a <==> d in b
  {
    forall d
      ensures d in a <==> d in b
    {
      assert d in a <==> d in multiset(a);
      assert d in b <==> d in multiset(b);
    }
  }

  lemma DistinctFieldsPermute(a: seq<Delta>, b: seq<Delta>)
    requires multiset(a) == multiset(b)
    ensures DistinctFields(a) ==> DistinctFields(b)
  {
    forall i, j | 0 <= i < j < |b| && DistinctFields(a)
      ensures b[i].field != b[j].field
    {
      var k, l := PermutedPair(a, b, i, j);
    }
  }
}
