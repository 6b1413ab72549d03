/** Terminal epochs and their proposal chains, over every run of source acceptance, refresh, execution and hierarchy. */
module RfcCascadeSafety {
  import opened Prelude
  import F = RfcForest
  import Forest = RfcForestSafety
  import A = RfcArchive
  import opened RfcCascade
  import opened RfcCascadeScope

  /** A terminal epoch exactly while terminal; an accepted status always has its authority and evidence. */
  ghost predicate ProjectionOk(p: Projection) {
    && (p.epoch.Some? <==> Terminal(p.status))
    && (p.authority.Some? <==> p.status != F.Unknown)
    && (Status in p.facts <==> p.status != F.Unknown)
  }

  ghost predicate ProposalOk(p: Proposal) {
    && SnapshotOk(p) && Terminal(p.status)
    && (p.state == Superseded <==> p.superseded.Some?) && (p.state == Executed <==> p.executed.Some?)
    && p.revision == if p.state == Pending then 1 else 2
  }

  predicate SameChain(p: Proposal, q: Proposal) {
    p.trigger == q.trigger && p.epoch == q.epoch
  }

  /** No proposal of the same epoch was inserted strictly between the two. */
  ghost predicate Adjacent(ps: seq<Proposal>, i: nat, j: nat)
    requires i < j < |ps|
  {
    SameChain(ps[i], ps[j]) && forall k :: i < k < j ==> !SameChain(ps[i], ps[k])
  }

  /** In one epoch only the newest proposal may be pending or executed; every older one gave way to the next. */
  ghost predicate ChainsOk(ps: seq<Proposal>) {
    && (forall i, j :: 0 <= i < j < |ps| && SameChain(ps[i], ps[j]) ==> ps[i].state == Superseded)
    && (forall i, j :: 0 <= i < j < |ps| && Adjacent(ps, i, j) ==> ps[i].superseded == Some(ps[j].created))
    && (forall i, j :: 0 <= i < j < |ps| ==> ps[i].id != ps[j].id)
  }

  /** A pending proposal belongs to its trigger's current epoch. */
  ghost predicate PendingCurrent(c: Cascade) {
    forall i :: 0 <= i < |c.proposals| && c.proposals[i].state == Pending ==>
      && c.proposals[i].trigger in c.projections
      && c.projections[c.proposals[i].trigger].epoch == Some(c.proposals[i].epoch)
  }

  predicate HasProposal(ps: seq<Proposal>, rfc: Id, epoch: Id) {
    exists i :: 0 <= i < |ps| && ps[i].trigger == rfc && ps[i].epoch == epoch
  }

  /** Every epoch was opened with a captured proposal. */
  ghost predicate EpochsCaptured(c: Cascade) {
    forall rfc :: rfc in c.projections && c.projections[rfc].epoch.Some? ==>
      HasProposal(c.proposals, rfc, c.projections[rfc].epoch.value)
  }

  ghost predicate RowsOk(c: Cascade) {
    && (forall rfc :: rfc in c.projections ==> ProjectionOk(c.projections[rfc]))
    && (forall i :: 0 <= i < |c.proposals| ==> ProposalOk(c.proposals[i]))
  }

  ghost predicate Inv(c: Cascade) {
    RowsOk(c) && ChainsOk(c.proposals) && PendingCurrent(c) && EpochsCaptured(c)
  }

  /** What no step undoes: proposals are kept with their captured scope, settled ones unchanged; a projection keeps
      its Enhanced RFC authority and its revision only grows. */
  ghost predicate Evolves(c: Cascade, d: Cascade) {
    && |c.proposals| <= |d.proposals|
    && (forall i :: 0 <= i < |c.proposals| ==> ProposalEvolves(c.proposals[i], d.proposals[i]))
    && c.projections.Keys <= d.projections.Keys
    && (forall rfc :: rfc in c.projections ==> ProjectionEvolves(c.projections[rfc], d.projections[rfc]))
  }

  ghost predicate ProposalEvolves(p: Proposal, q: Proposal) {
    && q == p.(state := q.state, revision := q.revision, executed := q.executed, superseded := q.superseded)
    && (p.state != Pending ==> q == p)
  }

  ghost predicate ProjectionEvolves(p: Projection, q: Projection) {
    && p.revision <= q.revision && (p.revision == q.revision ==> q == p)
    && p.facts.Keys <= q.facts.Keys
    && (p.authority == Some(F.EnhancedRfc) ==> q.authority == Some(F.EnhancedRfc))
  }

  ghost predicate Moves(c: Cascade, d: Cascade) {
    Inv(d) && Evolves(c, d)
  }

  lemma StayMoves(c: Cascade)
    requires Inv(c)
    ensures Moves(c, c)
  {
  }

  lemma EvolvesTransitive(c: Cascade, d: Cascade, e: Cascade)
    requires Evolves(c, d) && Evolves(d, e)
    ensures Evolves(c, e)
  {
  }

  /* ---- Proposal writes ---- */

  /** The proposal is the newest of its epoch. */
  ghost predicate Newest(ps: seq<Proposal>, i: nat) {
    i < |ps| && forall j :: i < j < |ps| ==> !SameChain(ps[i], ps[j])
  }

  lemma PendingIsNewest(ps: seq<Proposal>, i: nat)
    requires ChainsOk(ps) && i < |ps| && ps[i].state == Pending
    ensures Newest(ps, i)
  {
  }

  /** Settling a pending proposal, whichever way. */
  ghost predicate Settles(p: Proposal, q: Proposal) {
    && p.state == Pending && q.revision == 2
    && q == p.(state := q.state, revision := q.revision, executed := q.executed, superseded := q.superseded)
    && ((q.state == Superseded && q.superseded.Some? && q.executed.None?)
        || (q.state == Executed && q.executed.Some? && q.superseded.None?))
  }

  lemma SettleChains(ps: seq<Proposal>, i: nat, q: Proposal)
    requires ChainsOk(ps) && i < |ps| && Settles(ps[i], q)
    ensures ChainsOk(ps[i := q])
  {
    var qs := ps[i := q];
    forall a, b | 0 <= a < b < |qs| && SameChain(qs[a], qs[b])
      ensures qs[a].state == Superseded
    {
      assert SameChain(ps[a], ps[b]);
    }
    forall a, b | 0 <= a < b < |qs| && Adjacent(qs, a, b)
      ensures qs[a].superseded == Some(qs[b].created)
    {
      assert SameChain(ps[a], ps[b]);
      forall k | a < k < b
        ensures !SameChain(ps[a], ps[k])
      {
        assert !SameChain(qs[a], qs[k]);
      }
      assert Adjacent(ps, a, b);
    }
  }

  lemma SettleMoves(c: Cascade, i: nat, q: Proposal)
    requires Inv(c) && i < |c.proposals| && Settles(c.proposals[i], q)
    ensures Moves(c, c.(proposals := c.proposals[i := q]))
  {
    hide SnapshotOk;
    var d := c.(proposals := c.proposals[i := q]);
    SettleChains(c.proposals, i, q);
    SameSnapshot(c.proposals[i], q);
    forall rfc | rfc in d.projections && d.projections[rfc].epoch.Some?
      ensures HasProposal(d.proposals, rfc, d.projections[rfc].epoch.value)
    {
      var k :| 0 <= k < |c.proposals| && c.proposals[k].trigger == rfc
               && c.proposals[k].epoch == c.projections[rfc].epoch.value;
      assert d.proposals[k].trigger == rfc;
    }
  }

  lemma SameSnapshot(p: Proposal, q: Proposal)
    requires q == p.(state := q.state, revision := q.revision, executed := q.executed, superseded := q.superseded)
    ensures SnapshotOk(q) == SnapshotOk(p)
  {
    assert MembersOk(q) == MembersOk(p);
  }

  /** The chain a new proposal joins has given way to it: nothing of its epoch, or a newest one superseded by its command. */
  ghost predicate Joins(ps: seq<Proposal>, p: Proposal) {
    forall i :: 0 <= i < |ps| && SameChain(ps[i], p) ==>
      ps[i].state == Superseded && (Newest(ps, i) ==> ps[i].superseded == Some(p.created))
  }

  lemma InsertChains(ps: seq<Proposal>, p: Proposal)
    requires ChainsOk(ps) && Joins(ps, p) && forall i :: 0 <= i < |ps| ==> ps[i].id != p.id
    ensures ChainsOk(ps + [p])
  {
    var qs := ps + [p];
    forall a, b | 0 <= a < b < |qs| && SameChain(qs[a], qs[b])
      ensures qs[a].state == Superseded
    {
      assert b < |ps| ==> SameChain(ps[a], ps[b]);
    }
    forall a, b | 0 <= a < b < |qs| && Adjacent(qs, a, b)
      ensures qs[a].superseded == Some(qs[b].created)
    {
      if b < |ps| {
        forall k | a < k < b
          ensures !SameChain(ps[a], ps[k])
        {
          assert !SameChain(qs[a], qs[k]);
        }
        assert Adjacent(ps, a, b);
      } else {
        forall j | a < j < |ps|
          ensures !SameChain(ps[a], ps[j])
        {
          assert !SameChain(qs[a], qs[j]);
        }
        assert Newest(ps, a);
      }
    }
  }

  lemma InsertMoves(c: Cascade, p: Proposal)
    requires Inv(c) && ProposalOk(p) && p.state == Pending && Joins(c.proposals, p)
    requires forall i :: 0 <= i < |c.proposals| ==> c.proposals[i].id != p.id
    requires p.trigger in c.projections && c.projections[p.trigger].epoch == Some(p.epoch)
    ensures Moves(c, Insert(c, p))
  {
    hide ProposalOk, ProjectionOk;
    var d := Insert(c, p);
    InsertChains(c.proposals, p);
    forall rfc | rfc in d.projections && d.projections[rfc].epoch.Some?
      ensures HasProposal(d.proposals, rfc, d.projections[rfc].epoch.value)
    {
      var k :| 0 <= k < |c.proposals| && c.proposals[k].trigger == rfc
               && c.proposals[k].epoch == c.projections[rfc].epoch.value;
      assert d.proposals[k] == c.proposals[k];
    }
  }

  /* ---- Refresh and execution ---- */

  lemma NewProposalOk(f: F.Forest, c: Cascade, trigger: Id, epoch: Id, status: StatusClass, evidence: Id, tasks: Tasks,
                      id: Id, command: Id)
    requires CaptureScope(f, c, trigger, epoch, status, evidence, tasks).Ok?
    ensures var p := NewProposal(id, CaptureScope(f, c, trigger, epoch, status, evidence, tasks).value, command);
            && ProposalOk(p) && p.state == Pending && p.created == command && p.id == id
            && p.trigger == trigger && p.epoch == epoch && p.status == status && p.evidence == evidence
            && trigger in IdSet(p.rfcs) && Bound(c, trigger, epoch, status, evidence)
  {
    hide SnapshotOk, CaptureRfcs, Normalize;
    CapturedSnapshotOk(f, c, trigger, epoch, status, evidence, tasks, id, command);
  }

  /** A refresh extends the chain by exactly one link: the old proposal gives way to the new one under one command. */
  lemma RefreshMoves(f: F.Forest, c: Cascade, id: Id, revision: nat, tasks: Tasks, command: Id, newId: Id)
    requires Inv(c)
    ensures Moves(c, Refresh(f, c, id, revision, tasks, command, newId).after)
    ensures Refresh(f, c, id, revision, tasks, command, newId).after.projections == c.projections
  {
    hide Inv, Evolves, CaptureScope, ProposalOk, CurrentBinding;
    StayMoves(c);
    var s := Refresh(f, c, id, revision, tasks, command, newId);
    if s.after != c {
      var i := FindProposal(c.proposals, id).value;
      var p := c.proposals[i];
      var binding := CurrentBinding(c, p).value;
      var q := NewProposal(newId, CaptureScope(f, c, p.trigger, p.epoch, binding.0, binding.1, tasks).value, command);
      NewProposalOk(f, c, p.trigger, p.epoch, binding.0, binding.1, tasks, newId, command);
      PendingRow(c, i);
      ReplaceMoves(c, i, q, command);
    }
  }

  lemma ReplaceMoves(c: Cascade, i: nat, q: Proposal, command: Id)
    requires Inv(c) && i < |c.proposals| && c.proposals[i].state == Pending && c.proposals[i].revision == 1
    requires c.proposals[i].executed.None?
    requires ProposalOk(q) && q.state == Pending && q.created == command && SameChain(c.proposals[i], q)
    requires forall k :: 0 <= k < |c.proposals| ==> c.proposals[k].id != q.id
    requires q.trigger in c.projections && c.projections[q.trigger].epoch == Some(q.epoch)
    ensures Moves(c, Insert(Supersede(c, i, command), q))
  {
    hide ProposalOk, Evolves;
    var d := Supersede(c, i, command);
    SettleMoves(c, i, d.proposals[i]);
    PendingIsNewest(c.proposals, i);
    forall k | 0 <= k < |d.proposals| && SameChain(d.proposals[k], q)
      ensures d.proposals[k].state == Superseded
      ensures Newest(d.proposals, k) ==> d.proposals[k].superseded == Some(command)
    {
      assert SameChain(c.proposals[k], c.proposals[i]);
      if k < i {
        assert SameChain(d.proposals[k], d.proposals[i]);
      }
    }
    InsertMoves(d, q);
    EvolvesTransitive(c, d, Insert(d, q));
  }

  /** Execution settles the one pending proposal and touches nothing else. */
  lemma ExecuteMoves(f: F.Forest, c: Cascade, id: Id, revision: nat, tasks: Tasks, consent: Consent, command: Id)
    requires Inv(c)
    ensures Moves(c, Execute(f, c, id, revision, tasks, consent, command).after)
    ensures Execute(f, c, id, revision, tasks, consent, command).after.projections == c.projections
    ensures Execute(f, c, id, revision, tasks, consent, command).result != Err(Persistence) || !Forest.Inv(f)
  {
    hide Inv, Evolves, CaptureScope, SnapshotOk, Forest.Inv;
    StayMoves(c);
    var s := Execute(f, c, id, revision, tasks, consent, command);
    var found := LoadPending(c, id, revision);
    if found.Ok? {
      var i := found.value;
      PendingRow(c, i);
      SettleMoves(c, i, MarkExecuted(c, i, command).proposals[i]);
      var p := c.proposals[i];
      if Forest.Inv(f) { CaptureScopeSound(f, c, p.trigger, p.epoch, p.status, p.evidence, tasks); }
    }
  }

  lemma PendingRow(c: Cascade, i: nat)
    requires Inv(c) && i < |c.proposals| && c.proposals[i].state == Pending
    ensures SnapshotOk(c.proposals[i]) && c.proposals[i].revision == 1
    ensures c.proposals[i].executed.None? && c.proposals[i].superseded.None?
    ensures c.proposals[i].trigger in c.projections
    ensures c.projections[c.proposals[i].trigger].epoch == Some(c.proposals[i].epoch)
  {
    assert ProposalOk(c.proposals[i]);
  }

  lemma CaptureScopeSound(f: F.Forest, c: Cascade, trigger: Id, epoch: Id, status: StatusClass, evidence: Id,
                          tasks: Tasks)
    requires Forest.Inv(f)
    ensures CaptureScope(f, c, trigger, epoch, status, evidence, tasks) != Err(Persistence)
  {
    hide Forest.Inv, CaptureRfcs, Capturable, Normalize;
    CaptureRfcsErrors(f, trigger);
    NormalizeErrors();
  }

  lemma CaptureRfcsErrors(f: F.Forest, trigger: Id)
    requires Forest.Inv(f)
    ensures CaptureRfcs(f, trigger) != Err(Persistence)
  {
    if trigger in f.rfcs {
      CaptureRfcsSound(f, trigger);
    }
  }

  lemma NormalizeErrors()
    ensures forall raw, allowed :: Normalize(raw, allowed) != Err(Persistence)
  {
  }

  /* ---- Accepted deltas ---- */

  ghost predicate ChangesOk(ch: Changes) {
    && (Status in ch.facts <==> ch.status.Some?)
    && (ch.status.Some? ==> && ShapeOk(ch.status.value) && ch.status.value.field == Status
                            && ch.facts[Status] == Fact(ch.status.value.value, ch.status.value.evidence))
  }

  /** A change to the status is never provisional over Enhanced RFC. */
  ghost predicate RespectsAuthority(current: Option<Projection>, ch: Changes) {
    current.Some? && current.value.authority == Some(F.EnhancedRfc) && ch.status.Some? ==>
      ch.status.value.authority == Some(F.EnhancedRfc)
  }

  lemma {:induction false} AcceptSound(current: Option<Projection>, deltas: seq<Delta>, valid: Delta -> bool,
                                       seen: set<Field>, ch: Changes)
    requires ChangesOk(ch) && RespectsAuthority(current, ch)
    ensures var r := Accept(current, deltas, valid, seen, ch);
            r.Ok? ==> ChangesOk(r.value) && RespectsAuthority(current, r.value)
    decreases |deltas|
  {
    if deltas != [] && ShapeOk(deltas[0]) && deltas[0].field !in seen && valid(deltas[0]) {
      assert deltas[0].authority.Some? ==> deltas[0].authority.value in {F.EnhancedRfc, F.WfmProvisional} by {
        match deltas[0].authority case Some(a) => match a { case EnhancedRfc => case WfmProvisional => } case None =>
      }
      AcceptSound(current, deltas[1..], valid, seen + {deltas[0].field},
                  if Skipped(current, deltas[0]) then ch else Change(ch, deltas[0]));
    }
  }

  /** `new_uuid4` returned an epoch identity that no proposal carries. */
  predicate FreshEpoch(c: Cascade, epoch: Id) {
    forall i :: 0 <= i < |c.proposals| ==> c.proposals[i].epoch != epoch
  }

  lemma MergeSound(current: Option<Projection>, ch: Changes, turn: Turn, newEpoch: Id)
    requires ChangesOk(ch) && RespectsAuthority(current, ch)
    requires current.Some? ==> ProjectionOk(current.value)
    requires turn == TurnOf(current, ch) && TurnFault(turn, current, true, true).None?
    ensures var p := Merge(current, ch, NextEpoch(turn, current, newEpoch));
            && ProjectionOk(p) && (current.Some? ==> ProjectionEvolves(current.value, p))
  {
  }

  /** Writing the projection alone: sound but for a newly opened epoch, whose proposal is still to be captured. */
  ghost predicate AlmostInv(c: Cascade, rfc: Id, epoch: Option<Id>) {
    && RowsOk(c) && ChainsOk(c.proposals) && PendingCurrent(c)
    && (forall r :: r in c.projections && c.projections[r].epoch.Some? && !(r == rfc && epoch == c.projections[r].epoch)
          ==> HasProposal(c.proposals, r, c.projections[r].epoch.value))
  }

  lemma ProjectMoves(c: Cascade, rfc: Id, p: Projection, opening: Option<Id>)
    requires Inv(c) && ProjectionOk(p)
    requires rfc in c.projections ==> ProjectionEvolves(c.projections[rfc], p)
    requires forall i :: 0 <= i < |c.proposals| && c.proposals[i].trigger == rfc && c.proposals[i].state == Pending ==>
                           p.epoch == Some(c.proposals[i].epoch)
    requires p.epoch.None? || p.epoch == opening || (rfc in c.projections && c.projections[rfc].epoch == p.epoch)
    ensures var d := c.(projections := c.projections[rfc := p]);
            AlmostInv(d, rfc, opening) && Evolves(c, d) && (opening.None? ==> Inv(d))
  {
    hide ProposalOk, ProjectionOk;
    var d := c.(projections := c.projections[rfc := p]);
    forall r | r in d.projections && d.projections[r].epoch.Some? && !(r == rfc && opening == d.projections[r].epoch)
      ensures HasProposal(d.proposals, r, d.projections[r].epoch.value)
    {
      assert r in c.projections && c.projections[r].epoch == d.projections[r].epoch;
    }
  }

  /** A reversal leaves nothing pending for the trigger. */
  lemma EndEpochMoves(c: Cascade, rfc: Id, epoch: Id, command: Id)
    requires Inv(c) && rfc in c.projections && c.projections[rfc].epoch == Some(epoch)
    ensures var d := EndEpoch(c, rfc, epoch, command);
            && Moves(c, d) && d.projections == c.projections
            && forall i :: 0 <= i < |d.proposals| && d.proposals[i].trigger == rfc ==> d.proposals[i].state != Pending
  {
    hide ProposalOk, ProjectionOk, ChainsOk;
    StayMoves(c);
    var i := FindPending(c.proposals, rfc, epoch);
    var d := EndEpoch(c, rfc, epoch, command);
    if i.Some? {
      PendingRow(c, i.value);
      SettleMoves(c, i.value, d.proposals[i.value]);
    }
    forall k | 0 <= k < |d.proposals| && d.proposals[k].trigger == rfc
      ensures d.proposals[k].state != Pending
    {
      if c.proposals[k].state == Pending {
        PendingRow(c, k);
        OnePendingPerChain(c, k, i.value);
      }
    }
  }

  lemma OnePendingPerChain(c: Cascade, i: nat, j: nat)
    requires Inv(c) && i < |c.proposals| && j < |c.proposals| && SameChain(c.proposals[i], c.proposals[j])
    requires c.proposals[i].state != Superseded && c.proposals[j].state != Superseded
    ensures i == j
  {
    assert SameChain(c.proposals[j], c.proposals[i]);
  }

  lemma PendingNeedsEpoch(c: Cascade, rfc: Id)
    requires Inv(c) && (rfc !in c.projections || c.projections[rfc].epoch.None?)
    ensures forall i :: 0 <= i < |c.proposals| && c.proposals[i].trigger == rfc ==> c.proposals[i].state != Pending
  {
  }

  lemma WriteMoves(c: Cascade, rfc: Id, ch: Changes, newEpoch: Id, command: Id)
    requires Inv(c) && ChangesOk(ch) && RespectsAuthority(Current(c, rfc), ch)
    requires var turn := TurnOf(Current(c, rfc), ch); TurnFault(turn, Current(c, rfc), true, true).None?
    ensures var turn := TurnOf(Current(c, rfc), ch);
            var d := Write(c, rfc, ch, turn, newEpoch, command);
            && Evolves(c, d)
            && (turn != Opens ==> Inv(d))
            && (turn == Opens ==> AlmostInv(d, rfc, Some(newEpoch)) && d.proposals == c.proposals
                                  && d.projections[rfc].epoch == Some(newEpoch))
            && rfc in d.projections && d.projections[rfc].revision >= 1
  {
    hide ChangesOk, ProposalOk, ChainsOk, Evolves, EndEpoch, Terminal;
    var current := Current(c, rfc);
    var turn := TurnOf(current, ch);
    if current.Some? { ProjectionRow(c, rfc); }
    MergeSound(current, ch, turn, newEpoch);
    var p := Merge(current, ch, NextEpoch(turn, current, newEpoch));
    var e := c;
    if turn.Reverses? {
      EndEpochMoves(c, rfc, EpochOf(current).value, command);
      e := EndEpoch(c, rfc, EpochOf(current).value, command);
    } else {
      StayMoves(c);
      if EpochOf(current).None? { PendingNeedsEpoch(c, rfc); }
    }
    OpensOnlyWithoutEpoch(c, rfc, ch);
    PendingFits(e, rfc);
    ProjectMoves(e, rfc, p, if turn == Opens then Some(newEpoch) else None);
    EvolvesTransitive(c, e, e.(projections := e.projections[rfc := p]));
  }

  lemma ProjectionRow(c: Cascade, rfc: Id)
    requires Inv(c) && rfc in c.projections
    ensures ProjectionOk(c.projections[rfc])
  {
  }

  lemma OpensOnlyWithoutEpoch(c: Cascade, rfc: Id, ch: Changes)
    requires Inv(c)
    ensures TurnOf(Current(c, rfc), ch) in {Opens, Clears} ==> EpochOf(Current(c, rfc)).None?
  {
    if rfc in c.projections { ProjectionRow(c, rfc); }
  }

  lemma PendingFits(c: Cascade, rfc: Id)
    requires Inv(c)
    ensures forall i :: 0 <= i < |c.proposals| && c.proposals[i].trigger == rfc && c.proposals[i].state == Pending ==>
              rfc in c.projections && c.projections[rfc].epoch == Some(c.proposals[i].epoch)
  {
  }

  /* ---- Every step ---- */

  /** What one acceptance may do to its own RFC: leave the terminal status only under review. */
  ghost predicate OwnTurn(c: Cascade, d: Cascade, rfc: Id, reviewed: bool) {
    && (forall r :: r in c.projections && r != rfc ==> r in d.projections && d.projections[r] == c.projections[r])
    && (IsTerminal(Current(c, rfc)) && !IsTerminal(Current(d, rfc)) ==> reviewed)
    && (IsTerminal(Current(c, rfc)) && IsTerminal(Current(d, rfc)) ==> EpochOf(Current(d, rfc)) == EpochOf(Current(c, rfc)))
  }

  lemma ApplyChangesMoves(f: F.Forest, c: Cascade, rfc: Id, command: Id, ch: Changes, reviewed: bool, capturing: bool,
                          tasks: Tasks, newEpoch: Id, newId: Id)
    requires Inv(c) && ChangesOk(ch) && RespectsAuthority(Current(c, rfc), ch) && FreshEpoch(c, newEpoch)
    ensures Moves(c, ApplyChanges(f, c, rfc, command, ch, reviewed, capturing, tasks, newEpoch, newId).after)
    ensures ApplyChanges(f, c, rfc, command, ch, reviewed, capturing, tasks, newEpoch, newId).result.Ok? ==>
              OwnTurn(c, ApplyChanges(f, c, rfc, command, ch, reviewed, capturing, tasks, newEpoch, newId).after, rfc,
                      reviewed)
  {
    hide Inv, Evolves, CaptureScope, ProposalOk, AlmostInv, ChangesOk, Captured;
    StayMoves(c);
    var turn := TurnOf(Current(c, rfc), ch);
    if TurnFault(turn, Current(c, rfc), reviewed, capturing).None? {
      WriteMoves(c, rfc, ch, newEpoch, command);
      var d := Write(c, rfc, ch, turn, newEpoch, command);
      WriteTurns(c, rfc, ch, newEpoch, command, reviewed);
      if turn == Opens {
        var status, evidence := ch.status.value.status.value, ch.status.value.evidence;
        if CapturePending(f, d, rfc, newEpoch, status, evidence, tasks, command, newId).result.Ok? {
          OpenMoves(f, c, d, rfc, newEpoch, status, evidence, tasks, command, newId);
        }
      }
    }
  }

  lemma WriteTurns(c: Cascade, rfc: Id, ch: Changes, newEpoch: Id, command: Id, reviewed: bool)
    requires TurnFault(TurnOf(Current(c, rfc), ch), Current(c, rfc), reviewed, true).None?
    ensures OwnTurn(c, Write(c, rfc, ch, TurnOf(Current(c, rfc), ch), newEpoch, command), rfc, reviewed)
  {
    hide FindPending;
  }

  /** Opening a terminal epoch: its first proposal is captured against the very row just written. */
  lemma OpenMoves(f: F.Forest, c: Cascade, d: Cascade, rfc: Id, epoch: Id, status: StatusClass, evidence: Id,
                  tasks: Tasks, command: Id, newId: Id)
    requires Inv(c) && Evolves(c, d) && AlmostInv(d, rfc, Some(epoch)) && d.proposals == c.proposals
    requires rfc in d.projections && d.projections[rfc].epoch == Some(epoch) && FreshEpoch(c, epoch)
    requires CapturePending(f, d, rfc, epoch, status, evidence, tasks, command, newId).result.Ok?
    ensures var s := CapturePending(f, d, rfc, epoch, status, evidence, tasks, command, newId);
            && Moves(c, s.after) && s.after.projections == d.projections
            && Captured(s.after, newId, rfc, epoch, status, evidence, command)
  {
    hide Evolves, CaptureScope, ProposalOk, ProjectionOk, Inv;
    var scope := CaptureScope(f, d, rfc, epoch, status, evidence, tasks).value;
    var p := NewProposal(newId, scope, command);
    NewProposalOk(f, d, rfc, epoch, status, evidence, tasks, newId, command);
    FirstOfEpoch(d, p, rfc, epoch);
    AppendEvolves(c, d, p);
    FindAppended(d.proposals, p);
  }

  lemma FindAppended(ps: seq<Proposal>, p: Proposal)
    requires FindProposal(ps, p.id).None?
    ensures FindProposal(ps + [p], p.id) == Some(|ps|)
  {
    var i := FindProposal(ps + [p], p.id);
    assert (ps + [p])[|ps|] == p;
  }

  lemma AppendEvolves(c: Cascade, d: Cascade, p: Proposal)
    requires Evolves(c, d)
    ensures Evolves(c, Insert(d, p))
  {
  }

  lemma FirstOfEpoch(d: Cascade, p: Proposal, rfc: Id, epoch: Id)
    requires AlmostInv(d, rfc, Some(epoch)) && ProposalOk(p) && p.state == Pending && p.trigger == rfc && p.epoch == epoch
    requires rfc in d.projections && d.projections[rfc].epoch == Some(epoch) && FreshEpoch(d, epoch)
    requires forall i :: 0 <= i < |d.proposals| ==> d.proposals[i].id != p.id
    ensures Inv(Insert(d, p))
  {
    hide ProposalOk, ProjectionOk;
    var e := Insert(d, p);
    InsertChains(d.proposals, p);
    assert e.proposals[|d.proposals|] == p;
    forall r | r in e.projections && e.projections[r].epoch.Some?
      ensures HasProposal(e.proposals, r, e.projections[r].epoch.value)
    {
      if !(r == rfc && Some(epoch) == d.projections[r].epoch) {
        var k :| 0 <= k < |d.proposals| && d.proposals[k].trigger == r
                 && d.proposals[k].epoch == d.projections[r].epoch.value;
        assert e.proposals[k] == d.proposals[k];
      }
    }
  }

  lemma ApplyDeltasMoves(f: F.Forest, c: Cascade, rfc: Id, command: Id, deltas: seq<Delta>, valid: Delta -> bool,
                         reviewed: bool, capturing: bool, tasks: Tasks, newEpoch: Id, newId: Id)
    requires Inv(c) && FreshEpoch(c, newEpoch)
    ensures var s := ApplyDeltas(f, c, rfc, command, deltas, valid, reviewed, capturing, tasks, newEpoch, newId);
            Moves(c, s.after) && OwnTurn(c, s.after, rfc, reviewed)
  {
    hide Inv, Evolves, ApplyChanges, Accept, ChangesOk;
    StayMoves(c);
    EmptyChangesOk();
    AcceptSound(Current(c, rfc), deltas, valid, {}, NOTHING);
    var accepted := Accept(Current(c, rfc), deltas, valid, {}, NOTHING);
    if accepted.Ok? {
      ApplyChangesMoves(f, c, rfc, command, accepted.value, reviewed, capturing, tasks, newEpoch, newId);
      RefusedChanges(f, c, rfc, command, accepted.value, reviewed, capturing, tasks, newEpoch, newId);
    }
  }

  lemma EmptyChangesOk()
    ensures ChangesOk(NOTHING)
  {
  }

  lemma RefusedChanges(f: F.Forest, c: Cascade, rfc: Id, command: Id, ch: Changes, reviewed: bool, capturing: bool,
                       tasks: Tasks, newEpoch: Id, newId: Id)
    ensures var s := ApplyChanges(f, c, rfc, command, ch, reviewed, capturing, tasks, newEpoch, newId);
            s.result.Err? ==> s.after == c
  {
    hide CapturePending, Write;
  }

  /** The provisional service never changes a status that is terminal or came from an Enhanced RFC. */
  lemma ProvisionalMoves(f: F.Forest, c: Cascade, no: string, d: Delta, token: ProvisionalToken, command: Id,
                         valid: Delta -> bool, tasks: Tasks, newEpoch: Id, newId: Id)
    requires Inv(c) && FreshEpoch(c, newEpoch)
    ensures var s := AcceptProvisional(f, c, no, d, token, command, valid, tasks, newEpoch, newId);
            && Moves(c, s.after)
            && (s.after != c ==>
                  && F.WithNumber(f, no) != {}
                  && var rfc := F.First(F.WithNumber(f, no)).value;
                  && OwnTurn(c, s.after, rfc, true)
                  && !IsTerminal(Current(c, rfc))
                  && (rfc in c.projections ==> c.projections[rfc].authority != Some(F.EnhancedRfc)))
            && (s.result.Ok? ==> s.result.value.Some?)
  {
    hide Inv, Evolves, ApplyDeltas, OwnTurn;
    StayMoves(c);
    var rfc := F.First(F.WithNumber(f, no));
    if rfc.Some? {
      ApplyDeltasMoves(f, c, rfc.value, command, [d], valid, true, false, tasks, newEpoch, newId);
    }
  }

  /** The epoch identity an operation draws is new. */
  predicate Fresh(c: Cascade, op: Op) {
    match op
    case DoApply(_, _, _, _, _, _, _, newEpoch, _) => FreshEpoch(c, newEpoch)
    case DoProvisional(_, _, _, _, _, _, newEpoch, _) => FreshEpoch(c, newEpoch)
    case _ => true
  }

  predicate AllFresh(w: World, ops: seq<Op>)
    decreases |ops|
  {
    ops == [] || (Fresh(w.c, ops[0]) && AllFresh(Apply(w, ops[0]), ops[1..]))
  }

  ghost predicate Sound(w: World) {
    Forest.Inv(w.f) && Inv(w.c) && A.Inv(Shelf(w))
  }

  lemma StepMoves(w: World, op: Op)
    requires Sound(w) && Fresh(w.c, op)
    ensures Sound(Apply(w, op)) && Moves(w.c, Apply(w, op).c) && Forest.Advances(w.f, Apply(w, op).f)
  {
    hide Inv, Evolves, Forest.Inv, Forest.Advances, F.Apply, ApplyDeltas, AcceptProvisional, Refresh, Execute, OwnTurn,
         A.Inv, A.Archive, A.RestoreOperation, A.Turned;
    Forest.StayKeeps(w.f);
    StayMoves(w.c);
    match op
    case DoApply(rfc, command, deltas, valid, reviewed, capturing, tasks, newEpoch, newId) =>
      ApplyDeltasMoves(w.f, w.c, rfc, command, deltas, valid, reviewed, capturing, tasks, newEpoch, newId);
    case DoProvisional(no, d, token, command, valid, tasks, newEpoch, newId) =>
      ProvisionalMoves(w.f, w.c, no, d, token, command, valid, tasks, newEpoch, newId);
    case DoRefresh(id, revision, tasks, command, newId) => RefreshMoves(w.f, w.c, id, revision, tasks, command, newId);
    case DoExecute(id, revision, tasks, consent, command) =>
      ExecuteMoves(w.f, w.c, id, revision, tasks, consent, command);
    case DoForest(fop) =>
      Forest.StepKeeps(w.f, fop);
      A.ForestStepKeeps(Shelf(w), F.Apply(w.f, fop));
    case DoArchive(rfc, scope, seen, operation) => A.ArchiveKeeps(Shelf(w), rfc, scope, seen, operation);
    case DoRestore(operation) => A.RestoreKeeps(Shelf(w), operation);
  }

  /**
   However the services interleave: hierarchy, epochs, proposal chains and archive log stay sound, nothing settled
   changes, and no revision of an RFC comes back.
   */
  lemma {:induction false} RunMoves(w: World, ops: seq<Op>)
    requires Sound(w) && AllFresh(w, ops)
    ensures Sound(Run(w, ops)) && Moves(w.c, Run(w, ops).c) && Forest.Advances(w.f, Run(w, ops).f)
    decreases |ops|
  {
    hide Sound, Inv, Evolves, Forest.Inv, Forest.Advances, Apply, Fresh;
    StaySound(w);
    if ops != [] {
      StepMoves(w, ops[0]);
      RunMoves(Apply(w, ops[0]), ops[1..]);
      EvolvesTransitive(w.c, Apply(w, ops[0]).c, Run(w, ops).c);
      Forest.AdvancesTransitive(w.f, Apply(w, ops[0]).f, Run(w, ops).f);
    }
  }

  lemma StaySound(w: World)
    requires Sound(w)
    ensures Moves(w.c, w.c) && Forest.Advances(w.f, w.f)
  {
    hide Inv, Evolves, Forest.Inv;
    StayMoves(w.c);
    Forest.StayKeeps(w.f);
  }
}
