/** When source acceptance, capture, refresh and provisional eligibility go through, and when they are refused. */
module RfcCascadeAdmission {
  import opened Prelude
  import F = RfcForest
  import Forest = RfcForestSafety
  import Users = RfcForestGuarantees
  import opened RfcCascade
  import opened RfcCascadeScope
  import opened RfcCascadeSafety
  import opened RfcCascadeGuarantees
  import opened RfcCascadeEffects

  /** The scope of the RFC can be captured: its branch reads, and the Task domain answers with well-formed members. */
  predicate Readable(f: F.Forest, rfc: Id, tasks: Tasks) {
    && CaptureRfcs(f, rfc).Ok?
    && var ms := CaptureRfcs(f, rfc).value.members;
    && tasks(MemberIds(ms)).Some? && WellAnswered(tasks(MemberIds(ms)).value, IdSet(ms))
  }

  /** Each Task is of an RFC in scope, has a positive revision and a number of "TK" and fourteen digits; none repeats. */
  predicate WellAnswered(raw: seq<WfmMember>, scope: set<Id>) {
    && (forall i :: 0 <= i < |raw| ==> raw[i].owner in scope && raw[i].revision >= 1 && TaskNumbered(raw[i].number))
    && (forall i, j :: 0 <= i < |raw| && 0 <= j < |raw| && i != j ==>
          raw[i].task != raw[j].task && raw[i].number != raw[j].number)
  }

  predicate TaskNumbered(s: string) {
    |s| == 16 && s[..2] == "TK" && forall c :: c in s[2..] ==> '0' <= c <= '9'
  }

  lemma TaskNumberedIff(s: string)
    ensures ValidTaskNo(s) <==> TaskNumbered(s)
  {
    if TaskNumbered(s) {
      assert s[0] == s[..2][0] && s[1] == s[..2][1];
      forall i | 2 <= i < 16
        ensures '0' <= s[i] <= '9'
      {
        assert s[i] == s[2..][i - 2] && s[2..][i - 2] in s[2..];
      }
    }
  }

  lemma WellAnsweredIff(raw: seq<WfmMember>, scope: set<Id>)
    ensures Capturable(raw, scope) <==> WellAnswered(raw, scope)
  {
    hide ValidTaskNo, TaskNumbered;
    forall i | 0 <= i < |raw|
      ensures ValidTaskNo(raw[i].number) <==> TaskNumbered(raw[i].number)
    {
      TaskNumberedIff(raw[i].number);
    }
  }

  /** The stored Tasks are those of the answer in the order of their RFCs, and of their identities within one. */
  lemma CapturedTasksOrdered(p: Proposal, i: nat, j: nat)
    requires SnapshotOk(p) && i < j < |p.wfms|
    ensures p.wfms[i].owner <= p.wfms[j].owner
    ensures p.wfms[i].owner == p.wfms[j].owner ==> p.wfms[i].task < p.wfms[j].task
  {
    hide MembersOk, IdSet;
    NormalizeIdempotent(p.wfms, IdSet(p.rfcs));
    assert !Before(p.wfms[j], p.wfms[i]);
  }

  lemma CapturesIff(f: F.Forest, c: Cascade, trigger: Id, epoch: Id, status: StatusClass, evidence: Id, tasks: Tasks)
    requires Terminal(status) && Bound(c, trigger, epoch, status, evidence)
    ensures CaptureScope(f, c, trigger, epoch, status, evidence, tasks).Ok? <==> Readable(f, trigger, tasks)
  {
    hide CaptureRfcs, Capturable, WellAnswered, IdSet, Bound, Terminal;
    var ms := CaptureRfcs(f, trigger);
    if ms.Ok? && tasks(MemberIds(ms.value.members)).Some? {
      WellAnsweredIff(tasks(MemberIds(ms.value.members)).value, IdSet(ms.value.members));
    }
  }

  /** The status delta that counts, if one does. */
  predicate Sets(current: Option<Projection>, deltas: seq<Delta>, d: Delta) {
    d in deltas && d.field == Status && !AlreadyThere(current, d)
  }

  ghost predicate WellFormed(f: F.Forest, rfc: Id, deltas: seq<Delta>, valid: Delta -> bool) {
    rfc in f.rfcs && |deltas| <= 12 && AllWell(deltas, valid) && DistinctFields(deltas)
  }

  /** What the loop's outcome says of the status. */
  lemma StatusChosen(current: Option<Projection>, deltas: seq<Delta>, ch: Changes)
    requires Means(current, deltas, NOTHING, ch) && DistinctFields(deltas)
    ensures ch.status.Some? ==> Sets(current, deltas, ch.status.value) && ch.facts != map[]
    ensures forall d :: Sets(current, deltas, d) ==> ch.status == Some(d)
  {
    hide Skipped, AlreadyThere;
    forall d
      ensures Chooses(current, deltas, d) <==> d in deltas && !AlreadyThere(current, d)
    {
      SkippedIff(current, d);
    }
    if ch.status.Some? {
      var d :| Chooses(current, deltas, d) && d.field == Status;
      assert ch.status == Some(d);
    }
  }

  lemma Prepared(f: F.Forest, c: Cascade, rfc: Id, deltas: seq<Delta>, valid: Delta -> bool) returns (ch: Changes)
    requires WellFormed(f, rfc, deltas, valid)
    ensures Accept(Current(c, rfc), deltas, valid, {}, NOTHING) == Ok(ch)
    ensures Means(Current(c, rfc), deltas, NOTHING, ch) && ChangesOk(ch)
    ensures ch.status.Some? ==> Sets(Current(c, rfc), deltas, ch.status.value) && ch.facts != map[]
    ensures forall d :: Sets(Current(c, rfc), deltas, d) ==> ch.status == Some(d)
    ensures ch.status.Some? ==> ch.status.value.status.Some?
  {
    hide Accept, Means, ShapeOk, Skipped, AlreadyThere, Sets, AllAccepted, AllWell;
    AllWellIff(deltas, valid);
    AcceptMeans(Current(c, rfc), deltas, valid, {}, NOTHING);
    EmptyChangesOk();
    AcceptSound(Current(c, rfc), deltas, valid, {}, NOTHING);
    ch := Accept(Current(c, rfc), deltas, valid, {}, NOTHING).value;
    StatusChosen(Current(c, rfc), deltas, ch);
    ShapedStatus(ch);
  }

  lemma ShapedStatus(ch: Changes)
    requires ChangesOk(ch)
    ensures ch.status.Some? ==> ch.status.value.status.Some? && ch.status.value.field == Status
  {
  }

  /** Well-formed deltas that open no terminal epoch go through, except an unreviewed reversal. */
  lemma AcceptanceSucceeds(f: F.Forest, c: Cascade, rfc: Id, command: Id, deltas: seq<Delta>, valid: Delta -> bool,
                           reviewed: bool, capturing: bool, tasks: Tasks, newEpoch: Id, newId: Id)
    requires Inv(c) && WellFormed(f, rfc, deltas, valid)
    requires forall d :: Sets(Current(c, rfc), deltas, d) ==>
               d.status.Some? && if Terminal(d.status.value) then IsTerminal(Current(c, rfc))
                                 else IsTerminal(Current(c, rfc)) ==> reviewed
    ensures ApplyDeltas(f, c, rfc, command, deltas, valid, reviewed, capturing, tasks, newEpoch, newId).result.Ok?
  {
    hide Inv, Accept, Means, ChangesOk, AllWell, DistinctFields, Sets, Write, Terminal;
    var ch := Prepared(f, c, rfc, deltas, valid);
    if rfc in c.projections { ProjectionRow(c, rfc); EpochThere(c.projections[rfc]); }
  }

  lemma EpochThere(p: Projection)
    requires ProjectionOk(p)
    ensures Terminal(p.status) ==> p.epoch.Some?
  {
  }

  /** An unreviewed reversal of a terminal status is refused as such. */
  lemma UnreviewedReversalRefused(f: F.Forest, c: Cascade, rfc: Id, command: Id, deltas: seq<Delta>,
                                  valid: Delta -> bool, capturing: bool, tasks: Tasks, newEpoch: Id, newId: Id, d: Delta)
    requires WellFormed(f, rfc, deltas, valid) && IsTerminal(Current(c, rfc))
    requires Sets(Current(c, rfc), deltas, d) && d.status.Some? && !Terminal(d.status.value)
    ensures ApplyDeltas(f, c, rfc, command, deltas, valid, false, capturing, tasks, newEpoch, newId)
         == Step(c, Err(ReversalReviewRequired))
  {
    hide Accept, Means, ChangesOk, AllWell, DistinctFields, Sets, Write, Terminal;
    var ch := Prepared(f, c, rfc, deltas, valid);
  }

  /** A newly terminal status goes through exactly when a capture participant is there and the scope can be captured. */
  lemma OpeningSucceedsIff(f: F.Forest, c: Cascade, rfc: Id, command: Id, deltas: seq<Delta>, valid: Delta -> bool,
                           reviewed: bool, capturing: bool, tasks: Tasks, newEpoch: Id, newId: Id, d: Delta)
    requires Inv(c) && WellFormed(f, rfc, deltas, valid) && FreshEpoch(c, newEpoch)
    requires FindProposal(c.proposals, newId).None?
    requires Sets(Current(c, rfc), deltas, d) && d.status.Some? && Terminal(d.status.value) && !IsTerminal(Current(c, rfc))
    ensures ApplyDeltas(f, c, rfc, command, deltas, valid, reviewed, capturing, tasks, newEpoch, newId).result.Ok?
       <==> capturing && Readable(f, rfc, tasks)
  {
    hide Inv, Accept, Means, ChangesOk, AllWell, DistinctFields, Sets, Write, Terminal, Merge, Readable, CaptureScope,
         Captured, Bound, ChangedFields;
    var ch := Prepared(f, c, rfc, deltas, valid);
    if capturing {
      WriteDoes(c, rfc, ch, newEpoch, command);
      var e := Write(c, rfc, ch, Opens, newEpoch, command);
      WrittenBound(c, rfc, ch, newEpoch, command, e);
      CapturesIff(f, e, rfc, newEpoch, d.status.value, d.evidence, tasks);
      NothingPending(c, rfc, newEpoch);
      if Readable(f, rfc, tasks) {
        CapturedHolds(f, e, rfc, newEpoch, d.status.value, d.evidence, tasks, command, newId);
      }
    }
  }

  lemma WrittenBound(c: Cascade, rfc: Id, ch: Changes, newEpoch: Id, command: Id, e: Cascade)
    requires TurnOf(Current(c, rfc), ch) == Opens
    requires e.projections == c.projections[rfc := Merge(Current(c, rfc), ch, NextEpoch(Opens, Current(c, rfc), newEpoch))]
    requires ChangesOk(ch)
    ensures Bound(e, rfc, newEpoch, ch.status.value.status.value, ch.status.value.evidence)
  {
  }

  lemma NothingPending(c: Cascade, rfc: Id, epoch: Id)
    requires FreshEpoch(c, epoch)
    ensures FindPending(c.proposals, rfc, epoch).None?
  {
  }

  lemma CapturedHolds(f: F.Forest, c: Cascade, rfc: Id, epoch: Id, status: StatusClass, evidence: Id, tasks: Tasks,
                      command: Id, newId: Id)
    requires CaptureScope(f, c, rfc, epoch, status, evidence, tasks).Ok? && FindProposal(c.proposals, newId).None?
    ensures var p := NewProposal(newId, CaptureScope(f, c, rfc, epoch, status, evidence, tasks).value, command);
            Captured(Insert(c, p), newId, rfc, epoch, status, evidence, command)
  {
    hide CaptureScope, SnapshotOk, IdSet, Bound;
    var p := NewProposal(newId, CaptureScope(f, c, rfc, epoch, status, evidence, tasks).value, command);
    NewProposalOk(f, c, rfc, epoch, status, evidence, tasks, newId, command);
    FindAppended(c.proposals, p);
  }

  /** A pending proposal of a current epoch is refreshed exactly when its scope can be captured. */
  lemma RefreshSucceedsIff(f: F.Forest, c: Cascade, id: Id, revision: nat, tasks: Tasks, command: Id, newId: Id, i: nat)
    requires Inv(c) && PendingAt(c, id, revision, i) && FindProposal(c.proposals, newId).None?
    ensures Refresh(f, c, id, revision, tasks, command, newId).result.Ok? <==> Readable(f, c.proposals[i].trigger, tasks)
  {
    hide Inv, CaptureScope, Readable, Bound;
    var p := c.proposals[i];
    PendingRow(c, i);
    ProjectionRow(c, p.trigger);
    BindingThere(c, p);
    CurrentBound(c, p);
    var b := CurrentBinding(c, p).value;
    CapturesIff(f, c, p.trigger, p.epoch, b.0, b.1, tasks);
  }

  lemma BindingThere(c: Cascade, p: Proposal)
    requires p.trigger in c.projections && ProjectionOk(c.projections[p.trigger])
    requires c.projections[p.trigger].epoch == Some(p.epoch)
    ensures CurrentBinding(c, p).Ok? && Terminal(CurrentBinding(c, p).value.0)
  {
  }

  /* ---- Provisional eligibility ---- */

  /** An active RFC of that number whose state is the one the review saw, and whose status may still be set. */
  predicate MayBecomeEligible(f: F.Forest, c: Cascade, no: string, d: Delta, token: ProvisionalToken) {
    var rfc := F.First(F.WithNumber(f, no));
    && rfc.Some? && ProvisionalBase(f, c, rfc) == token && !f.rfcs[rfc.value].archived
    && d.field == Status && d.kind == ControlledKind && d.value == Text("Implement") && d.status == Some(F.ImplementEligible)
    && d.authority == Some(F.WfmProvisional)
    && var p := Current(c, rfc.value);
    (p.Some? ==> p.value.authority != Some(F.EnhancedRfc) && !Terminal(p.value.status)
                 && !(p.value.status == F.ImplementEligible && p.value.authority == Some(F.WfmProvisional)))
  }

  /** Provisional eligibility is accepted exactly for such an RFC and valid evidence, and then it is the RFC's status. */
  lemma ProvisionalDoes(f: F.Forest, c: Cascade, no: string, d: Delta, token: ProvisionalToken, command: Id,
                        valid: Delta -> bool, tasks: Tasks, newEpoch: Id, newId: Id)
    requires Inv(c)
    ensures var s := AcceptProvisional(f, c, no, d, token, command, valid, tasks, newEpoch, newId);
            && (s.result.Ok? <==> MayBecomeEligible(f, c, no, d, token) && valid(d))
            && (s.result.Err? ==> s.after == c)
            && (s.result.Ok? ==>
                  var rfc := F.First(F.WithNumber(f, no)).value;
                  && s.result.value.Some? && Accepted(f, c, s.after, rfc, [d], tasks, command, newEpoch, newId)
                  && s.after.projections[rfc].status == F.ImplementEligible
                  && s.after.projections[rfc].authority == Some(F.WfmProvisional)
                  && s.after.projections[rfc].epoch.None? && s.after.proposals == c.proposals)
  {
    hide Inv, ApplyDeltas, Accepted, ProvisionalBase, WellFormed, AlreadyThere, Sets, Terminal;
    var rfc := F.First(F.WithNumber(f, no));
    MayBecomeIff(f, c, no, d, token);
    if MayBecomeEligible(f, c, no, d, token) {
      ApplyDoes(f, c, rfc.value, command, [d], valid, true, false, tasks, newEpoch, newId);
      var s := ApplyDeltas(f, c, rfc.value, command, [d], valid, true, false, tasks, newEpoch, newId);
      assert d in [d];
      NotYetThere(f, c, no, d, token);
      if valid(d) {
        SingleWellFormed(f, rfc.value, d, valid);
        EligibleSets(c, rfc.value, d);
        AcceptanceSucceeds(f, c, rfc.value, command, [d], valid, true, false, tasks, newEpoch, newId);
        EligibleLands(f, c, s.after, rfc.value, d, tasks, command, newEpoch, newId);
      } else {
        InvalidRefused(valid, d);
      }
    }
  }

  /** The base token of a provisional proposal pins the archive state and the accepted status with its evidence. */
  lemma ProvisionalTokenPins(f: F.Forest, c: Cascade, g: F.Forest, e: Cascade, rfc: Id)
    requires rfc in f.rfcs && rfc in g.rfcs && ProvisionalBase(g, e, Some(rfc)) == ProvisionalBase(f, c, Some(rfc))
    ensures g.rfcs[rfc].archived == f.rfcs[rfc].archived
    ensures var p, q := Current(c, rfc), Current(e, rfc);
            var known := p.Some? && p.value.status != F.Unknown;
            && (known <==> q.Some? && q.value.status != F.Unknown)
            && (known ==> q.value.status == p.value.status && q.value.authority == p.value.authority
                          && EvidenceOf(q.value) == EvidenceOf(p.value)
                          && (Status in p.value.facts ==> Status in q.value.facts
                                                          && q.value.facts[Status].value == p.value.facts[Status].value))
  {
  }

  lemma MayBecomeIff(f: F.Forest, c: Cascade, no: string, d: Delta, token: ProvisionalToken)
    ensures var rfc := F.First(F.WithNumber(f, no));
            MayBecomeEligible(f, c, no, d, token)
            <==> !(ProvisionalBase(f, c, rfc) != token || rfc.None? || f.rfcs[rfc.value].archived || !EligibilityDelta(d)
                   || ProvisionalBlocked(Current(c, rfc.value)))
  {
    hide ProvisionalBase;
  }

  lemma NotYetThere(f: F.Forest, c: Cascade, no: string, d: Delta, token: ProvisionalToken)
    requires MayBecomeEligible(f, c, no, d, token)
    ensures !AlreadyThere(Current(c, F.First(F.WithNumber(f, no)).value), d)
  {
    hide ProvisionalBase;
  }

  lemma SingleWellFormed(f: F.Forest, rfc: Id, d: Delta, valid: Delta -> bool)
    requires rfc in f.rfcs && EligibilityDelta(d) && valid(d)
    ensures WellFormed(f, rfc, [d], valid)
  {
    ShapedIff(d);
  }

  lemma InvalidRefused(valid: Delta -> bool, d: Delta)
    requires !valid(d)
    ensures !AllWell([d], valid)
  {
    assert d in [d];
  }

  lemma EligibleSets(c: Cascade, rfc: Id, d: Delta)
    requires EligibilityDelta(d)
    ensures forall x :: Sets(Current(c, rfc), [d], x) ==> x.status.Some? && !Terminal(x.status.value)
  {
  }

  lemma EligibleLands(f: F.Forest, c: Cascade, e: Cascade, rfc: Id, d: Delta, tasks: Tasks, command: Id, newEpoch: Id,
                      newId: Id)
    requires Accepted(f, c, e, rfc, [d], tasks, command, newEpoch, newId) && EligibilityDelta(d)
    requires var p := Current(c, rfc); p.Some? ==> p.value.authority != Some(F.EnhancedRfc) && !Terminal(p.value.status)
    ensures e.projections[rfc].status == F.ImplementEligible && e.projections[rfc].authority == Some(F.WfmProvisional)
    ensures e.projections[rfc].epoch.None? && e.proposals == c.proposals
  {
    hide Kept, NewlyCaptured;
    assert d in [d];
    assert Landed(Current(c, rfc), e.projections[rfc], d);
  }

  /* ---- The branch a capture covers ---- */

  /** A subordinate is captured alone; any other RFC with exactly its subordinates, each at its revision and in its role. */
  lemma CaptureCoversBranch(f: F.Forest, trigger: Id)
    requires Forest.Inv(f) && trigger in f.rfcs
    ensures var r := CaptureRfcs(f, trigger);
            && r.Ok?
            && (r.value.kind == ExactRfc <==> F.Subordinate(f, trigger))
            && (forall id :: id in IdSet(r.value.members) <==> id == trigger || Users.HasParent(f, id, trigger))
            && (forall m :: m in r.value.members ==>
                  && m.rfc in f.rfcs && m.revision == f.rfcs[m.rfc].revision
                  && m.role == if m.rfc != trigger || F.Subordinate(f, trigger) then SubordinateRole
                               else if |r.value.members| == 1 then Standalone else Root)
  {
    hide Ascending, Forest.Inv, F.Children, F.Subordinate, F.ChildEdges, F.ParentOf, IdSet, ChildMembers, Users.HasParent;
    CaptureRfcsSound(f, trigger);
    ChildrenAre(f, trigger);
    Forest.SubordinateIff(f, trigger);
    var children := F.Children(f, trigger) * f.rfcs.Keys;
    var ms := CaptureRfcs(f, trigger).value.members;
    HeadAndChildren(f, ms[0], if F.Subordinate(f, trigger) then [] else Ascending(children));
    assert F.Subordinate(f, trigger) ==> ms == [ms[0]] + ChildMembers(f, []);
  }

  lemma HeadAndChildren(f: F.Forest, head: RfcMember, ids: seq<Id>)
    requires forall id :: id in ids ==> id in f.rfcs && id != head.rfc
    ensures var ms := [head] + ChildMembers(f, ids);
            && (forall id :: id in IdSet(ms) <==> id == head.rfc || id in ids)
            && (forall m :: m in ms ==>
                  m == head || (m.rfc in ids && m.rfc != head.rfc && m == RfcMember(m.rfc, f.rfcs[m.rfc].revision, SubordinateRole)))
            && (|ms| == 1 <==> ids == [])
  {
    var ms := [head] + ChildMembers(f, ids);
    assert ms[0] == head;
    forall id | id in ids
      ensures id in IdSet(ms)
    {
      var i :| 0 <= i < |ids| && ids[i] == id;
      assert ms[i + 1].rfc == id;
    }
    forall m | m in ms
      ensures m == head || (m.rfc in ids && m == RfcMember(m.rfc, f.rfcs[m.rfc].revision, SubordinateRole))
    {
      var i :| 0 <= i < |ms| && ms[i] == m;
      assert i > 0 ==> m == ChildMembers(f, ids)[i - 1] && ids[i - 1] in ids;
    }
  }

  lemma ChildrenAre(f: F.Forest, trigger: Id)
    requires Forest.Inv(f)
    ensures forall id :: id in F.Children(f, trigger) * f.rfcs.Keys <==> Users.HasParent(f, id, trigger)
    ensures forall id :: Users.HasParent(f, id, trigger) ==> id != trigger
    ensures F.Subordinate(f, trigger) ==> forall id :: !Users.HasParent(f, id, trigger)
  {
    forall id | Users.HasParent(f, id, trigger)
      ensures id in F.Children(f, trigger) * f.rfcs.Keys && id != trigger && !F.Subordinate(f, trigger)
    {
      var e :| e in f.edges && f.edges[e].active && f.edges[e].child == id && f.edges[e].parent == trigger;
      assert e in F.ChildEdges(f, trigger);
      Forest.ParentUnique(f, e);
    }
  }
}
