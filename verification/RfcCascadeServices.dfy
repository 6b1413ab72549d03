/**
 The source projection, capture, refresh and execution services over the projection and proposal tables; each
 method is one unit of work and takes exactly the step `RfcCascade` specifies. The hierarchy is read, not changed.
 */
module RfcCascadeServices {
  import opened Prelude
  import F = RfcForest
  import opened RfcCascade

  /** The member loop: every member checked in turn against those already seen, then sorted. */
  method NormalizeWfmMembers(raw: seq<WfmMember>, allowed: set<Id>) returns (r: Result<seq<WfmMember>, Error>)
    ensures r == Normalize(raw, allowed)
  {
    hide Sorted;
    var seenTasks: set<Id>, seenNumbers: set<string> := {}, {};
    var normalized: seq<WfmMember> := [];
    for i := 0 to |raw|
      invariant forall t :: t in seenTasks <==> exists j :: 0 <= j < i && raw[j].task == t
      invariant forall n :: n in seenNumbers <==> exists j :: 0 <= j < i && raw[j].number == n
      invariant normalized == raw[..i] && Capturable(raw[..i], allowed)
    {
      var m := raw[i];
      if !MemberOk(m, allowed) {
        return Err(ParticipantFailed);
      }
      if m.task in seenTasks || m.number in seenNumbers {
        assert !Capturable(raw, allowed);
        return Err(ParticipantFailed);
      }
      seenTasks, seenNumbers := seenTasks + {m.task}, seenNumbers + {m.number};
      normalized := normalized + [m];
    }
    assert raw[..|raw|] == raw;
    return Ok(Sorted(normalized));
  }

  class CascadeTables {
    var projections: map<Id, Projection>
    var proposals: seq<Proposal>

    constructor (c: Cascade)
      ensures Tables() == c
    {
      projections, proposals := c.projections, c.proposals;
    }

    function Tables(): Cascade
      reads this
    {
      Cascade(projections, proposals)
    }

    /** ROLLBACK to the tables as they were. */
    method Restore(c: Cascade)
      modifies this
      ensures Tables() == c
    {
      projections, proposals := c.projections, c.proposals;
    }

    method CaptureScope(f: F.Forest, trigger: Id, epoch: Id, status: StatusClass, evidence: Id, tasks: Tasks)
      returns (r: Result<Digest, Error>)
      ensures r == RfcCascade.CaptureScope(f, Tables(), trigger, epoch, status, evidence, tasks)
    {
      hide CaptureRfcs, Normalize;
      if !Terminal(status) {
        return Err(Stale);
      }
      if !Bound(Tables(), trigger, epoch, status, evidence) {
        return Err(Stale);
      }
      var scope := CaptureRfcs(f, trigger);
      if scope.Err? {
        return Err(scope.error);
      }
      var raw := tasks(MemberIds(scope.value.members));
      if raw.None? {
        return Err(ParticipantFailed);
      }
      var wfms := NormalizeWfmMembers(raw.value, IdSet(scope.value.members));
      if wfms.Err? {
        return Err(wfms.error);
      }
      return Ok(ScopeDigest(trigger, epoch, status, evidence, scope.value.kind, scope.value.members, wfms.value));
    }

    method CapturePending(f: F.Forest, trigger: Id, epoch: Id, status: StatusClass, evidence: Id, tasks: Tasks,
                          command: Id, newId: Id) returns (r: Result<Id, Error>)
      modifies `proposals
      ensures Step(Tables(), r)
           == RfcCascade.CapturePending(f, old(Tables()), trigger, epoch, status, evidence, tasks, command, newId)
    {
      hide RfcCascade.CaptureScope;
      if FindPending(proposals, trigger, epoch).Some? {
        return Err(Stale);
      }
      var scope := CaptureScope(f, trigger, epoch, status, evidence, tasks);
      if scope.Err? {
        return Err(scope.error);
      }
      if FindProposal(proposals, newId).Some? {
        return Err(Persistence);
      }
      var d := scope.value;
      proposals := proposals
        + [Proposal(newId, d.trigger, d.epoch, d.status, d.evidence, d.kind, d, Pending, 1, command, None, None, d.rfcs,
                    d.wfms)];
      return Ok(newId);
    }

    /** `UPDATE … SET proposal_state='superseded' WHERE proposal_state='pending' AND revision=?`. */
    method SupersedeRow(i: nat, command: Id)
      requires i < |proposals|
      modifies `proposals
      ensures Tables() == Supersede(old(Tables()), i, command)
    {
      var p := proposals[i];
      proposals := proposals[i := p.(state := Superseded, revision := p.revision + 1, superseded := Some(command))];
    }

    /** The delta loop over `seen`, `changes` and the accepted status. */
    method AcceptDeltas(current: Option<Projection>, deltas: seq<Delta>, valid: Delta -> bool)
      returns (r: Result<Changes, Error>)
      ensures r == Accept(current, deltas, valid, {}, NOTHING)
    {
      hide ShapeOk, Skipped;
      var seen: set<Field>, changes: map<Field, Fact>, status: Option<Delta> := {}, map[], None;
      for i := 0 to |deltas|
        invariant Accept(current, deltas, valid, {}, NOTHING)
               == Accept(current, deltas[i..], valid, seen, Changes(changes, status))
      {
        var d := deltas[i];
        assert deltas[i..][0] == d && deltas[i..][1..] == deltas[i + 1..];
        if !ShapeOk(d) {
          return Err(ProjectionInvalid);
        }
        if d.field in seen {
          return Err(ProjectionInvalid);
        }
        seen := seen + {d.field};
        if !valid(d) {
          return Err(ProjectionInvalid);
        }
        if !Skipped(current, d) {
          changes := changes[d.field := Fact(d.value, d.evidence)];
          if d.field == Status {
            status := Some(d);
          }
        }
      }
      assert deltas[|deltas|..] == [];
      return Ok(Changes(changes, status));
    }

    method ApplyAcceptedFieldDeltas(f: F.Forest, rfc: Id, command: Id, deltas: seq<Delta>, valid: Delta -> bool,
                                    reviewed: bool, capturing: bool, tasks: Tasks, newEpoch: Id, newId: Id)
      returns (r: Result<Option<Applied>, Error>)
      modifies this
      ensures Step(Tables(), r) == ApplyDeltas(f, old(Tables()), rfc, command, deltas, valid, reviewed, capturing, tasks,
                                               newEpoch, newId)
    {
      hide Accept, ApplyChanges;
      if rfc !in f.rfcs {
        return Err(NotFound);
      }
      if |deltas| > 12 {
        return Err(ProjectionInvalid);
      }
      var accepted := AcceptDeltas(Current(Tables(), rfc), deltas, valid);
      if accepted.Err? {
        return Err(accepted.error);
      }
      if accepted.value.facts == map[] {
        return Ok(None);
      }
      r := WriteProjection(f, rfc, command, accepted.value, reviewed, capturing, tasks, newEpoch, newId);
    }

    method WriteProjection(f: F.Forest, rfc: Id, command: Id, ch: Changes, reviewed: bool, capturing: bool, tasks: Tasks,
                           newEpoch: Id, newId: Id) returns (r: Result<Option<Applied>, Error>)
      modifies this
      ensures Step(Tables(), r)
           == ApplyChanges(f, old(Tables()), rfc, command, ch, reviewed, capturing, tasks, newEpoch, newId)
    {
      hide RfcCascade.CapturePending, Captured, FindPending, Merge, Terminal;
      var before := Tables();
      var current := Current(before, rfc);
      var turn := TurnOf(current, ch);
      var epoch: Option<Id> := EpochOf(current);
      match turn {
        case Opens =>
          if !capturing {
            return Err(ParticipantFailed);
          }
          epoch := Some(newEpoch);
        case Stays =>
          if EpochOf(current).None? {
            return Err(Persistence);
          }
        case Reverses =>
          if !reviewed {
            return Err(ReversalReviewRequired);
          }
          if EpochOf(current).None? {
            return Err(Persistence);
          }
          var pending := FindPending(proposals, rfc, EpochOf(current).value);
          if pending.Some? {
            SupersedeRow(pending.value, command);
          }
          epoch := None;
        case Clears => epoch := None;
        case Unaffected =>
      }
      projections := projections[rfc := Merge(current, ch, epoch)];
      assert Tables() == Write(before, rfc, ch, turn, newEpoch, command);
      var proposal: Option<Id> := None;
      if turn == Opens {
        var status, evidence := ch.status.value.status.value, ch.status.value.evidence;
        var captured := CapturePending(f, rfc, newEpoch, status, evidence, tasks, command, newId);
        if captured.Err? {
          Restore(before);
          return Err(captured.error);
        }
        CapturedIdentity(f, Write(before, rfc, ch, turn, newEpoch, command), rfc, newEpoch, status, evidence, tasks,
                         command, newId);
        if !Captured(Tables(), captured.value, rfc, newEpoch, status, evidence, command) {
          Restore(before);
          return Err(ParticipantFailed);
        }
        proposal := Some(captured.value);
      }
      var fields := ChangedFields(ch);
      return Ok(Some(Applied(fields, EvidenceFor(fields, ch.facts), proposal)));
    }

    method AcceptProvisionalImplementEligibility(f: F.Forest, no: string, d: Delta, token: ProvisionalToken, command: Id,
                                                 valid: Delta -> bool, tasks: Tasks, newEpoch: Id, newId: Id)
      returns (r: Result<Option<Applied>, Error>)
      modifies this
      ensures Step(Tables(), r)
           == AcceptProvisional(f, old(Tables()), no, d, token, command, valid, tasks, newEpoch, newId)
    {
      hide ApplyDeltas, EligibilityDelta, ProvisionalBlocked;
      var before := Tables();
      var rfc := F.First(F.WithNumber(f, no));
      if ProvisionalBase(f, Tables(), rfc) != token {
        return Err(ImportStale);
      }
      if rfc.None? || f.rfcs[rfc.value].archived {
        return Err(ImportStale);
      }
      if !EligibilityDelta(d) {
        return Err(ImportStale);
      }
      if ProvisionalBlocked(Current(Tables(), rfc.value)) {
        return Err(ImportStale);
      }
      r := ApplyAcceptedFieldDeltas(f, rfc.value, command, [d], valid, true, false, tasks, newEpoch, newId);
      if r.Ok? && r.value.None? {
        Restore(before);
        return Err(ImportStale);
      }
    }

    method Refresh(f: F.Forest, id: Id, revision: nat, tasks: Tasks, command: Id, newId: Id)
      returns (r: Result<Id, Error>)
      modifies `proposals
      ensures Step(Tables(), r) == RfcCascade.Refresh(f, old(Tables()), id, revision, tasks, command, newId)
    {
      hide RfcCascade.CaptureScope;
      var found := LoadPending(Tables(), id, revision);
      if found.Err? {
        return Err(found.error);
      }
      var p := proposals[found.value];
      var binding := CurrentBinding(Tables(), p);
      if binding.Err? {
        return Err(binding.error);
      }
      var (status, evidence) := binding.value;
      var scope := CaptureScope(f, p.trigger, p.epoch, status, evidence, tasks);
      if scope.Err? {
        return Err(scope.error);
      }
      if status == p.status && evidence == p.evidence && scope.value.kind == p.kind && scope.value == p.fingerprint {
        return Ok(id);
      }
      if FindProposal(proposals, newId).Some? {
        return Err(Persistence);
      }
      SupersedeRow(found.value, command);
      proposals := proposals + [NewProposal(newId, scope.value, command)];
      return Ok(newId);
    }

    method Execute(f: F.Forest, id: Id, revision: nat, tasks: Tasks, consent: Consent, command: Id)
      returns (r: Result<(), Error>)
      modifies `proposals
      ensures Step(Tables(), r) == RfcCascade.Execute(f, old(Tables()), id, revision, tasks, consent, command)
    {
      hide RfcCascade.CaptureScope, SnapshotOk, ConsentFault;
      var found := LoadPending(Tables(), id, revision);
      if found.Err? {
        return Err(found.error);
      }
      var p := proposals[found.value];
      if !SnapshotOk(p) {
        return Err(Persistence);
      }
      var scope := CaptureScope(f, p.trigger, p.epoch, p.status, p.evidence, tasks);
      if scope.Err? {
        return Err(scope.error);
      }
      if !SameScope(p, scope.value) {
        return Err(Stale);
      }
      var fault := ConsentFault(consent);
      if fault.Some? {
        return Err(fault.value);
      }
      proposals := proposals[found.value := p.(state := Executed, revision := p.revision + 1, executed := Some(command))];
      return Ok(());
    }
  }

  lemma CapturedIdentity(f: F.Forest, c: Cascade, trigger: Id, epoch: Id, status: StatusClass, evidence: Id,
                         tasks: Tasks, command: Id, newId: Id)
    ensures var r := RfcCascade.CapturePending(f, c, trigger, epoch, status, evidence, tasks, command, newId).result;
            r.Ok? ==> r.value == newId
  {
  }
}
