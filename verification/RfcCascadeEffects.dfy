/** What source acceptance, refresh and execution do to the projections and proposals, exactly, and when they do it. */
module RfcCascadeEffects {
  import opened Prelude
  import F = RfcForest
  import opened RfcCascade
  import opened RfcCascadeScope
  import opened RfcCascadeSafety
  import opened RfcCascadeGuarantees

  /* ---- The captured scope ---- */

  /** Status, evidence and epoch, the branch with every revision, and the applicable WFMs are those of the proposal. */
  ghost predicate ScopeCurrent(f: F.Forest, c: Cascade, p: Proposal, tasks: Tasks) {
    && Terminal(p.status) && Bound(c, p.trigger, p.epoch, p.status, p.evidence)
    && CaptureRfcs(f, p.trigger) == Ok(RfcScope(p.kind, p.rfcs))
    && tasks(MemberIds(p.rfcs)).Some? && multiset(tasks(MemberIds(p.rfcs)).value) == multiset(p.wfms)
  }

  lemma ScopeCurrentIff(f: F.Forest, c: Cascade, p: Proposal, tasks: Tasks)
    requires SnapshotOk(p)
    ensures ScopeCurrent(f, c, p, tasks)
       <==> Terminal(p.status) && CaptureScope(f, c, p.trigger, p.epoch, p.status, p.evidence, tasks) == Ok(p.fingerprint)
  {
    hide Normalize, CaptureRfcs, MembersOk, IdSet, Bound, Terminal;
    var ids := MemberIds(p.rfcs);
    if tasks(ids).Some? {
      if Normalize(tasks(ids).value, IdSet(p.rfcs)).Ok? { NormalizeIdempotent(tasks(ids).value, IdSet(p.rfcs)); }
      if multiset(tasks(ids).value) == multiset(p.wfms) {
        NormalizeOrderInsensitive(tasks(ids).value, p.wfms, IdSet(p.rfcs));
      }
    }
  }

  /** A new pending proposal of the command for this epoch, whose scope is the current one. */
  ghost predicate NewlyCaptured(f: F.Forest, c: Cascade, p: Proposal, id: Id, trigger: Id, epoch: Id, status: StatusClass,
                                evidence: Id, tasks: Tasks, command: Id) {
    && p.id == id && p.trigger == trigger && p.epoch == epoch && p.status == status && p.evidence == evidence
    && p.state == Pending && p.revision == 1 && p.created == command && p.executed.None? && p.superseded.None?
    && SnapshotOk(p) && ScopeCurrent(f, c, p, tasks)
  }

  lemma CaptureCaptures(f: F.Forest, c: Cascade, trigger: Id, epoch: Id, status: StatusClass, evidence: Id, tasks: Tasks,
                        id: Id, command: Id)
    requires CaptureScope(f, c, trigger, epoch, status, evidence, tasks).Ok?
    ensures NewlyCaptured(f, c,
                          NewProposal(id, CaptureScope(f, c, trigger, epoch, status, evidence, tasks).value, command), id,
                          trigger, epoch, status, evidence, tasks, command)
  {
    hide CaptureScope, SnapshotOk, ScopeCurrent;
    var d := CaptureScope(f, c, trigger, epoch, status, evidence, tasks).value;
    CapturedSnapshotOk(f, c, trigger, epoch, status, evidence, tasks, id, command);
    ScopeCurrentIff(f, c, NewProposal(id, d, command), tasks);
  }

  /** The proposal is settled by the command, and nothing else changed. */
  predicate Settled(c: Cascade, d: Cascade, i: nat, state: ProposalState, executed: Option<Id>, superseded: Option<Id>) {
    && |d.proposals| >= |c.proposals| > i
    && (forall k :: 0 <= k < |c.proposals| && k != i ==> d.proposals[k] == c.proposals[k])
    && var p, q := c.proposals[i], d.proposals[i];
    && q.state == state && q.revision == p.revision + 1 && q.executed == executed && q.superseded == superseded
    && q.id == p.id && q.trigger == p.trigger && q.epoch == p.epoch && q.status == p.status && q.evidence == p.evidence
    && q.kind == p.kind && q.fingerprint == p.fingerprint && q.created == p.created && q.rfcs == p.rfcs && q.wfms == p.wfms
  }

  /* ---- Execution ---- */

  /** Both participants stand by what was reviewed, the preview and the deliberate-action proof hold, and effects applied. */
  predicate Consented(k: Consent) {
    k.task == VerdictReady && k.communication == VerdictReady && k.preview && k.proof && k.applied
  }

  predicate PendingAt(c: Cascade, id: Id, revision: nat, i: nat) {
    && FindProposal(c.proposals, id) == Some(i)
    && i < |c.proposals| && c.proposals[i].state == Pending && c.proposals[i].revision == revision
  }

  /**
   An execution answers Ok exactly for a pending proposal at the reviewed revision whose captured scope is the current
   one and to which everyone consents; it then marks that proposal executed by the command and changes nothing else.
   */
  lemma ExecuteDoes(f: F.Forest, c: Cascade, id: Id, revision: nat, tasks: Tasks, consent: Consent, command: Id)
    requires Inv(c)
    ensures var s := Execute(f, c, id, revision, tasks, consent, command);
            && (s.result.Ok? <==>
                  exists i: nat :: PendingAt(c, id, revision, i) && ScopeCurrent(f, c, c.proposals[i], tasks) && Consented(consent))
            && (s.result.Err? ==> s.after == c)
            && (s.result.Ok? ==>
                  && FindProposal(c.proposals, id).Some? && s.after.projections == c.projections
                  && |s.after.proposals| == |c.proposals|
                  && Settled(c, s.after, FindProposal(c.proposals, id).value, Executed, Some(command), None))
  {
    hide Inv, CaptureScope, ScopeCurrent, MembersOk, Normalize;
    var found := LoadPending(c, id, revision);
    if found.Ok? {
      var i := found.value;
      var p := c.proposals[i];
      assert PendingAt(c, id, revision, i);
      PendingRow(c, i);
      PendingTerminal(c, i);
      ScopeCurrentIff(f, c, p, tasks);
    }
  }

  lemma PendingTerminal(c: Cascade, i: nat)
    requires Inv(c) && i < |c.proposals|
    ensures Terminal(c.proposals[i].status)
  {
    assert ProposalOk(c.proposals[i]);
  }

  /** With the scope current, each missing consent is refused with its own error, in this order, and changes nothing. */
  lemma MissingConsentRefused(f: F.Forest, c: Cascade, id: Id, revision: nat, tasks: Tasks, k: Consent, command: Id,
                              i: nat)
    requires Inv(c) && PendingAt(c, id, revision, i) && ScopeCurrent(f, c, c.proposals[i], tasks) && !Consented(k)
    ensures Execute(f, c, id, revision, tasks, k, command).after == c
    ensures var e := Execute(f, c, id, revision, tasks, k, command).result;
            && (k.task == VerdictStale ==> e == Err(Stale))
            && (k.task == VerdictUnknown ==> e == Err(ParticipantFailed))
            && (k.task == VerdictReady && k.communication == VerdictStale ==> e == Err(Stale))
            && (k.task == VerdictReady && k.communication == VerdictUnknown ==> e == Err(ParticipantFailed))
            && (k.task == VerdictReady && k.communication == VerdictReady ==>
                  && (!k.preview ==> e == Err(Stale))
                  && (k.preview && !k.proof ==> e == Err(ConfirmationRequired))
                  && (k.preview && k.proof ==> e == Err(ParticipantFailed)))
  {
    hide Inv, CaptureScope, ScopeCurrent, MembersOk, Normalize;
    PendingRow(c, i);
    PendingTerminal(c, i);
    ScopeCurrentIff(f, c, c.proposals[i], tasks);
  }

  /* ---- Refresh ---- */

  /**
   A refresh leaves a proposal with the current scope alone. Otherwise it supersedes it and appends a pending one for
   the same epoch with the status and evidence now accepted and the scope now current.
   */
  lemma RefreshDoes(f: F.Forest, c: Cascade, id: Id, revision: nat, tasks: Tasks, command: Id, newId: Id)
    requires Inv(c)
    ensures var s := Refresh(f, c, id, revision, tasks, command, newId);
            && (s.result.Err? ==> s.after == c)
            && (s.result.Ok? ==>
                  exists i: nat :: PendingAt(c, id, revision, i) &&
                    if ScopeCurrent(f, c, c.proposals[i], tasks) then s.after == c && s.result.value == id
                    else s.result.value == newId && Replaced(f, c, s.after, i, tasks, command, newId))
  {
    hide Inv, CaptureScope, ScopeCurrent, MembersOk, Normalize, Replaced, Bound, SnapshotOk;
    var s := Refresh(f, c, id, revision, tasks, command, newId);
    if s.result.Ok? {
      var i := LoadPending(c, id, revision).value;
      var p := c.proposals[i];
      assert PendingAt(c, id, revision, i);
      PendingRow(c, i);
      PendingTerminal(c, i);
      ScopeCurrentIff(f, c, p, tasks);
      var b := CurrentBinding(c, p).value;
      CurrentBound(c, p);
      DigestBinds(f, c, p.trigger, p.epoch, b.0, b.1, tasks);
      SnapshotDigest(p);
      if b == (p.status, p.evidence) {
      } else {
        OtherBinding(f, c, p, tasks);
      }
      if s.after != c || s.result.value != id {
        Replaces(f, c, i, tasks, command, newId);
      }
    }
  }

  lemma SnapshotDigest(p: Proposal)
    requires SnapshotOk(p)
    ensures p.fingerprint.kind == p.kind && p.fingerprint.status == p.status && p.fingerprint.evidence == p.evidence
  {
    hide MembersOk, Normalize;
  }

  lemma DigestBinds(f: F.Forest, c: Cascade, trigger: Id, epoch: Id, status: StatusClass, evidence: Id, tasks: Tasks)
    ensures var d := CaptureScope(f, c, trigger, epoch, status, evidence, tasks);
            d.Ok? ==> d.value.status == status && d.value.evidence == evidence
  {
    hide Normalize, CaptureRfcs, Bound;
  }

  lemma CurrentBound(c: Cascade, p: Proposal)
    requires CurrentBinding(c, p).Ok?
    ensures var (status, evidence) := CurrentBinding(c, p).value; Bound(c, p.trigger, p.epoch, status, evidence)
  {
  }

  lemma OtherBinding(f: F.Forest, c: Cascade, p: Proposal, tasks: Tasks)
    requires CurrentBinding(c, p).Ok? && CurrentBinding(c, p).value != (p.status, p.evidence)
    ensures !ScopeCurrent(f, c, p, tasks)
  {
    hide CaptureRfcs;
  }

  ghost predicate Replaced(f: F.Forest, c: Cascade, d: Cascade, i: nat, tasks: Tasks, command: Id, newId: Id) {
    && i < |c.proposals| && d.projections == c.projections && |d.proposals| == |c.proposals| + 1
    && Settled(c, d, i, Superseded, c.proposals[i].executed, Some(command))
    && var p := c.proposals[i];
    && p.trigger in c.projections && EvidenceOf(c.projections[p.trigger]).Some?
    && NewlyCaptured(f, c, d.proposals[|c.proposals|], newId, p.trigger, p.epoch, c.projections[p.trigger].status,
                     EvidenceOf(c.projections[p.trigger]).value, tasks, command)
  }

  lemma Replaces(f: F.Forest, c: Cascade, i: nat, tasks: Tasks, command: Id, newId: Id)
    requires i < |c.proposals| && CurrentBinding(c, c.proposals[i]).Ok?
    requires var p := c.proposals[i]; var b := CurrentBinding(c, p).value;
             CaptureScope(f, c, p.trigger, p.epoch, b.0, b.1, tasks).Ok?
    ensures var p := c.proposals[i]; var b := CurrentBinding(c, p).value;
            Replaced(f, c, Insert(Supersede(c, i, command),
                                  NewProposal(newId, CaptureScope(f, c, p.trigger, p.epoch, b.0, b.1, tasks).value, command)),
                     i, tasks, command, newId)
  {
    hide CaptureScope, NewlyCaptured;
    var p := c.proposals[i];
    var b := CurrentBinding(c, p).value;
    CaptureCaptures(f, c, p.trigger, p.epoch, b.0, b.1, tasks, newId, command);
  }

  /* ---- Source acceptance ---- */

  /** What one delta leaves in the projection: its value, unless a provisional status meets an Enhanced RFC one. */
  predicate Landed(current: Option<Projection>, p: Projection, d: Delta) {
    if d.field == Status && current.Some? && current.value.authority == Some(F.EnhancedRfc)
       && d.authority == Some(F.WfmProvisional)
    then p.status == current.value.status && p.authority == current.value.authority && p.epoch == current.value.epoch
    else
      && d.field in p.facts && p.facts[d.field].value == d.value
      && (d.field == Status ==> d.status == Some(p.status) && p.authority == d.authority)
      && (p.facts[d.field].evidence == d.evidence
          || (current.Some? && d.field in current.value.facts && p.facts[d.field] == current.value.facts[d.field]))
  }

  /** A field no delta names keeps its value and evidence; without a status delta so do status, authority and epoch. */
  ghost predicate Kept(current: Option<Projection>, p: Projection, deltas: seq<Delta>) {
    && (forall k: Field :: (forall d :: d in deltas ==> d.field != k) ==>
          if current.Some? && k in current.value.facts then k in p.facts && p.facts[k] == current.value.facts[k]
          else k !in p.facts)
    && ((forall d :: d in deltas ==> d.field != Status) ==>
          if current.Some? then p.status == current.value.status && p.authority == current.value.authority
                                && p.epoch == current.value.epoch
          else p.status == F.Unknown && p.authority.None? && p.epoch.None?)
    && p.revision == (if current.Some? then current.value.revision + 1 else 1)
  }

  lemma MergedLands(current: Option<Projection>, deltas: seq<Delta>, ch: Changes, p: Projection, d: Delta)
    requires Means(current, deltas, NOTHING, ch) && d in deltas && ShapeOk(d) && DistinctFields(deltas)
    requires exists epoch :: p == Merge(current, ch, epoch) && (ch.status.None? ==> epoch == EpochOf(current))
    ensures Landed(current, p, d)
  {
    if Skipped(current, d) {
      forall e | Chooses(current, deltas, e)
        ensures e.field != d.field
      {
        SameField(deltas, d, e);
      }
    } else {
      assert Chooses(current, deltas, d);
    }
  }

  lemma SameField(deltas: seq<Delta>, d: Delta, e: Delta)
    requires d in deltas && e in deltas && DistinctFields(deltas) && d != e
    ensures d.field != e.field
  {
    var i :| 0 <= i < |deltas| && deltas[i] == d;
    var j :| 0 <= j < |deltas| && deltas[j] == e;
  }

  lemma MergedKeeps(current: Option<Projection>, deltas: seq<Delta>, ch: Changes, p: Projection)
    requires Means(current, deltas, NOTHING, ch)
    requires exists epoch :: p == Merge(current, ch, epoch) && (ch.status.None? ==> epoch == EpochOf(current))
    ensures Kept(current, p, deltas)
  {
    hide Skipped;
    assert forall d :: Chooses(current, deltas, d) ==> d in deltas;
  }

  /** The epoch follows the status: kept while terminal, new when it becomes terminal, none otherwise. */
  predicate EpochTurns(current: Option<Projection>, p: Projection, newEpoch: Id) {
    if !Terminal(p.status) then p.epoch.None?
    else if IsTerminal(current) then p.epoch == current.value.epoch
    else p.epoch == Some(newEpoch)
  }

  /** What becomes of the proposals: one captured when a terminal epoch opens, the pending one superseded when it ends. */
  ghost predicate ProposalsTurn(f: F.Forest, c: Cascade, d: Cascade, rfc: Id, p: Projection, tasks: Tasks, command: Id,
                                newEpoch: Id, newId: Id) {
    if Terminal(p.status) && !IsTerminal(Current(c, rfc)) then
      && |d.proposals| == |c.proposals| + 1 && d.proposals[..|c.proposals|] == c.proposals && EvidenceOf(p).Some?
      && NewlyCaptured(f, d, d.proposals[|c.proposals|], newId, rfc, newEpoch, p.status, EvidenceOf(p).value, tasks, command)
    else if !Terminal(p.status) && IsTerminal(Current(c, rfc)) then
      && |d.proposals| == |c.proposals|
      && (forall k :: 0 <= k < |c.proposals| ==>
            if c.proposals[k].trigger == rfc && c.proposals[k].state == Pending
            then Settled(c, d, k, Superseded, c.proposals[k].executed, Some(command)) else d.proposals[k] == c.proposals[k])
    else d.proposals == c.proposals
  }

  /** The row an acceptance writes. */
  ghost predicate Accepted(f: F.Forest, c: Cascade, d: Cascade, rfc: Id, deltas: seq<Delta>, tasks: Tasks, command: Id,
                           newEpoch: Id, newId: Id) {
    && d.projections.Keys == c.projections.Keys + {rfc}
    && (forall r :: r in c.projections && r != rfc ==> d.projections[r] == c.projections[r])
    && (forall x :: x in deltas ==> Landed(Current(c, rfc), d.projections[rfc], x))
    && Kept(Current(c, rfc), d.projections[rfc], deltas) && EpochTurns(Current(c, rfc), d.projections[rfc], newEpoch)
    && ProposalsTurn(f, c, d, rfc, d.projections[rfc], tasks, command, newEpoch, newId)
  }

  lemma WriteDoes(c: Cascade, rfc: Id, ch: Changes, newEpoch: Id, command: Id)
    requires Inv(c) && ChangesOk(ch)
    requires TurnFault(TurnOf(Current(c, rfc), ch), Current(c, rfc), true, true).None?
    ensures var turn := TurnOf(Current(c, rfc), ch);
            var d := Write(c, rfc, ch, turn, newEpoch, command);
            var p := Merge(Current(c, rfc), ch, NextEpoch(turn, Current(c, rfc), newEpoch));
            && d.projections == c.projections[rfc := p] && EpochTurns(Current(c, rfc), p, newEpoch)
            && |d.proposals| == |c.proposals| && (turn == Opens <==> Terminal(p.status) && !IsTerminal(Current(c, rfc)))
            && (turn == Opens ==> p.status == ch.status.value.status.value && EvidenceOf(p) == Some(ch.status.value.evidence))
            && (if turn == Reverses then
                  forall k :: 0 <= k < |c.proposals| ==>
                    if c.proposals[k].trigger == rfc && c.proposals[k].state == Pending
                    then Settled(c, d, k, Superseded, c.proposals[k].executed, Some(command))
                    else d.proposals[k] == c.proposals[k]
                else d.proposals == c.proposals)
            && (turn == Reverses <==> !Terminal(p.status) && IsTerminal(Current(c, rfc)))
            && (ch.status.None? ==> NextEpoch(turn, Current(c, rfc), newEpoch) == EpochOf(Current(c, rfc)))
  {
    hide Inv, FindPending, EndEpoch;
    if rfc in c.projections { ProjectionRow(c, rfc); }
    var turn := TurnOf(Current(c, rfc), ch);
    if turn == Reverses { EndEpochDoes(c, rfc, EpochOf(Current(c, rfc)).value, command); }
  }

  /** Ending an epoch supersedes exactly what is pending for the RFC. */
  lemma EndEpochDoes(c: Cascade, rfc: Id, epoch: Id, command: Id)
    requires Inv(c) && rfc in c.projections && c.projections[rfc].epoch == Some(epoch)
    ensures var d := EndEpoch(c, rfc, epoch, command);
            && d.projections == c.projections && |d.proposals| == |c.proposals|
            && forall k :: 0 <= k < |c.proposals| ==>
                 if c.proposals[k].trigger == rfc && c.proposals[k].state == Pending
                 then Settled(c, d, k, Superseded, c.proposals[k].executed, Some(command))
                 else d.proposals[k] == c.proposals[k]
  {
    hide Inv;
    var i := FindPending(c.proposals, rfc, epoch);
    forall k | 0 <= k < |c.proposals| && c.proposals[k].trigger == rfc && c.proposals[k].state == Pending
      ensures i == Some(k)
    {
      PendingRow(c, k);
      OnePendingPerChain(c, k, i.value);
    }
  }

  /** The write alone, and then the capture if an epoch opens. */
  lemma ChangesSplit(f: F.Forest, c: Cascade, rfc: Id, command: Id, ch: Changes, reviewed: bool, capturing: bool,
                     tasks: Tasks, newEpoch: Id, newId: Id)
    requires ApplyChanges(f, c, rfc, command, ch, reviewed, capturing, tasks, newEpoch, newId).result.Ok?
    ensures var s := ApplyChanges(f, c, rfc, command, ch, reviewed, capturing, tasks, newEpoch, newId);
            var turn := TurnOf(Current(c, rfc), ch);
            var d := Write(c, rfc, ch, turn, newEpoch, command);
            && TurnFault(turn, Current(c, rfc), true, true).None?
            && s.after.projections == d.projections
            && s.result.value.Some? && s.result.value.value.changed == ChangedFields(ch)
            && s.result.value.value.evidence == EvidenceFor(ChangedFields(ch), ch.facts)
            && (s.result.value.value.proposal.Some? <==> turn == Opens)
            && (turn != Opens ==> s.after == d)
            && (turn == Opens ==>
                  && ch.status.Some? && ch.status.value.status.Some?
                  && var status, evidence := ch.status.value.status.value, ch.status.value.evidence;
                  && |s.after.proposals| == |d.proposals| + 1 && s.after.proposals[..|d.proposals|] == d.proposals
                  && NewlyCaptured(f, s.after, s.after.proposals[|d.proposals|], newId, rfc, newEpoch, status, evidence,
                                   tasks, command))
  {
    hide Write, CaptureScope, NewlyCaptured, Captured, ChangedFields, NextEpoch, Current, Terminal;
    var turn := TurnOf(Current(c, rfc), ch);
    var d := Write(c, rfc, ch, turn, newEpoch, command);
    if turn == Opens {
      var status, evidence := ch.status.value.status.value, ch.status.value.evidence;
      var s := CapturePending(f, d, rfc, newEpoch, status, evidence, tasks, command, newId);
      CaptureCaptures(f, d, rfc, newEpoch, status, evidence, tasks, newId, command);
      SameProjections(f, d, s.after, s.after.proposals[|d.proposals|], newId, rfc, newEpoch, status, evidence, tasks,
                      command);
    }
  }

  lemma ChangesDo(f: F.Forest, c: Cascade, rfc: Id, command: Id, ch: Changes, reviewed: bool, capturing: bool,
                  tasks: Tasks, newEpoch: Id, newId: Id, deltas: seq<Delta>)
    requires Inv(c) && ChangesOk(ch) && Means(Current(c, rfc), deltas, NOTHING, ch) && DistinctFields(deltas)
    requires forall d :: d in deltas ==> ShapeOk(d)
    requires ApplyChanges(f, c, rfc, command, ch, reviewed, capturing, tasks, newEpoch, newId).result.Ok?
    ensures Accepted(f, c, ApplyChanges(f, c, rfc, command, ch, reviewed, capturing, tasks, newEpoch, newId).after, rfc,
                     deltas, tasks, command, newEpoch, newId)
  {
    hide Inv, ChangesOk, Means, Merge, Write, Landed, Kept, NewlyCaptured, ShapeOk, EpochTurns, ApplyChanges,
         Settled, TurnOf, TurnFault, NextEpoch, Terminal, IsTerminal, EvidenceOf, ChangedFields, DistinctFields;
    var current := Current(c, rfc);
    var turn := TurnOf(current, ch);
    ChangesSplit(f, c, rfc, command, ch, reviewed, capturing, tasks, newEpoch, newId);
    WriteDoes(c, rfc, ch, newEpoch, command);
    var p := Merge(current, ch, NextEpoch(turn, current, newEpoch));
    forall x | x in deltas
      ensures Landed(current, p, x)
    {
      MergedLands(current, deltas, ch, p, x);
    }
    MergedKeeps(current, deltas, ch, p);
  }

  lemma SameProjections(f: F.Forest, c: Cascade, d: Cascade, p: Proposal, id: Id, trigger: Id, epoch: Id,
                        status: StatusClass, evidence: Id, tasks: Tasks, command: Id)
    requires NewlyCaptured(f, c, p, id, trigger, epoch, status, evidence, tasks, command) && d.projections == c.projections
    ensures NewlyCaptured(f, d, p, id, trigger, epoch, status, evidence, tasks, command)
  {
    hide CaptureRfcs, SnapshotOk;
  }

  /** The value is of the field's own kind and not empty; a status names its class and authority, and nothing else does. */
  predicate WellShaped(d: Delta) {
    && d.kind == (if d.field in {ExternalCreatedAt, LastUpdate} then InstantKind
                  else if d.field == Status then ControlledKind else TextKind)
    && (if d.field in {ExternalCreatedAt, LastUpdate} then d.value.Instant? && 0 <= d.value.at
        else d.value.Text? && d.value.text != "")
    && (d.field == Status <==> d.authority.Some?) && (d.field == Status <==> d.status.Some?) && d.status != Some(F.Unknown)
  }

  predicate AllWell(deltas: seq<Delta>, valid: Delta -> bool) {
    forall d :: d in deltas ==> WellShaped(d) && valid(d)
  }

  lemma ShapedIff(d: Delta)
    ensures ShapeOk(d) <==> WellShaped(d)
  {
  }

  lemma AllWellIff(deltas: seq<Delta>, valid: Delta -> bool)
    ensures AllAccepted(deltas, valid) <==> AllWell(deltas, valid)
  {
    hide ShapeOk, WellShaped;
    forall d
      ensures ShapeOk(d) <==> WellShaped(d)
    {
      ShapedIff(d);
    }
  }

  /** A delta that would leave the projection as it is. */
  predicate AlreadyThere(current: Option<Projection>, d: Delta) {
    current.Some? && Landed(current, current.value, d)
  }

  lemma SkippedIff(current: Option<Projection>, d: Delta)
    ensures Skipped(current, d) <==> AlreadyThere(current, d)
  {
  }

  /**
   An acceptance that answers Ok has only well-shaped valid deltas of different fields; it changes nothing if all are
   already there, and otherwise writes exactly the row, the epoch and the proposals they call for.
   */
  lemma ApplyDoes(f: F.Forest, c: Cascade, rfc: Id, command: Id, deltas: seq<Delta>, valid: Delta -> bool,
                  reviewed: bool, capturing: bool, tasks: Tasks, newEpoch: Id, newId: Id)
    requires Inv(c)
    ensures var s := ApplyDeltas(f, c, rfc, command, deltas, valid, reviewed, capturing, tasks, newEpoch, newId);
            && (s.result.Err? ==> s.after == c)
            && (s.result.Ok? ==> rfc in f.rfcs && AllWell(deltas, valid) && DistinctFields(deltas))
            && (s.result.Ok? && s.result.value.None? ==>
                  s.after == c && forall d :: d in deltas ==> AlreadyThere(Current(c, rfc), d))
            && (s.result.Ok? && s.result.value.Some? ==>
                  && (exists d :: d in deltas && !AlreadyThere(Current(c, rfc), d))
                  && Accepted(f, c, s.after, rfc, deltas, tasks, command, newEpoch, newId)
                  && Reported(Current(c, rfc), s.after.projections[rfc], deltas, s.result.value.value))
  {
    hide Inv, ApplyChanges, Accept, ChangesOk, AllAccepted, AllWell, DistinctFields, Means, Accepted, AlreadyThere,
         Reported;
    var current := Current(c, rfc);
    AllWellIff(deltas, valid);
    EmptyChangesOk();
    AcceptSound(current, deltas, valid, {}, NOTHING);
    AcceptMeans(current, deltas, valid, {}, NOTHING);
    var accepted := Accept(current, deltas, valid, {}, NOTHING);
    if accepted.Ok? {
      var ch := accepted.value;
      ChosenAre(current, deltas, ch);
      AcceptedShapes(deltas, valid);
      RefusedChanges(f, c, rfc, command, ch, reviewed, capturing, tasks, newEpoch, newId);
      if ch.facts != map[] {
        var s := ApplyChanges(f, c, rfc, command, ch, reviewed, capturing, tasks, newEpoch, newId);
        if s.result.Ok? {
          ChangesDo(f, c, rfc, command, ch, reviewed, capturing, tasks, newEpoch, newId, deltas);
          ChangesReport(f, c, rfc, command, ch, reviewed, capturing, tasks, newEpoch, newId, deltas);
        }
      }
    }
  }

  lemma AcceptedShapes(deltas: seq<Delta>, valid: Delta -> bool)
    requires AllAccepted(deltas, valid)
    ensures forall d :: d in deltas ==> ShapeOk(d)
  {
  }

  /** Something is chosen exactly when some delta is not already there. */
  lemma ChosenAre(current: Option<Projection>, deltas: seq<Delta>, ch: Changes)
    requires Means(current, deltas, NOTHING, ch)
    ensures ch.facts == map[] <==> forall d :: d in deltas ==> AlreadyThere(current, d)
    ensures forall k :: k in ch.facts <==> exists d :: d in deltas && d.field == k && !AlreadyThere(current, d)
  {
    hide Skipped, AlreadyThere;
    forall d
      ensures Chooses(current, deltas, d) <==> d in deltas && !AlreadyThere(current, d)
    {
      SkippedIff(current, d);
    }
    if d :| d in deltas && !AlreadyThere(current, d) {
      assert Chooses(current, deltas, d);
    }
  }

  /** The answer names exactly the fields whose delta was not already there, each with the evidence now in the row. */
  ghost predicate Reported(current: Option<Projection>, p: Projection, deltas: seq<Delta>, a: Applied) {
    && (forall k: Field :: k in a.changed <==> exists d :: d in deltas && d.field == k && !AlreadyThere(current, d))
    && |a.evidence| == |a.changed|
    && (forall i :: 0 <= i < |a.changed| ==>
          a.changed[i] in p.facts && a.evidence[i] == p.facts[a.changed[i]].evidence)
    && (a.proposal.Some? <==> Terminal(p.status) && !IsTerminal(current))
  }

  lemma AllFieldsOrdered(k: Field)
    ensures k in FIELD_ORDER
  {
    match k
    case Summary => assert FIELD_ORDER[0] == k;
    case ExternalCreatedAt => assert FIELD_ORDER[1] == k;
    case Creator => assert FIELD_ORDER[2] == k;
    case CustomerAccountNumber => assert FIELD_ORDER[3] == k;
    case CustomerAccountName => assert FIELD_ORDER[4] == k;
    case Severity => assert FIELD_ORDER[5] == k;
    case Status => assert FIELD_ORDER[6] == k;
    case OwnerExternalId => assert FIELD_ORDER[7] == k;
    case OwnerName => assert FIELD_ORDER[8] == k;
    case L1HandlerName => assert FIELD_ORDER[9] == k;
    case L2HandlerName => assert FIELD_ORDER[10] == k;
    case LastUpdate => assert FIELD_ORDER[11] == k;
  }

  lemma ChangesReport(f: F.Forest, c: Cascade, rfc: Id, command: Id, ch: Changes, reviewed: bool, capturing: bool,
                      tasks: Tasks, newEpoch: Id, newId: Id, deltas: seq<Delta>)
    requires Inv(c) && ChangesOk(ch) && Means(Current(c, rfc), deltas, NOTHING, ch)
    requires ApplyChanges(f, c, rfc, command, ch, reviewed, capturing, tasks, newEpoch, newId).result.Ok?
    ensures var s := ApplyChanges(f, c, rfc, command, ch, reviewed, capturing, tasks, newEpoch, newId);
            && rfc in s.after.projections && s.result.value.Some?
            && Reported(Current(c, rfc), s.after.projections[rfc], deltas, s.result.value.value)
  {
    hide *;
    var current := Current(c, rfc);
    var turn := TurnOf(current, ch);
    ChosenAre(current, deltas, ch);
    ChangesSplit(f, c, rfc, command, ch, reviewed, capturing, tasks, newEpoch, newId);
    WriteDoes(c, rfc, ch, newEpoch, command);
    var p := Merge(current, ch, NextEpoch(turn, current, newEpoch));
    MergedFacts(current, ch, NextEpoch(turn, current, newEpoch));
    ChangedAll(ch);
    var s := ApplyChanges(f, c, rfc, command, ch, reviewed, capturing, tasks, newEpoch, newId);
    FieldsReported(current, p, deltas, ch, s.result.value.value);
  }

  lemma MergedFacts(current: Option<Projection>, ch: Changes, epoch: Option<Id>)
    ensures forall k :: k in ch.facts ==>
              k in Merge(current, ch, epoch).facts && Merge(current, ch, epoch).facts[k] == ch.facts[k]
  {
  }

  lemma ChangedAll(ch: Changes)
    ensures forall k: Field :: k in ChangedFields(ch) <==> k in ch.facts
  {
    forall k: Field | k in ch.facts
      ensures k in ChangedFields(ch)
    {
      AllFieldsOrdered(k);
    }
  }

  lemma FieldsReported(current: Option<Projection>, p: Projection, deltas: seq<Delta>, ch: Changes, a: Applied)
    requires forall k :: k in ch.facts <==> exists d :: d in deltas && d.field == k && !AlreadyThere(current, d)
    requires forall k :: k in ch.facts ==> k in p.facts && p.facts[k] == ch.facts[k]
    requires forall k: Field :: k in ChangedFields(ch) <==> k in ch.facts
    requires a.changed == ChangedFields(ch) && a.evidence == EvidenceFor(ChangedFields(ch), ch.facts)
    requires a.proposal.Some? <==> Terminal(p.status) && !IsTerminal(current)
    ensures Reported(current, p, deltas, a)
  {
    hide AlreadyThere, ChangedFields, Terminal, IsTerminal;
    forall i | 0 <= i < |a.changed|
      ensures a.changed[i] in ch.facts
    {
      assert a.changed[i] in a.changed;
    }
  }
}
