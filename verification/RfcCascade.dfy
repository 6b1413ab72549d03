/**
 Accepted RFC source status and the terminal cascade it opens: the projection row of each RFC, the cascade
 proposals in the order they were inserted, and every step on them. The hierarchy is read from `RfcForest`.
 */
module RfcCascade {
  import opened Prelude
  import F = RfcForest
  import A = RfcArchive

  type StatusClass = F.StatusClass
  type Authority = F.Authority

  predicate Terminal(s: StatusClass) {
    s == F.TerminalClosed || s == F.TerminalCancelled
  }

  datatype Field =
    | Summary | ExternalCreatedAt | Creator | CustomerAccountNumber | CustomerAccountName | Severity | Status
    | OwnerExternalId | OwnerName | L1HandlerName | L2HandlerName | LastUpdate

  const FIELD_ORDER: seq<Field> :=
    [Summary, ExternalCreatedAt, Creator, CustomerAccountNumber, CustomerAccountName, Severity, Status,
     OwnerExternalId, OwnerName, L1HandlerName, L2HandlerName, LastUpdate]

  datatype ValueKind = TextKind | InstantKind | ControlledKind

  datatype Value = Text(text: string) | Instant(at: int)

  /** A field's accepted value and the evidence it came from. */
  datatype Fact = Fact(value: Value, evidence: Id)

  datatype Delta = Delta(field: Field, kind: ValueKind, value: Value, evidence: Id, status: Option<StatusClass>,
                         authority: Option<Authority>)

  /** The current source projection; `facts` holds every accepted field, the status text among them. */
  datatype Projection = Projection(facts: map<Field, Fact>, status: StatusClass, authority: Option<Authority>,
                                   epoch: Option<Id>, revision: nat)

  datatype Role = Root | SubordinateRole | Standalone

  datatype RfcMember = RfcMember(rfc: Id, revision: nat, role: Role)

  datatype WfmMember = WfmMember(task: Id, owner: Id, revision: nat, number: string)

  datatype ScopeKind = ExactRfc | RootBranch

  /** The SHA-256 of the canonical scope payload, as an injective function of it. */
  datatype Digest = ScopeDigest(trigger: Id, epoch: Id, status: StatusClass, evidence: Id, kind: ScopeKind,
                                rfcs: seq<RfcMember>, wfms: seq<WfmMember>)

  datatype ProposalState = Pending | Executed | Superseded

  datatype Proposal = Proposal(
    id: Id, trigger: Id, epoch: Id, status: StatusClass, evidence: Id, kind: ScopeKind, fingerprint: Digest,
    state: ProposalState, revision: nat, created: Id, executed: Option<Id>, superseded: Option<Id>,
    rfcs: seq<RfcMember>, wfms: seq<WfmMember>)

  datatype Cascade = Cascade(projections: map<Id, Projection>, proposals: seq<Proposal>)

  datatype Error =
    | NotFound | NotPending | Stale | ParticipantFailed | ProjectionInvalid | ReversalReviewRequired
    | ConfirmationRequired | ImportStale | Persistence

  datatype Step<+T> = Step(after: Cascade, result: Result<T, Error>)

  function Refuse<T>(c: Cascade, e: Error): Step<T> { Step(c, Err(e)) }

  /* ---- Scope capture ---- */

  predicate ValidTaskNo(s: string) {
    |s| == 16 && s[0] == 'T' && s[1] == 'K' && forall i :: 2 <= i < 16 ==> '0' <= s[i] <= '9'
  }

  predicate MemberOk(m: WfmMember, allowed: set<Id>) {
    m.owner in allowed && m.revision > 0 && ValidTaskNo(m.number)
  }

  /** Every member is in scope and well formed, and no Task identity or number repeats. */
  predicate Capturable(raw: seq<WfmMember>, allowed: set<Id>) {
    && (forall i :: 0 <= i < |raw| ==> MemberOk(raw[i], allowed))
    && (forall i, j :: 0 <= i < j < |raw| ==> raw[i].task != raw[j].task && raw[i].number != raw[j].number)
  }

  predicate Before(a: WfmMember, b: WfmMember) {
    a.owner < b.owner || (a.owner == b.owner && a.task < b.task)
  }

  function InsertSorted(m: WfmMember, s: seq<WfmMember>): seq<WfmMember> {
    if s == [] || Before(m, s[0]) then [m] + s else [s[0]] + InsertSorted(m, s[1..])
  }

  function Sorted(raw: seq<WfmMember>): seq<WfmMember> {
    if raw == [] then [] else InsertSorted(raw[|raw| - 1], Sorted(raw[..|raw| - 1]))
  }

  function Normalize(raw: seq<WfmMember>, allowed: set<Id>): Result<seq<WfmMember>, Error> {
    if Capturable(raw, allowed) then Ok(Sorted(raw)) else Err(ParticipantFailed)
  }

  function ChildMembers(f: F.Forest, ids: seq<Id>): (ms: seq<RfcMember>)
    requires forall id :: id in ids ==> id in f.rfcs
    ensures |ms| == |ids| && forall i :: 0 <= i < |ids| ==>
      ms[i] == RfcMember(ids[i], f.rfcs[ids[i]].revision, SubordinateRole)
  {
    seq(|ids|, i requires 0 <= i < |ids| => RfcMember(ids[i], f.rfcs[ids[i]].revision, SubordinateRole))
  }

  datatype RfcScope = RfcScope(kind: ScopeKind, members: seq<RfcMember>)

  /** The RFCs one trigger covers: itself when subordinate, else itself and its subordinates in order. */
  function CaptureRfcs(f: F.Forest, trigger: Id): (r: Result<RfcScope, Error>)
  {
    if trigger !in f.rfcs then Err(NotFound) else
    var children := F.Children(f, trigger) * f.rfcs.Keys;
    var revision := f.rfcs[trigger].revision;
    if F.ParentOf(f, trigger).Some? then
      if children != {} then Err(Persistence)
      else Ok(RfcScope(ExactRfc, [RfcMember(trigger, revision, SubordinateRole)]))
    else if |F.ChildEdges(f, trigger)| != |F.Children(f, trigger)| then Err(Persistence)
    else
      var role := if children == {} then Standalone else Root;
      Ok(RfcScope(RootBranch, [RfcMember(trigger, revision, role)] + ChildMembers(f, Ascending(children))))
  }

  function MemberIds(ms: seq<RfcMember>): seq<Id> {
    seq(|ms|, i requires 0 <= i < |ms| => ms[i].rfc)
  }

  function IdSet(ms: seq<RfcMember>): set<Id> {
    set m | m in ms :: m.rfc
  }

  /** The Task domain's answer for a list of RFCs: its members in any order, or nothing when it raised. */
  type Tasks = seq<Id> -> Option<seq<WfmMember>>

  function EvidenceOf(p: Projection): Option<Id> {
    if Status in p.facts then Some(p.facts[Status].evidence) else None
  }

  predicate Bound(c: Cascade, trigger: Id, epoch: Id, status: StatusClass, evidence: Id) {
    && trigger in c.projections
    && c.projections[trigger].status == status && c.projections[trigger].epoch == Some(epoch)
    && EvidenceOf(c.projections[trigger]) == Some(evidence)
  }

  function CaptureScope(f: F.Forest, c: Cascade, trigger: Id, epoch: Id, status: StatusClass, evidence: Id, tasks: Tasks)
    : Result<Digest, Error>
  {
    if !Terminal(status) || !Bound(c, trigger, epoch, status, evidence) then Err(Stale) else
    var scope := CaptureRfcs(f, trigger);
    if scope.Err? then Err(scope.error) else
    var raw := tasks(MemberIds(scope.value.members));
    if raw.None? then Err(ParticipantFailed) else
    var wfms := Normalize(raw.value, IdSet(scope.value.members));
    if wfms.Err? then Err(wfms.error)
    else Ok(ScopeDigest(trigger, epoch, status, evidence, scope.value.kind, scope.value.members, wfms.value))
  }

  /* ---- Proposals ---- */

  function NewProposal(id: Id, d: Digest, command: Id): Proposal {
    Proposal(id, d.trigger, d.epoch, d.status, d.evidence, d.kind, d, Pending, 1, command, None, None, d.rfcs, d.wfms)
  }

  predicate PendingFor(p: Proposal, trigger: Id, epoch: Id) {
    p.state == Pending && p.trigger == trigger && p.epoch == epoch
  }

  /** The first matching row, if any. */
  function FindPending(ps: seq<Proposal>, trigger: Id, epoch: Id): (r: Option<nat>)
    ensures r.Some? ==> r.value < |ps| && PendingFor(ps[r.value], trigger, epoch)
    ensures r.None? ==> forall i :: 0 <= i < |ps| ==> !PendingFor(ps[i], trigger, epoch)
    decreases |ps|
  {
    if ps == [] then None
    else if PendingFor(ps[0], trigger, epoch) then Some(0)
    else
      var rest := FindPending(ps[1..], trigger, epoch);
      assert rest.None? ==> forall i :: 1 <= i < |ps| ==> ps[i] == ps[1..][i - 1];
      if rest.Some? then Some(rest.value + 1) else None
  }

  function FindProposal(ps: seq<Proposal>, id: Id): (r: Option<nat>)
    ensures r.Some? ==> r.value < |ps| && ps[r.value].id == id
    ensures r.None? ==> forall i :: 0 <= i < |ps| ==> ps[i].id != id
    decreases |ps|
  {
    if ps == [] then None
    else if ps[0].id == id then Some(0)
    else
      var rest := FindProposal(ps[1..], id);
      assert rest.None? ==> forall i :: 1 <= i < |ps| ==> ps[i] == ps[1..][i - 1];
      if rest.Some? then Some(rest.value + 1) else None
  }

  function Supersede(c: Cascade, i: nat, command: Id): Cascade
    requires i < |c.proposals|
  {
    var p := c.proposals[i];
    c.(proposals := c.proposals[i := p.(state := Superseded, revision := p.revision + 1, superseded := Some(command))])
  }

  function Insert(c: Cascade, p: Proposal): Cascade {
    c.(proposals := c.proposals + [p])
  }

  function CapturePending(f: F.Forest, c: Cascade, trigger: Id, epoch: Id, status: StatusClass, evidence: Id,
                          tasks: Tasks, command: Id, newId: Id): Step<Id>
  {
    if FindPending(c.proposals, trigger, epoch).Some? then Refuse(c, Stale) else
    var scope := CaptureScope(f, c, trigger, epoch, status, evidence, tasks);
    if scope.Err? then Refuse(c, scope.error)
    else if FindProposal(c.proposals, newId).Some? then Refuse(c, Persistence)
    else Step(Insert(c, NewProposal(newId, scope.value, command)), Ok(newId))
  }

  /** What the projection service checks of the proposal its participant returned. */
  predicate Captured(c: Cascade, id: Id, trigger: Id, epoch: Id, status: StatusClass, evidence: Id, command: Id) {
    var i := FindProposal(c.proposals, id);
    && i.Some?
    && var p := c.proposals[i.value];
    && p.trigger == trigger && p.epoch == epoch && p.status == status && p.evidence == evidence
    && p.state == Pending && p.created == command && trigger in IdSet(p.rfcs)
  }

  /* ---- Accepted source deltas ---- */

  function KindOf(field: Field): ValueKind {
    match field
    case ExternalCreatedAt => InstantKind
    case LastUpdate => InstantKind
    case Status => ControlledKind
    case _ => TextKind
  }

  predicate ShapeOk(d: Delta) {
    && d.kind == KindOf(d.field)
    && (if d.kind == InstantKind then d.value.Instant? && d.value.at >= 0 else d.value.Text? && d.value.text != "")
    && (if d.field == Status then d.status.Some? && d.status.value != F.Unknown && d.authority.Some?
        else d.status.None? && d.authority.None?)
  }

  /** What the accepted deltas change. */
  datatype Changes = Changes(facts: map<Field, Fact>, status: Option<Delta>)

  const NOTHING := Changes(map[], None)

  /** An Enhanced RFC status is never replaced by a provisional one; an equal status or value is skipped. */
  predicate Skipped(current: Option<Projection>, d: Delta) {
    current.Some? &&
    if d.field == Status then
      || (current.value.authority == Some(F.EnhancedRfc) && d.authority == Some(F.WfmProvisional))
      || (Status in current.value.facts && current.value.facts[Status].value == d.value
          && Some(current.value.status) == d.status && current.value.authority == d.authority)
    else d.field in current.value.facts && current.value.facts[d.field].value == d.value
  }

  function Change(ch: Changes, d: Delta): Changes {
    Changes(ch.facts[d.field := Fact(d.value, d.evidence)], if d.field == Status then Some(d) else ch.status)
  }

  /** The delta loop: shape, repeated field, evidence, then the skip rules. */
  function Accept(current: Option<Projection>, deltas: seq<Delta>, valid: Delta -> bool, seen: set<Field>, ch: Changes)
    : Result<Changes, Error>
    decreases |deltas|
  {
    if deltas == [] then Ok(ch)
    else if !ShapeOk(deltas[0]) || deltas[0].field in seen || !valid(deltas[0]) then Err(ProjectionInvalid)
    else Accept(current, deltas[1..], valid, seen + {deltas[0].field},
                if Skipped(current, deltas[0]) then ch else Change(ch, deltas[0]))
  }

  datatype Applied = Applied(changed: seq<Field>, evidence: seq<Id>, proposal: Option<Id>)

  function Keep(fields: seq<Field>, m: map<Field, Fact>): (r: seq<Field>)
    ensures forall k :: k in r <==> k in fields && k in m
  {
    if fields == [] then []
    else (if fields[0] in m then [fields[0]] else []) + Keep(fields[1..], m)
  }

  function EvidenceFor(fields: seq<Field>, m: map<Field, Fact>): seq<Id>
    requires forall k :: k in fields ==> k in m
  {
    seq(|fields|, i requires 0 <= i < |fields| => m[fields[i]].evidence)
  }

  function ChangedFields(ch: Changes): (r: seq<Field>)
    ensures forall k :: k in r ==> k in ch.facts
  {
    Keep(FIELD_ORDER, ch.facts)
  }

  function Merge(current: Option<Projection>, ch: Changes, epoch: Option<Id>): Projection {
    var status := if ch.status.Some? && ch.status.value.status.Some? then ch.status.value.status.value
                  else if current.Some? then current.value.status else F.Unknown;
    var authority := if ch.status.Some? then ch.status.value.authority
                     else if current.Some? then current.value.authority else None;
    if current.None? then Projection(ch.facts, status, authority, epoch, 1)
    else Projection(current.value.facts + ch.facts, status, authority, epoch, current.value.revision + 1)
  }

  function Current(c: Cascade, rfc: Id): Option<Projection> {
    if rfc in c.projections then Some(c.projections[rfc]) else None
  }

  predicate IsTerminal(p: Option<Projection>) {
    p.Some? && Terminal(p.value.status)
  }

  function EpochOf(p: Option<Projection>): Option<Id> {
    if p.Some? then p.value.epoch else None
  }

  /** What a projection write must do to the cascade. */
  datatype Turn = Unaffected | Opens | Stays | Reverses | Clears

  function TurnOf(current: Option<Projection>, ch: Changes): Turn {
    if ch.status.None? || ch.status.value.status.None? then Unaffected
    else if Terminal(ch.status.value.status.value) then if IsTerminal(current) then Stays else Opens
    else if IsTerminal(current) then Reverses else Clears
  }

  function TurnFault(turn: Turn, current: Option<Projection>, reviewed: bool, capturing: bool): Option<Error> {
    if turn.Opens? && !capturing then Some(ParticipantFailed)
    else if turn.Reverses? && !reviewed then Some(ReversalReviewRequired)
    else if (turn.Stays? || turn.Reverses?) && EpochOf(current).None? then Some(Persistence)
    else None
  }

  function NextEpoch(turn: Turn, current: Option<Projection>, newEpoch: Id): Option<Id> {
    match turn
    case Unaffected => EpochOf(current)
    case Opens => Some(newEpoch)
    case Stays => EpochOf(current)
    case Reverses => None
    case Clears => None
  }

  /** A reviewed reversal supersedes what is still pending for the epoch it ends. */
  function EndEpoch(c: Cascade, rfc: Id, epoch: Id, command: Id): Cascade {
    var i := FindPending(c.proposals, rfc, epoch);
    if i.None? then c else Supersede(c, i.value, command)
  }

  function Write(c: Cascade, rfc: Id, ch: Changes, turn: Turn, newEpoch: Id, command: Id): Cascade {
    var current := Current(c, rfc);
    var d := if turn.Reverses? && EpochOf(current).Some? then EndEpoch(c, rfc, EpochOf(current).value, command) else c;
    d.(projections := d.projections[rfc := Merge(current, ch, NextEpoch(turn, current, newEpoch))])
  }

  /** `None` is the no-change result. */
  function ApplyDeltas(f: F.Forest, c: Cascade, rfc: Id, command: Id, deltas: seq<Delta>, valid: Delta -> bool,
                       reviewed: bool, capturing: bool, tasks: Tasks, newEpoch: Id, newId: Id): Step<Option<Applied>>
  {
    if rfc !in f.rfcs then Refuse(c, NotFound)
    else if |deltas| > 12 then Refuse(c, ProjectionInvalid)
    else
      var current := Current(c, rfc);
      var accepted := Accept(current, deltas, valid, {}, NOTHING);
      if accepted.Err? then Refuse(c, accepted.error)
      else if accepted.value.facts == map[] then Step(c, Ok(None))
      else ApplyChanges(f, c, rfc, command, accepted.value, reviewed, capturing, tasks, newEpoch, newId)
  }

  function ApplyChanges(f: F.Forest, c: Cascade, rfc: Id, command: Id, ch: Changes, reviewed: bool, capturing: bool,
                        tasks: Tasks, newEpoch: Id, newId: Id): Step<Option<Applied>>
  {
    var turn := TurnOf(Current(c, rfc), ch);
    var fault := TurnFault(turn, Current(c, rfc), reviewed, capturing);
    if fault.Some? then Refuse(c, fault.value) else
    var d := Write(c, rfc, ch, turn, newEpoch, command);
    var fields := ChangedFields(ch);
    if turn != Opens then Step(d, Ok(Some(Applied(fields, EvidenceFor(fields, ch.facts), None))))
    else
      var status, evidence := ch.status.value.status.value, ch.status.value.evidence;
      var s := CapturePending(f, d, rfc, newEpoch, status, evidence, tasks, command, newId);
      if s.result.Err? then Refuse(c, s.result.error)
      else if !Captured(s.after, s.result.value, rfc, newEpoch, status, evidence, command) then
        Refuse(c, ParticipantFailed)
      else Step(s.after, Ok(Some(Applied(fields, EvidenceFor(fields, ch.facts), Some(newId)))))
  }

  /* ---- Provisional eligibility from a WFM ---- */

  datatype Availability = Archived | ActiveOrMissing

  datatype ProvisionalToken =
    ProvisionalToken(availability: Availability,
                     status: Option<(Option<Value>, StatusClass, Option<Authority>, Option<Id>)>)

  function ProvisionalBase(f: F.Forest, c: Cascade, rfc: Option<Id>): ProvisionalToken {
    if rfc.None? || rfc.value !in f.rfcs then ProvisionalToken(ActiveOrMissing, None) else
    var p := Current(c, rfc.value);
    ProvisionalToken(
      if f.rfcs[rfc.value].archived then Archived else ActiveOrMissing,
      if p.None? || p.value.status == F.Unknown then None
      else Some((if Status in p.value.facts then Some(p.value.facts[Status].value) else None, p.value.status,
                 p.value.authority, EvidenceOf(p.value))))
  }

  predicate EligibilityDelta(d: Delta) {
    d.field == Status && d.kind == ControlledKind && d.value == Text("Implement")
    && d.status == Some(F.ImplementEligible) && d.authority == Some(F.WfmProvisional)
  }

  predicate ProvisionalBlocked(current: Option<Projection>) {
    current.Some? &&
    (current.value.authority == Some(F.EnhancedRfc) || Terminal(current.value.status)
     || (current.value.status == F.ImplementEligible && current.value.authority == Some(F.WfmProvisional)))
  }

  function AcceptProvisional(f: F.Forest, c: Cascade, no: string, d: Delta, token: ProvisionalToken, command: Id,
                             valid: Delta -> bool, tasks: Tasks, newEpoch: Id, newId: Id): Step<Option<Applied>>
  {
    var rfc := F.First(F.WithNumber(f, no));
    if ProvisionalBase(f, c, rfc) != token || rfc.None? || f.rfcs[rfc.value].archived || !EligibilityDelta(d)
       || ProvisionalBlocked(Current(c, rfc.value))
    then Refuse(c, ImportStale)
    else
      var s := ApplyDeltas(f, c, rfc.value, command, [d], valid, true, false, tasks, newEpoch, newId);
      if s.result.Ok? && s.result.value.None? then Refuse(c, ImportStale) else s
  }

  /* ---- Refresh and execution ---- */

  function LoadPending(c: Cascade, id: Id, revision: nat): Result<nat, Error> {
    var i := FindProposal(c.proposals, id);
    if i.None? then Err(NotFound)
    else if c.proposals[i.value].state != Pending then Err(NotPending)
    else if c.proposals[i.value].revision != revision then Err(Stale)
    else Ok(i.value)
  }

  /** The evidence and class now bound to the proposal's epoch. */
  function CurrentBinding(c: Cascade, p: Proposal): Result<(StatusClass, Id), Error> {
    var current := Current(c, p.trigger);
    if current.None? || current.value.epoch != Some(p.epoch) || !Terminal(current.value.status)
       || EvidenceOf(current.value).None?
    then Err(Stale)
    else Ok((current.value.status, EvidenceOf(current.value).value))
  }

  /** Replace a pending proposal whose captured scope is out of date; `Ok(id)` names the pending one afterwards. */
  function Refresh(f: F.Forest, c: Cascade, id: Id, revision: nat, tasks: Tasks, command: Id, newId: Id): Step<Id> {
    var found := LoadPending(c, id, revision);
    if found.Err? then Refuse(c, found.error) else
    var p := c.proposals[found.value];
    var binding := CurrentBinding(c, p);
    if binding.Err? then Refuse(c, binding.error) else
    var scope := CaptureScope(f, c, p.trigger, p.epoch, binding.value.0, binding.value.1, tasks);
    if scope.Err? then Refuse(c, scope.error)
    else if binding.value == (p.status, p.evidence) && scope.value.kind == p.kind && scope.value == p.fingerprint then
      Step(c, Ok(id))
    else if FindProposal(c.proposals, newId).Some? then Refuse(c, Persistence)
    else Step(Insert(Supersede(c, found.value, command), NewProposal(newId, scope.value, command)), Ok(newId))
  }

  predicate StrictlyAscending(ids: seq<Id>) {
    forall i, j :: 0 <= i < j < |ids| ==> ids[i] < ids[j]
  }

  /** The member rows have the shape their scope kind demands. */
  predicate MembersOk(p: Proposal) {
    && p.rfcs != [] && p.rfcs[0].rfc == p.trigger
    && match p.kind
       case ExactRfc => |p.rfcs| == 1 && p.rfcs[0].role == SubordinateRole
       case RootBranch =>
         && (p.rfcs[0].role == Standalone || p.rfcs[0].role == Root)
         && (p.rfcs[0].role == Standalone ==> |p.rfcs| == 1)
         && (p.rfcs[0].role == Root ==>
               && (forall i :: 1 <= i < |p.rfcs| ==> p.rfcs[i].role == SubordinateRole)
               && StrictlyAscending(MemberIds(p.rfcs)[1..]))
  }

  /** The persisted members reproduce the proposal's own fingerprint. */
  predicate SnapshotOk(p: Proposal) {
    && MembersOk(p)
    && Normalize(p.wfms, IdSet(p.rfcs)) == Ok(p.wfms)
    && p.fingerprint == ScopeDigest(p.trigger, p.epoch, p.status, p.evidence, p.kind, p.rfcs, p.wfms)
  }

  datatype Verdict = VerdictReady | VerdictStale | VerdictUnknown

  /** What the other domains and the operator answer: revalidation, reviewed preview, proof, and their effects. */
  datatype Consent = Consent(task: Verdict, communication: Verdict, preview: bool, proof: bool, applied: bool)

  function ConsentFault(k: Consent): Option<Error> {
    if k.task != VerdictReady then Some(if k.task == VerdictStale then Stale else ParticipantFailed)
    else if k.communication != VerdictReady then
      Some(if k.communication == VerdictStale then Stale else ParticipantFailed)
    else if !k.preview then Some(Stale)
    else if !k.proof then Some(ConfirmationRequired)
    else if !k.applied then Some(ParticipantFailed)
    else None
  }

  function MarkExecuted(c: Cascade, i: nat, command: Id): Cascade
    requires i < |c.proposals|
  {
    var p := c.proposals[i];
    c.(proposals := c.proposals[i := p.(state := Executed, revision := p.revision + 1, executed := Some(command))])
  }

  /** The current scope is the captured one. */
  predicate SameScope(p: Proposal, d: Digest) {
    d.kind == p.kind && d == p.fingerprint && |d.rfcs| + |d.wfms| == |p.rfcs| + |p.wfms|
  }

  function Execute(f: F.Forest, c: Cascade, id: Id, revision: nat, tasks: Tasks, consent: Consent, command: Id)
    : Step<()>
  {
    var found := LoadPending(c, id, revision);
    if found.Err? then Refuse(c, found.error) else
    var p := c.proposals[found.value];
    if !SnapshotOk(p) then Refuse(c, Persistence) else
    var scope := CaptureScope(f, c, p.trigger, p.epoch, p.status, p.evidence, tasks);
    if scope.Err? then Refuse(c, scope.error)
    else if !SameScope(p, scope.value) then Refuse(c, Stale)
    else
      var fault := ConsentFault(consent);
      if fault.Some? then Refuse(c, fault.value)
      else Step(MarkExecuted(c, found.value, command), Ok(()))
  }

  /* ---- Runs ---- */

  datatype Op =
    | DoApply(rfc: Id, command: Id, deltas: seq<Delta>, valid: Delta -> bool, reviewed: bool, capturing: bool,
              tasks: Tasks, newEpoch: Id, newId: Id)
    | DoProvisional(no: string, delta: Delta, token: ProvisionalToken, command: Id, valid: Delta -> bool, tasks: Tasks,
                    newEpoch: Id, newId: Id)
    | DoRefresh(id: Id, revision: nat, tasks: Tasks, command: Id, newId: Id)
    | DoExecute(id: Id, revision: nat, tasks: Tasks, consent: Consent, command: Id)
    | DoForest(op: F.Op)
    | DoArchive(rfc: Id, scope: A.ScopeKind, seen: A.Scope, operation: Id)
    | DoRestore(operation: Id)

  /** The hierarchy, the cascade and the archive log change in one database. */
  datatype World = World(f: F.Forest, c: Cascade, log: A.Log)

  function Shelf(w: World): A.World {
    A.World(w.f, w.log)
  }

  function WithArchive(w: World, a: A.World): World {
    World(a.f, w.c, a.log)
  }

  function Apply(w: World, op: Op): World {
    match op
    case DoApply(rfc, command, deltas, valid, reviewed, capturing, tasks, newEpoch, newId) =>
      w.(c := ApplyDeltas(w.f, w.c, rfc, command, deltas, valid, reviewed, capturing, tasks, newEpoch, newId).after)
    case DoProvisional(no, d, token, command, valid, tasks, newEpoch, newId) =>
      w.(c := AcceptProvisional(w.f, w.c, no, d, token, command, valid, tasks, newEpoch, newId).after)
    case DoRefresh(id, revision, tasks, command, newId) =>
      w.(c := Refresh(w.f, w.c, id, revision, tasks, command, newId).after)
    case DoExecute(id, revision, tasks, consent, command) =>
      w.(c := Execute(w.f, w.c, id, revision, tasks, consent, command).after)
    case DoForest(fop) => w.(f := F.Apply(w.f, fop))
    case DoArchive(rfc, scope, seen, operation) => WithArchive(w, A.Archive(Shelf(w), rfc, scope, seen, operation).after)
    case DoRestore(operation) => WithArchive(w, A.RestoreOperation(Shelf(w), operation).after)
  }

  function Run(w: World, ops: seq<Op>): World
    decreases |ops|
  {
    if ops == [] then w else Run(Apply(w, ops[0]), ops[1..])
  }
}
