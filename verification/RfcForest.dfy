/**
 RFCs, their two-level hierarchy and their Service Request links: the shared tables, the reads made of them and
 every service that changes them, as steps on a value. A refused step leaves the tables unchanged (its unit of
 work rolls back). A `fetchone` over several matching rows takes the first; that there is never more than one is
 proved, not assumed.
 */
module RfcForest {
  import opened Prelude

  datatype Rfc = Rfc(no: string, customer: Option<Id>, archived: bool, revision: nat)

  /** A hierarchy edge; superseded edges stay in the table. */
  datatype Edge = Edge(parent: Id, child: Id, active: bool)

  /** The Service Request's accepted status, as the relationship review presents it. */
  datatype SrLife =
    | NoStatus(projection: Option<nat>)
    | Status(revision: nat, observation: Id, usable: bool, text: string, field: Id)

  datatype Sr = Sr(official: Option<string>, customer: Option<Id>, life: SrLife, revision: nat)

  datatype Link = Link(sr: Id, rfc: Id, active: bool)

  datatype Organization = Organization(active: bool, revision: nat)

  /** The RFC's source lifecycle, owned by the terminal cascade. */
  datatype StatusClass = Unknown | PreImplement | ImplementEligible | TerminalClosed | TerminalCancelled

  datatype Authority = EnhancedRfc | WfmProvisional

  datatype RfcLife = RfcLife(projection: Option<nat>, status: StatusClass, authority: Option<Authority>,
                             evidence: Option<Id>, epoch: Option<Id>)

  datatype Forest = Forest(rfcs: map<Id, Rfc>, edges: map<Id, Edge>, srs: map<Id, Sr>, links: map<Id, Link>,
                           orgs: map<Id, Organization>)

  datatype Error =
    | NotFound | Invalid | Persistence | Cycle | ParentConflict | Depth | DirectLinkOnSubordinate
    | CustomerMismatch | CustomerInactive | RelationshipStale | ReparentReviewRequired | StaleRevision
    | ProposalStale

  datatype Step<+T> = Step(after: Forest, result: Result<T, Error>)

  function Refuse<T>(f: Forest, e: Error): Step<T> { Step(f, Err(e)) }

  /* ---- Reads ---- */

  function ParentEdges(f: Forest, child: Id): (s: set<Id>)
    ensures s <= f.edges.Keys
  {
    set e | e in f.edges && f.edges[e].active && f.edges[e].child == child
  }

  function ChildEdges(f: Forest, parent: Id): (s: set<Id>)
    ensures s <= f.edges.Keys
  {
    set e | e in f.edges && f.edges[e].active && f.edges[e].parent == parent
  }

  function LinksOf(f: Forest, rfc: Id): (s: set<Id>)
    ensures s <= f.links.Keys
  {
    set k | k in f.links && f.links[k].active && f.links[k].rfc == rfc
  }

  function LinksBetween(f: Forest, sr: Id, rfc: Id): (s: set<Id>)
    ensures s <= f.links.Keys
  {
    set k | k in f.links && f.links[k].active && f.links[k].rfc == rfc && f.links[k].sr == sr
  }

  /** `fetchone`: the first matching row. */
  function First(s: set<Id>): (r: Option<Id>)
    ensures r.None? <==> s == {}
    ensures r.Some? ==> r.value in s
  {
    if s == {} then None else Some(Minimum(s))
  }

  function ParentOf(f: Forest, child: Id): Option<Id> {
    var e := First(ParentEdges(f, child));
    if e.None? then None else Some(f.edges[e.value].parent)
  }

  predicate Subordinate(f: Forest, rfc: Id) {
    ParentEdges(f, rfc) != {}
  }

  function Children(f: Forest, parent: Id): set<Id> {
    set e | e in ChildEdges(f, parent) :: f.edges[e].child
  }

  /** The root together with its active subordinates. */
  function Branch(f: Forest, root: Id): (s: set<Id>)
    ensures s <= f.rfcs.Keys
  {
    (set id | id in f.rfcs && (id == root || id in Children(f, root)))
  }

  predicate Differ(a: Option<Id>, b: Option<Id>) {
    a.Some? && b.Some? && a != b
  }

  datatype Member = Member(id: Id, revision: nat, customer: Option<Id>, archived: bool)

  /** What a branch fingerprint covers; the SHA-256 of it is identified with it. */
  datatype BranchView = BranchView(root: Member, children: seq<(Option<Id>, Member)>)

  function MemberOf(f: Forest, id: Id): Member
    requires id in f.rfcs
  {
    Member(id, f.rfcs[id].revision, f.rfcs[id].customer, f.rfcs[id].archived)
  }

  /** Each child's edge and row. */
  function ChildRows(f: Forest, ids: seq<Id>): (rows: seq<(Option<Id>, Member)>)
    requires forall id :: id in ids ==> id in f.rfcs
    ensures |rows| == |ids|
    ensures forall i :: 0 <= i < |ids| ==> rows[i] == (First(ParentEdges(f, ids[i])), MemberOf(f, ids[i]))
  {
    seq(|ids|, i requires 0 <= i < |ids| => (First(ParentEdges(f, ids[i])), MemberOf(f, ids[i])))
  }

  /** The branch of a root, or why it cannot be presented. */
  function ViewBranch(f: Forest, root: Id): Result<BranchView, Error> {
    if root !in f.rfcs then Err(NotFound)
    else if Subordinate(f, root) then Err(Invalid)
    else
      var ids := Branch(f, root) - {root};
      if exists id :: id in ids && Differ(f.rfcs[root].customer, f.rfcs[id].customer) then Err(Persistence)
      else Ok(BranchView(MemberOf(f, root), ChildRows(f, Ascending(ids))))
  }

  /** The governing root of an RFC, with every corruption the reader looks for. */
  function GoverningRoot(f: Forest, rfc: Id): Result<Id, Error> {
    if rfc !in f.rfcs then Err(NotFound)
    else if |ParentEdges(f, rfc)| > 1 then Err(Persistence)
    else
      var parent := ParentOf(f, rfc);
      if parent.None? then Ok(rfc)
      else if parent.value == rfc || parent.value !in f.rfcs || Subordinate(f, parent.value) then Err(Persistence)
      else Ok(parent.value)
  }

  function CurrentLinkState(f: Forest, sr: Id, root: Id): Result<Option<Id>, Error> {
    if sr !in f.srs || root !in f.rfcs then Err(NotFound)
    else if Subordinate(f, root) || |LinksBetween(f, sr, root)| > 1 then Err(Persistence)
    else Ok(First(LinksBetween(f, sr, root)))
  }

  /* ---- Writes ---- */

  function Bump(f: Forest, ids: set<Id>): Forest {
    f.(rfcs := map id | id in f.rfcs ::
               if id in ids then f.rfcs[id].(revision := f.rfcs[id].revision + 1) else f.rfcs[id])
  }

  function BumpSr(f: Forest, sr: Id): Forest
    requires sr in f.srs
  {
    f.(srs := f.srs[sr := f.srs[sr].(revision := f.srs[sr].revision + 1)])
  }

  function OpenEdge(f: Forest, e: Id, parent: Id, child: Id): Forest {
    f.(edges := f.edges[e := Edge(parent, child, true)])
  }

  function CloseEdge(f: Forest, e: Id): Forest
    requires e in f.edges
  {
    f.(edges := f.edges[e := f.edges[e].(active := false)])
  }

  function OpenLink(f: Forest, k: Id, sr: Id, rfc: Id): Forest {
    f.(links := f.links[k := Link(sr, rfc, true)])
  }

  function CloseLink(f: Forest, k: Id): Forest
    requires k in f.links
  {
    f.(links := f.links[k := f.links[k].(active := false)])
  }

  function SetCustomerRow(f: Forest, rfc: Id, customer: Option<Id>): Forest
    requires rfc in f.rfcs
  {
    f.(rfcs := f.rfcs[rfc := f.rfcs[rfc].(customer := customer, revision := f.rfcs[rfc].revision + 1)])
  }

  datatype Outcome = Applied | NoChange

  /** The command's response is read back inside its unit of work: when that fails, nothing is kept. */
  function Respond(f: Forest, after: Forest, outcome: Outcome, root: Id): Step<(Outcome, BranchView)> {
    var view := ViewBranch(after, root);
    if view.Err? then Refuse(f, view.error) else Step(after, Ok((outcome, view.value)))
  }

  /* ---- Hierarchy service ---- */

  predicate PositiveRevisions(base: map<Id, nat>) {
    forall id :: id in base ==> base[id] >= 1
  }

  function AddFault(f: Forest, parent: Id, child: Id, base: map<Id, nat>): Option<Error> {
    if parent == child then Some(Cycle)
    else if base.Keys != {parent, child} || !PositiveRevisions(base) then Some(Invalid)
    else if parent !in f.rfcs || child !in f.rfcs then Some(NotFound)
    else if f.rfcs[parent].revision != base[parent] || f.rfcs[child].revision != base[child] then
      Some(RelationshipStale)
    else None
  }

  function AttachFault(f: Forest, parent: Id, child: Id): Option<Error>
    requires parent in f.rfcs && child in f.rfcs
  {
    if ParentOf(f, child).Some? then Some(ParentConflict)
    else if Subordinate(f, parent) || ChildEdges(f, child) != {} then Some(Depth)
    else if LinksOf(f, child) != {} then Some(DirectLinkOnSubordinate)
    else if Differ(f.rfcs[parent].customer, f.rfcs[child].customer) then Some(CustomerMismatch)
    else None
  }

  function AddSubordinate(f: Forest, parent: Id, child: Id, base: map<Id, nat>, newEdge: Id)
    : Step<(Outcome, BranchView)>
  {
    var stale := AddFault(f, parent, child, base);
    if stale.Some? then Refuse(f, stale.value)
    else if ParentOf(f, child) == Some(parent) then Respond(f, f, NoChange, parent)
    else
      var fault := AttachFault(f, parent, child);
      if fault.Some? then Refuse(f, fault.value)
      else if newEdge in f.edges then Refuse(f, Persistence)
      else Respond(f, Bump(OpenEdge(f, newEdge, parent, child), {parent, child}), Applied, parent)
  }

  /** What the history-risk provider says about the child. */
  datatype History = Indeterminate | Ready(high: bool, evidence: nat, provider: string)

  /** The hierarchy review: the SHA-256 of these fields is identified with them. */
  datatype Review = HierarchyReview(child: Id, oldParent: Id, newParent: Option<Id>, oldEdge: Id, oldBranch: BranchView,
                                    newBranch: Option<BranchView>, history: History, blockers: seq<Error>,
                                    unresolved: bool)

  datatype Preview = Preview(oldEdge: Id, oldParent: Id, base: map<Id, nat>, blockers: seq<Error>, review: Review)

  function Blockers(f: Forest, child: Id, prior: Id, target: Id): seq<Error>
    requires child in f.rfcs && target in f.rfcs
  {
    (if target == child then [Cycle] else [])
    + (if target == prior then [ParentConflict] else [])
    + (if Subordinate(f, target) || ChildEdges(f, child) != {} then [Depth] else [])
    + (if LinksOf(f, child) != {} then [DirectLinkOnSubordinate] else [])
    + (if Differ(f.rfcs[child].customer, f.rfcs[target].customer) then [CustomerMismatch] else [])
  }

  predicate UnresolvedPair(f: Forest, child: Id, target: Id)
    requires child in f.rfcs && target in f.rfcs
  {
    f.rfcs[child].customer.None? || f.rfcs[target].customer.None?
  }

  /** The governing root the preview evaluator resolves for a proposed parent. */
  function RootForPreview(f: Forest, rfc: Id): Result<Id, Error> {
    var parent := ParentOf(f, rfc);
    if parent.None? then Ok(rfc)
    else if Subordinate(f, parent.value) then Err(Persistence)
    else Ok(parent.value)
  }

  /** What a move adds to the review: the new branch and the blockers. */
  function EvaluateMove(f: Forest, child: Id, target: Id, p: Preview): Result<Preview, Error>
    requires child in f.rfcs
  {
    if target !in f.rfcs then Err(NotFound) else
    var root := RootForPreview(f, target);
    if root.Err? then Err(root.error) else
    var branch := ViewBranch(f, root.value);
    if branch.Err? then Err(branch.error) else
    var blockers := Blockers(f, child, p.oldParent, target);
    Ok(p.(base := p.base[target := f.rfcs[target].revision], blockers := blockers,
          review := p.review.(newParent := Some(target), newBranch := Some(branch.value), blockers := blockers,
                              unresolved := UnresolvedPair(f, child, target))))
  }

  /** The exact review authority for detaching `child`. */
  function EvaluateDetach(f: Forest, child: Id, history: History): (r: Result<Preview, Error>)
    ensures r.Ok? ==> child in f.rfcs
  {
    if child !in f.rfcs then Err(NotFound) else
    var edge := First(ParentEdges(f, child));
    if edge.None? then Err(ParentConflict) else
    var prior := f.edges[edge.value].parent;
    if prior !in f.rfcs then Err(NotFound)
    else if Subordinate(f, prior) then Err(Persistence)
    else
      var branch := ViewBranch(f, prior);
      if branch.Err? then Err(branch.error)
      else Ok(Preview(edge.value, prior, map[prior := f.rfcs[prior].revision, child := f.rfcs[child].revision], [],
                      HierarchyReview(child, prior, None, edge.value, branch.value, None, history, [], false)))
  }

  function Evaluate(f: Forest, child: Id, proposed: Option<Id>, history: History): Result<Preview, Error> {
    var p := EvaluateDetach(f, child, history);
    if p.Err? || proposed.None? then p else EvaluateMove(f, child, proposed.value, p.value)
  }

  /** The exact revisions and, when history is at risk, the exact review; then the first blocker. */
  function ReviewFault(p: Preview, base: map<Id, nat>, history: History, review: Option<Review>): Option<Error> {
    if base != p.base || history.Indeterminate? then Some(RelationshipStale)
    else if history.high && review.None? then Some(ReparentReviewRequired)
    else if review.Some? && review.value != p.review then Some(RelationshipStale)
    else if p.blockers != [] then Some(p.blockers[0])
    else None
  }

  function Reparent(f: Forest, child: Id, target: Id, base: map<Id, nat>, history: History, review: Option<Review>,
                    newEdge: Id): Step<(Outcome, BranchView)>
  {
    if !(1 <= |base| <= 3) || !PositiveRevisions(base) then Refuse(f, Invalid) else
    var p := Evaluate(f, child, Some(target), history);
    if p.Err? then Refuse(f, p.error) else
    var fault := ReviewFault(p.value, base, history, review);
    if fault.Some? then Refuse(f, fault.value)
    else if p.value.oldEdge !in f.edges || newEdge in f.edges || |{p.value.oldParent, child, target}| != 3 then
      Refuse(f, Persistence)
    else
      Respond(f, Bump(OpenEdge(CloseEdge(f, p.value.oldEdge), newEdge, target, child), {p.value.oldParent, child, target}),
              Applied, target)
  }

  function Detach(f: Forest, child: Id, base: map<Id, nat>, history: History, review: Option<Review>)
    : Step<(Outcome, BranchView)>
  {
    if !(1 <= |base| <= 2) || !PositiveRevisions(base) then Refuse(f, Invalid) else
    var p := Evaluate(f, child, None, history);
    if p.Err? then Refuse(f, p.error) else
    var fault := ReviewFault(p.value, base, history, review);
    if fault.Some? then Refuse(f, fault.value)
    else if p.value.oldEdge !in f.edges || |{p.value.oldParent, child}| != 2 then Refuse(f, Persistence)
    else Respond(f, Bump(CloseEdge(f, p.value.oldEdge), {p.value.oldParent, child}), Applied, child)
  }

  /* ---- Direct Service Request links ---- */

  predicate SrTerminal(s: Sr) {
    s.life.Status? && s.life.usable && s.life.text in {"Closed", "Resolved", "Cancelled"}
  }

  predicate RfcTerminal(life: RfcLife, archived: bool) {
    life.status in {TerminalClosed, TerminalCancelled} || archived
  }

  datatype LinkReview = LinkReview(sr: Id, root: Id, origin: Option<Id>, srRevision: nat, rfcRevision: nat,
                                   duplicate: bool, srLife: SrLife, rfcLife: RfcLife, archived: bool)

  datatype LinkPreview = LinkPreview(duplicate: bool, required: bool, review: LinkReview)

  /** The Service Request and the RFC branch together name at most one Customer. */
  predicate OneCustomer(f: Forest, sr: Id, root: Id)
    requires sr in f.srs && root in f.rfcs
  {
    var known := KnownCustomers(f, sr, root);
    forall a, b :: a in known && b in known ==> a == b
  }

  function KnownCustomers(f: Forest, sr: Id, root: Id): set<Id>
    requires sr in f.srs && root in f.rfcs
  {
    (if f.srs[sr].customer.Some? then {f.srs[sr].customer.value} else {})
    + set id | id in Branch(f, root) && f.rfcs[id].customer.Some? :: f.rfcs[id].customer.value
  }

  function PreviewLink(f: Forest, sr: Id, rfc: Id, origin: Option<Id>, life: RfcLife): Result<LinkPreview, Error> {
    if sr !in f.srs || rfc !in f.rfcs then Err(NotFound)
    else if Subordinate(f, rfc) then Err(DirectLinkOnSubordinate)
    else if origin.Some? && ParentOf(f, origin.value) != Some(rfc) then Err(RelationshipStale)
    else if !OneCustomer(f, sr, rfc) then Err(CustomerMismatch)
    else
      var duplicate := LinksBetween(f, sr, rfc) != {};
      Ok(LinkPreview(duplicate, !duplicate && (SrTerminal(f.srs[sr]) || RfcTerminal(life, f.rfcs[rfc].archived)),
                     LinkReview(sr, rfc, origin, f.srs[sr].revision, f.rfcs[rfc].revision, duplicate, f.srs[sr].life,
                                life, f.rfcs[rfc].archived)))
  }

  function LinkSr(f: Forest, sr: Id, rfc: Id, srBase: nat, rfcBase: nat, origin: Option<Id>, review: Option<LinkReview>,
                  life: RfcLife, newLink: Id): Step<Outcome>
  {
    var p := PreviewLink(f, sr, rfc, origin, life);
    if p.Err? then Refuse(f, p.error)
    else if f.srs[sr].revision != srBase || f.rfcs[rfc].revision != rfcBase then Refuse(f, RelationshipStale)
    else if p.value.duplicate then Step(f, Ok(NoChange))
    else if review.Some? && review.value != p.value.review then Refuse(f, RelationshipStale)
    else if p.value.required && review.None? then Refuse(f, RelationshipStale)
    else if newLink in f.links then Refuse(f, Persistence)
    else Step(BumpSr(Bump(OpenLink(f, newLink, sr, rfc), {rfc}), sr), Ok(Applied))
  }

  function UnlinkSr(f: Forest, sr: Id, root: Id, srBase: nat, rfcBase: nat): Step<Outcome> {
    if sr !in f.srs || root !in f.rfcs then Refuse(f, NotFound)
    else if Subordinate(f, root) then Refuse(f, DirectLinkOnSubordinate)
    else if f.srs[sr].revision != srBase || f.rfcs[root].revision != rfcBase then Refuse(f, RelationshipStale)
    else
      var k := First(LinksBetween(f, sr, root));
      if k.None? then Step(f, Ok(NoChange))
      else Step(BumpSr(Bump(CloseLink(f, k.value), {root}), sr), Ok(Applied))
  }

  /* ---- Identity and Customer ---- */

  function WithNumber(f: Forest, no: string): (s: set<Id>)
    ensures s <= f.rfcs.Keys
  {
    set id | id in f.rfcs && f.rfcs[id].no == no
  }

  predicate ActiveOrganization(f: Forest, org: Id) {
    org in f.orgs && f.orgs[org].active
  }

  function CreateOrAdopt(f: Forest, no: string, customer: Option<Id>, newId: Id): Step<Outcome> {
    if WithNumber(f, no) != {} then Step(f, Ok(NoChange))
    else if customer.Some? && customer.value !in f.orgs then Refuse(f, NotFound)
    else if customer.Some? && !f.orgs[customer.value].active then Refuse(f, CustomerInactive)
    else if newId in f.rfcs then Refuse(f, Persistence)
    else Step(f.(rfcs := f.rfcs[newId := Rfc(no, customer, false, 1)]), Ok(Applied))
  }

  /** The root whose branch a Customer change is checked against. */
  function BranchRoot(f: Forest, rfc: Id): Id {
    var parent := ParentOf(f, rfc);
    if parent.None? then rfc else parent.value
  }

  /** Some other branch member has a known Customer that is not the proposed one. */
  predicate BranchRefuses(f: Forest, rfc: Id, customer: Option<Id>) {
    exists id :: id in Branch(f, BranchRoot(f, rfc)) && id != rfc
                 && f.rfcs[id].customer.Some? && f.rfcs[id].customer != customer
  }

  function SetCustomer(f: Forest, rfc: Id, base: nat, customer: Option<Id>): Step<Outcome> {
    if rfc !in f.rfcs then Refuse(f, NotFound)
    else if f.rfcs[rfc].revision != base then Refuse(f, StaleRevision)
    else if customer.Some? && customer.value !in f.orgs then Refuse(f, NotFound)
    else if customer.Some? && !f.orgs[customer.value].active then Refuse(f, CustomerInactive)
    else if f.rfcs[rfc].customer == customer then Step(f, Ok(NoChange))
    else if BranchRefuses(f, rfc, customer) then Refuse(f, CustomerMismatch)
    else Step(SetCustomerRow(f, rfc, customer), Ok(Applied))
  }

  /* ---- Accepted imports: each re-reads its base state and compares tokens ---- */

  datatype Token =
    | IdentityBase(no: string, existing: Option<(Id, Rfc)>)
    | CustomerBase(rfc: Id, row: Rfc, root: Id, branch: seq<(Id, Option<Id>, nat)>, target: Id, org: Organization)
    | LinkBase(sr: Id, srRow: Sr, requested: Id, requestedNo: string, requestedRevision: nat, root: Id, rootRow: Rfc,
               life: RfcLife, branch: seq<(Id, Option<Id>, nat)>, active: Option<Id>)

  function BranchRows(f: Forest, ids: seq<Id>): (rows: seq<(Id, Option<Id>, nat)>)
    requires forall id :: id in ids ==> id in f.rfcs
    ensures |rows| == |ids|
    ensures forall i :: 0 <= i < |ids| ==> rows[i] == (ids[i], f.rfcs[ids[i]].customer, f.rfcs[ids[i]].revision)
  {
    seq(|ids|, i requires 0 <= i < |ids| => (ids[i], f.rfcs[ids[i]].customer, f.rfcs[ids[i]].revision))
  }

  function IdentityToken(f: Forest, no: string): Token {
    var id := First(WithNumber(f, no));
    IdentityBase(no, if id.None? then None else Some((id.value, f.rfcs[id.value])))
  }

  function CreateFromSource(f: Forest, no: string, token: Token, newId: Id): Step<Outcome> {
    if IdentityToken(f, no) != token || WithNumber(f, no) != {} then Refuse(f, ProposalStale)
    else if newId in f.rfcs then Refuse(f, Persistence)
    else Step(f.(rfcs := f.rfcs[newId := Rfc(no, None, false, 1)]), Ok(Applied))
  }

  function CustomerToken(f: Forest, rfc: Id, target: Id): Result<Token, Error> {
    if rfc !in f.rfcs || target !in f.orgs then Err(NotFound)
    else
      var root := BranchRoot(f, rfc);
      Ok(CustomerBase(rfc, f.rfcs[rfc], root, BranchRows(f, Ascending(Branch(f, root))), target, f.orgs[target]))
  }

  function SetCustomerFromReview(f: Forest, rfc: Id, target: Id, expected: Option<Id>, token: Token): Step<Outcome> {
    var current := CustomerToken(f, rfc, target);
    if current.Err? then Refuse(f, current.error)
    else if current.value != token then Refuse(f, ProposalStale)
    else if f.rfcs[rfc].customer != expected || f.rfcs[rfc].customer == Some(target) then Refuse(f, ProposalStale)
    else if !f.orgs[target].active then Refuse(f, ProposalStale)
    else if BranchRefuses(f, rfc, Some(target)) then Refuse(f, CustomerMismatch)
    else Step(SetCustomerRow(f, rfc, Some(target)), Ok(Applied))
  }

  datatype LinkContext = LinkContext(root: Id, active: Option<Id>, token: Token)

  function LinkCandidate(f: Forest, sr: Id, requested: Id, life: Id -> RfcLife): Result<LinkContext, Error> {
    if sr !in f.srs || f.srs[sr].official.None? || requested !in f.rfcs then Err(NotFound) else
    var root := GoverningRoot(f, requested);
    if root.Err? then Err(root.error)
    else if root.value !in f.rfcs then Err(NotFound)
    else
      var state := CurrentLinkState(f, sr, root.value);
      if state.Err? then Err(state.error)
      else if !OneCustomer(f, sr, root.value) then Err(CustomerMismatch)
      else
        Ok(LinkContext(root.value, state.value,
                       LinkBase(sr, f.srs[sr], requested, f.rfcs[requested].no, f.rfcs[requested].revision, root.value,
                                f.rfcs[root.value], life(root.value),
                                BranchRows(f, Ascending(Branch(f, root.value))), state.value)))
  }

  function LinkSrFromReview(f: Forest, sr: Id, requested: Id, token: Token, life: Id -> RfcLife, newLink: Id)
    : Step<Outcome>
  {
    var c := LinkCandidate(f, sr, requested, life);
    if c.Err? then Refuse(f, c.error)
    else if c.value.token != token || c.value.active.Some? then Refuse(f, ProposalStale)
    else if newLink in f.links then Refuse(f, Persistence)
    else if c.value.root !in f.rfcs then Refuse(f, ProposalStale)
    else Step(BumpSr(Bump(OpenLink(f, newLink, sr, c.value.root), {c.value.root}), sr), Ok(Applied))
  }

  /* ---- Runs ---- */

  datatype Op =
    | DoAdd(parent: Id, child: Id, base: map<Id, nat>, newEdge: Id)
    | DoReparent(child: Id, target: Id, base: map<Id, nat>, history: History, review: Option<Review>, newEdge: Id)
    | DoDetach(child: Id, base: map<Id, nat>, history: History, review: Option<Review>)
    | DoLink(sr: Id, rfc: Id, srBase: nat, rfcBase: nat, origin: Option<Id>, linkReview: Option<LinkReview>,
             life: RfcLife, newLink: Id)
    | DoUnlink(sr: Id, rfc: Id, srBase: nat, rfcBase: nat)
    | DoCreate(no: string, customer: Option<Id>, newId: Id)
    | DoSetCustomer(rfc: Id, revision: nat, customer: Option<Id>)
    | DoImportIdentity(no: string, token: Token, newId: Id)
    | DoImportCustomer(rfc: Id, target: Id, expected: Option<Id>, token: Token)
    | DoImportLink(sr: Id, rfc: Id, token: Token, lives: Id -> RfcLife, newLink: Id)
    | DoElsewhere(srs: map<Id, Sr>, orgs: map<Id, Organization>)

  /** One serialised unit of work; the last kind is whatever the owners of the other tables do. */
  function Apply(f: Forest, op: Op): Forest {
    match op
    case DoAdd(parent, child, base, e) => AddSubordinate(f, parent, child, base, e).after
    case DoReparent(child, target, base, history, review, e) =>
      Reparent(f, child, target, base, history, review, e).after
    case DoDetach(child, base, history, review) => Detach(f, child, base, history, review).after
    case DoLink(sr, rfc, srBase, rfcBase, origin, review, life, k) =>
      LinkSr(f, sr, rfc, srBase, rfcBase, origin, review, life, k).after
    case DoUnlink(sr, rfc, srBase, rfcBase) => UnlinkSr(f, sr, rfc, srBase, rfcBase).after
    case DoCreate(no, customer, id) => CreateOrAdopt(f, no, customer, id).after
    case DoSetCustomer(rfc, base, customer) => SetCustomer(f, rfc, base, customer).after
    case DoImportIdentity(no, token, id) => CreateFromSource(f, no, token, id).after
    case DoImportCustomer(rfc, target, expected, token) =>
      SetCustomerFromReview(f, rfc, target, expected, token).after
    case DoImportLink(sr, rfc, token, lives, k) => LinkSrFromReview(f, sr, rfc, token, lives, k).after
    case DoElsewhere(srs, orgs) => if f.srs.Keys <= srs.Keys then f.(srs := srs, orgs := orgs) else f
  }

  function Run(f: Forest, ops: seq<Op>): Forest
    decreases |ops|
  {
    if ops == [] then f else Run(Apply(f, ops[0]), ops[1..])
  }
}
