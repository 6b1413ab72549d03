/**
 The services over the shared ticket tables. Every method is one unit of work on the table fields and is proved to
 take exactly the step `RfcForest` specifies; when its response cannot be read back the old tables are restored.
 */
module RfcServices {
  import opened Prelude
  import opened RfcForest

  class TicketTables {
    var rfcs: map<Id, Rfc>
    var edges: map<Id, Edge>
    var srs: map<Id, Sr>
    var links: map<Id, Link>
    var orgs: map<Id, Organization>

    constructor (f: Forest)
      ensures Tables() == f
    {
      rfcs, edges, srs, links, orgs := f.rfcs, f.edges, f.srs, f.links, f.orgs;
    }

    function Tables(): Forest
      reads this
    {
      Forest(rfcs, edges, srs, links, orgs)
    }

    /** ROLLBACK to the tables as they were. */
    method Restore(f: Forest)
      modifies this
      ensures Tables() == f
    {
      rfcs, edges, srs, links, orgs := f.rfcs, f.edges, f.srs, f.links, f.orgs;
    }

    /** `UPDATE rfcs SET revision=revision+1 WHERE rfc_id IN (…)`; says how many rows it changed. */
    method BumpRevisions(ids: set<Id>) returns (changed: nat)
      modifies `rfcs
      ensures Tables() == Bump(old(Tables()), ids) && changed == |ids * old(rfcs).Keys|
    {
      changed := |ids * rfcs.Keys|;
      rfcs := map id | id in rfcs ::
        if id in ids then rfcs[id].(revision := rfcs[id].revision + 1) else rfcs[id];
    }

    /** `UPDATE service_requests SET revision=revision+1 WHERE service_request_id=? AND revision=?`. */
    method BumpServiceRequest(sr: Id)
      requires sr in srs
      modifies `srs
      ensures Tables() == BumpSr(old(Tables()), sr)
    {
      srs := srs[sr := srs[sr].(revision := srs[sr].revision + 1)];
    }

    /** Read the response branch inside the unit of work; when that fails, keep nothing. */
    method RespondWith(before: Forest, outcome: Outcome, root: Id) returns (r: Result<(Outcome, BranchView), Error>)
      modifies this
      ensures Step(Tables(), r) == Respond(before, old(Tables()), outcome, root)
    {
      var view := ViewBranch(Tables(), root);
      if view.Err? {
        Restore(before);
        return Err(view.error);
      }
      return Ok((outcome, view.value));
    }

    method AddSubordinate(parent: Id, child: Id, base: map<Id, nat>, newEdge: Id)
      returns (r: Result<(Outcome, BranchView), Error>)
      modifies this
      ensures Step(Tables(), r) == RfcForest.AddSubordinate(old(Tables()), parent, child, base, newEdge)
    {
      hide ViewBranch, Respond, Bump;
      var before := Tables();
      if parent == child {
        return Err(Cycle);
      }
      if base.Keys != {parent, child} || !PositiveRevisions(base) {
        return Err(Invalid);
      }
      if parent !in rfcs || child !in rfcs {
        return Err(NotFound);
      }
      if rfcs[parent].revision != base[parent] || rfcs[child].revision != base[child] {
        return Err(RelationshipStale);
      }
      var active := ParentOf(Tables(), child);
      if active.Some? {
        if active.value != parent {
          return Err(ParentConflict);
        }
        r := RespondWith(before, NoChange, parent);
        return;
      }
      if Subordinate(Tables(), parent) {
        return Err(Depth);
      }
      if ChildEdges(Tables(), child) != {} {
        return Err(Depth);
      }
      if LinksOf(Tables(), child) != {} {
        return Err(DirectLinkOnSubordinate);
      }
      if Differ(rfcs[parent].customer, rfcs[child].customer) {
        return Err(CustomerMismatch);
      }
      if newEdge in edges {
        return Err(Persistence);
      }
      edges := edges[newEdge := Edge(parent, child, true)];
      var _ := BumpRevisions({parent, child});
      r := RespondWith(before, Applied, parent);
    }

    method ReparentSubordinate(child: Id, target: Id, base: map<Id, nat>, history: History, review: Option<Review>,
                               newEdge: Id) returns (r: Result<(Outcome, BranchView), Error>)
      modifies this
      ensures Step(Tables(), r) == Reparent(old(Tables()), child, target, base, history, review, newEdge)
    {
      hide ViewBranch, Respond, Bump, Evaluate, PositiveRevisions;
      var before := Tables();
      if !(1 <= |base| <= 3) || !PositiveRevisions(base) {
        return Err(Invalid);
      }
      var preview := Evaluate(Tables(), child, Some(target), history);
      if preview.Err? {
        return Err(preview.error);
      }
      var p := preview.value;
      var fault := ReviewFault(p, base, history, review);
      if fault.Some? {
        return Err(fault.value);
      }
      if p.oldEdge !in edges || newEdge in edges || |{p.oldParent, child, target}| != 3 {
        return Err(Persistence);
      }
      edges := edges[p.oldEdge := edges[p.oldEdge].(active := false)];
      edges := edges[newEdge := Edge(target, child, true)];
      var _ := BumpRevisions({p.oldParent, child, target});
      r := RespondWith(before, Applied, target);
    }

    method DetachSubordinate(child: Id, base: map<Id, nat>, history: History, review: Option<Review>)
      returns (r: Result<(Outcome, BranchView), Error>)
      modifies this
      ensures Step(Tables(), r) == Detach(old(Tables()), child, base, history, review)
    {
      hide ViewBranch, Respond, Bump, Evaluate, PositiveRevisions;
      var before := Tables();
      if !(1 <= |base| <= 2) || !PositiveRevisions(base) {
        return Err(Invalid);
      }
      var preview := Evaluate(Tables(), child, None, history);
      if preview.Err? {
        return Err(preview.error);
      }
      var p := preview.value;
      var fault := ReviewFault(p, base, history, review);
      if fault.Some? {
        return Err(fault.value);
      }
      if p.oldEdge !in edges || |{p.oldParent, child}| != 2 {
        return Err(Persistence);
      }
      edges := edges[p.oldEdge := edges[p.oldEdge].(active := false)];
      var _ := BumpRevisions({p.oldParent, child});
      r := RespondWith(before, Applied, child);
    }

    method Link(sr: Id, rfc: Id, srBase: nat, rfcBase: nat, origin: Option<Id>, review: Option<LinkReview>,
                life: RfcLife, newLink: Id) returns (r: Result<Outcome, Error>)
      modifies this
      ensures Step(Tables(), r) == LinkSr(old(Tables()), sr, rfc, srBase, rfcBase, origin, review, life, newLink)
    {
      hide OneCustomer, Bump;
      var preview := PreviewLink(Tables(), sr, rfc, origin, life);
      if preview.Err? {
        return Err(preview.error);
      }
      var p := preview.value;
      if srs[sr].revision != srBase || rfcs[rfc].revision != rfcBase {
        return Err(RelationshipStale);
      }
      if p.duplicate {
        return Ok(NoChange);
      }
      if review.Some? && review.value != p.review {
        return Err(RelationshipStale);
      }
      if p.required && (review.None? || review.value != p.review) {
        return Err(RelationshipStale);
      }
      if newLink in links {
        return Err(Persistence);
      }
      links := links[newLink := RfcForest.Link(sr, rfc, true)];
      var _ := BumpRevisions({rfc});
      BumpServiceRequest(sr);
      return Ok(Applied);
    }

    method Unlink(sr: Id, root: Id, srBase: nat, rfcBase: nat) returns (r: Result<Outcome, Error>)
      modifies this
      ensures Step(Tables(), r) == UnlinkSr(old(Tables()), sr, root, srBase, rfcBase)
    {
      hide Bump;
      if sr !in srs || root !in rfcs {
        return Err(NotFound);
      }
      if Subordinate(Tables(), root) {
        return Err(DirectLinkOnSubordinate);
      }
      if srs[sr].revision != srBase || rfcs[root].revision != rfcBase {
        return Err(RelationshipStale);
      }
      var active := First(LinksBetween(Tables(), sr, root));
      if active.None? {
        return Ok(NoChange);
      }
      links := links[active.value := links[active.value].(active := false)];
      var _ := BumpRevisions({root});
      BumpServiceRequest(sr);
      return Ok(Applied);
    }

    method CreateOrAdoptIdentity(no: string, customer: Option<Id>, newId: Id) returns (r: Result<Outcome, Error>)
      modifies this
      ensures Step(Tables(), r) == CreateOrAdopt(old(Tables()), no, customer, newId)
    {
      if WithNumber(Tables(), no) != {} {
        return Ok(NoChange);
      }
      if customer.Some? {
        if customer.value !in orgs {
          return Err(NotFound);
        }
        if !orgs[customer.value].active {
          return Err(CustomerInactive);
        }
      }
      if newId in rfcs {
        return Err(Persistence);
      }
      rfcs := rfcs[newId := Rfc(no, customer, false, 1)];
      return Ok(Applied);
    }

    /** The branch loop behind both Customer commands. */
    method BranchDisagrees(rfc: Id, customer: Option<Id>) returns (refused: bool)
      ensures refused == BranchRefuses(Tables(), rfc, customer)
    {
      var branch := Branch(Tables(), BranchRoot(Tables(), rfc));
      var rows := Ascending(branch);
      for i := 0 to |rows|
        invariant forall j :: 0 <= j < i && rows[j] != rfc ==>
          rfcs[rows[j]].customer.None? || rfcs[rows[j]].customer == customer
      {
        assert rows[i] in branch;
        if rows[i] != rfc && rfcs[rows[i]].customer.Some? && rfcs[rows[i]].customer != customer {
          return true;
        }
      }
      return false;
    }

    method SetCustomer(rfc: Id, base: nat, customer: Option<Id>) returns (r: Result<Outcome, Error>)
      modifies this
      ensures Step(Tables(), r) == RfcForest.SetCustomer(old(Tables()), rfc, base, customer)
    {
      hide BranchRefuses;
      if rfc !in rfcs {
        return Err(NotFound);
      }
      if rfcs[rfc].revision != base {
        return Err(StaleRevision);
      }
      if customer.Some? {
        if customer.value !in orgs {
          return Err(NotFound);
        }
        if !orgs[customer.value].active {
          return Err(CustomerInactive);
        }
      }
      if rfcs[rfc].customer == customer {
        return Ok(NoChange);
      }
      var refused := BranchDisagrees(rfc, customer);
      if refused {
        return Err(CustomerMismatch);
      }
      rfcs := rfcs[rfc := rfcs[rfc].(customer := customer, revision := rfcs[rfc].revision + 1)];
      return Ok(Applied);
    }

    method CreateOrAdoptFromSource(no: string, token: Token, newId: Id) returns (r: Result<Outcome, Error>)
      modifies this
      ensures Step(Tables(), r) == CreateFromSource(old(Tables()), no, token, newId)
    {
      if IdentityToken(Tables(), no) != token {
        return Err(ProposalStale);
      }
      if WithNumber(Tables(), no) != {} {
        return Err(ProposalStale);
      }
      if newId in rfcs {
        return Err(Persistence);
      }
      rfcs := rfcs[newId := Rfc(no, None, false, 1)];
      return Ok(Applied);
    }

    method SetCustomerFromReview(rfc: Id, target: Id, expected: Option<Id>, token: Token)
      returns (r: Result<Outcome, Error>)
      modifies this
      ensures Step(Tables(), r) == RfcForest.SetCustomerFromReview(old(Tables()), rfc, target, expected, token)
    {
      hide BranchRefuses, Branch, BranchRows;
      var current := CustomerToken(Tables(), rfc, target);
      if current.Err? {
        return Err(current.error);
      }
      if current.value != token {
        return Err(ProposalStale);
      }
      if rfcs[rfc].customer != expected || rfcs[rfc].customer == Some(target) {
        return Err(ProposalStale);
      }
      if !orgs[target].active {
        return Err(ProposalStale);
      }
      var refused := BranchDisagrees(rfc, Some(target));
      if refused {
        return Err(CustomerMismatch);
      }
      rfcs := rfcs[rfc := rfcs[rfc].(customer := Some(target), revision := rfcs[rfc].revision + 1)];
      return Ok(Applied);
    }

    method LinkSrFromReview(sr: Id, requested: Id, token: Token, life: Id -> RfcLife, newLink: Id)
      returns (r: Result<Outcome, Error>)
      modifies this
      ensures Step(Tables(), r) == RfcForest.LinkSrFromReview(old(Tables()), sr, requested, token, life, newLink)
    {
      hide OneCustomer, Branch, GoverningRoot, Bump;
      var candidate := LinkCandidate(Tables(), sr, requested, life);
      if candidate.Err? {
        return Err(candidate.error);
      }
      var c := candidate.value;
      if c.token != token {
        return Err(ProposalStale);
      }
      if c.active.Some? {
        return Err(ProposalStale);
      }
      if newLink in links {
        return Err(Persistence);
      }
      if c.root !in rfcs {
        return Err(ProposalStale);
      }
      links := links[newLink := RfcForest.Link(sr, c.root, true)];
      var _ := BumpRevisions({c.root});
      BumpServiceRequest(sr);
      return Ok(Applied);
    }
  }
}
