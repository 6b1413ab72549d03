/** What the Customer, link, identity and hierarchy services change, exactly, and exactly when they do. */
module RfcForestEffects {
  import opened Prelude
  import opened RfcForest
  import opened RfcForestSafety
  import opened RfcForestGuarantees

  /** Only the row of `rfc` is another one. */
  predicate OnlyRfc(f: Forest, g: Forest, rfc: Id) {
    && rfc in f.rfcs && g.rfcs.Keys == f.rfcs.Keys
    && (forall id :: id in f.rfcs && id != rfc ==> g.rfcs[id] == f.rfcs[id])
    && g.edges == f.edges && g.links == f.links && g.srs == f.srs && g.orgs == f.orgs
  }

  /* ---- Customers ---- */

  /** The RFC has exactly the given Customer and the next revision; nothing else changed. */
  predicate GivenCustomer(f: Forest, g: Forest, rfc: Id, customer: Option<Id>) {
    && OnlyRfc(f, g, rfc)
    && var r, s := f.rfcs[rfc], g.rfcs[rfc];
    && s.customer == customer && s.revision == r.revision + 1 && s.no == r.no && s.archived == r.archived
  }

  /** The RFC is the other's parent, child, or shares its parent with it. */
  ghost predicate Related(f: Forest, a: Id, b: Id) {
    HasParent(f, a, b) || HasParent(f, b, a) || exists p: Id :: HasParent(f, a, p) && HasParent(f, b, p)
  }

  /** Everyone else in the branch with a known Customer has this one. */
  ghost predicate BranchAgrees(f: Forest, rfc: Id, customer: Option<Id>) {
    forall id :: id in f.rfcs && id != rfc && Related(f, rfc, id) && f.rfcs[id].customer.Some? ==>
      f.rfcs[id].customer == customer
  }

  lemma BranchAgreesIff(f: Forest, rfc: Id, customer: Option<Id>)
    requires Inv(f) && rfc in f.rfcs
    ensures BranchRefuses(f, rfc, customer) <==> !BranchAgrees(f, rfc, customer)
  {
    hide Inv, Related;
    forall id | id in f.rfcs && id != rfc
      ensures id in Branch(f, BranchRoot(f, rfc)) <==> Related(f, rfc, id)
    {
      InBranchIff(f, rfc, id);
    }
  }

  lemma InBranchIff(f: Forest, rfc: Id, id: Id)
    requires Inv(f) && rfc in f.rfcs && id in f.rfcs && id != rfc
    ensures id in Branch(f, BranchRoot(f, rfc)) <==> Related(f, rfc, id)
  {
    hide Inv, HasParent, Branch, ParentOf;
    forall p: Id
      ensures HasParent(f, rfc, p) <==> ParentOf(f, rfc) == Some(p)
    {
      ParentOfIff(f, rfc, p);
    }
    forall root: Id
      ensures id in Branch(f, root) <==> id == root || HasParent(f, id, root)
    {
      BranchMembers(f, root, id);
    }
    if ParentOf(f, rfc).Some? {
      NoGrandparent(f, id, rfc, ParentOf(f, rfc).value);
    }
  }

  lemma BranchMembers(f: Forest, root: Id, id: Id)
    requires id in f.rfcs
    ensures id in Branch(f, root) <==> id == root || HasParent(f, id, root)
  {
    if HasParent(f, id, root) {
      var e :| e in f.edges && f.edges[e].active && f.edges[e].child == id && f.edges[e].parent == root;
      assert e in ChildEdges(f, root);
      assert id in Children(f, root);
    }
  }

  /** A Customer change is applied exactly at the expected revision, to another, active and agreeing Customer. */
  lemma SetCustomerDoes(f: Forest, rfc: Id, base: nat, customer: Option<Id>)
    requires Inv(f)
    ensures var s := SetCustomer(f, rfc, base, customer);
            && (s.result == Ok(Applied) <==>
                  && rfc in f.rfcs && f.rfcs[rfc].revision == base && f.rfcs[rfc].customer != customer
                  && (customer.Some? ==> customer.value in f.orgs && f.orgs[customer.value].active)
                  && BranchAgrees(f, rfc, customer))
            && (s.result == Ok(Applied) ==> GivenCustomer(f, s.after, rfc, customer))
            && (s.result == Ok(NoChange) ==> s.after == f && rfc in f.rfcs && f.rfcs[rfc].customer == customer)
            && (s.result.Err? ==> s.after == f)
  {
    hide Inv, BranchRefuses, BranchAgrees;
    if rfc in f.rfcs { BranchAgreesIff(f, rfc, customer); }
  }

  /** An imported Customer is applied exactly against the reviewed base, and only where nothing but the review differs. */
  lemma ImportCustomerDoes(f: Forest, rfc: Id, target: Id, expected: Option<Id>, token: Token)
    requires Inv(f)
    ensures var s := SetCustomerFromReview(f, rfc, target, expected, token);
            && (s.result.Ok? <==>
                  && CustomerToken(f, rfc, target) == Ok(token) && f.rfcs[rfc].customer == expected
                  && f.rfcs[rfc].customer != Some(target) && f.orgs[target].active && BranchAgrees(f, rfc, Some(target)))
            && (s.result.Ok? ==> s.result.value == Applied && GivenCustomer(f, s.after, rfc, Some(target)))
            && (s.result.Err? ==> s.after == f)
  {
    hide Inv, BranchRefuses, BranchAgrees, Branch;
    if rfc in f.rfcs { BranchAgreesIff(f, rfc, Some(target)); }
  }

  /** The base token of a Customer proposal pins the RFC, every member of its branch and the organization. */
  lemma CustomerTokenPins(f: Forest, g: Forest, rfc: Id, target: Id)
    requires CustomerToken(f, rfc, target).Ok? && CustomerToken(g, rfc, target) == CustomerToken(f, rfc, target)
    ensures rfc in f.rfcs && rfc in g.rfcs && g.rfcs[rfc] == f.rfcs[rfc] && g.orgs[target] == f.orgs[target]
    ensures var root := BranchRoot(f, rfc);
            && BranchRoot(g, rfc) == root && Branch(g, root) == Branch(f, root)
            && forall id :: id in Branch(f, root) ==>
                 g.rfcs[id].customer == f.rfcs[id].customer && g.rfcs[id].revision == f.rfcs[id].revision
  {
    hide Branch, ParentOf, Ascending;
    var root := BranchRoot(f, rfc);
    var a, b := Ascending(Branch(f, root)), Ascending(Branch(g, BranchRoot(g, rfc)));
    var xs, ys := BranchRows(f, a), BranchRows(g, b);
    assert |xs| == |a| && |ys| == |b| && xs == ys;
    forall i | 0 <= i < |a|
      ensures a[i] == b[i] && g.rfcs[a[i]].customer == f.rfcs[a[i]].customer && g.rfcs[a[i]].revision == f.rfcs[a[i]].revision
    {
      assert xs[i] == ys[i];
    }
    assert a == b;
    forall id
      ensures id in Branch(f, root) <==> id in Branch(g, root)
    {
      assert id in a <==> id in Branch(f, root);
      assert id in b <==> id in Branch(g, BranchRoot(g, rfc));
    }
  }

  /* ---- Links ---- */

  /** The pair is linked by a new row, and both tickets have the next revision; nothing else changed. */
  ghost predicate JoinedPair(f: Forest, g: Forest, sr: Id, rfc: Id) {
    && sr in f.srs && rfc in f.rfcs
    && (forall s: Id, r: Id :: Linked(g, s, r) <==> Linked(f, s, r) || (s == sr && r == rfc))
    && Touched(f, g, sr, rfc)
  }

  predicate Touched(f: Forest, g: Forest, sr: Id, rfc: Id) {
    && g.edges == f.edges && g.orgs == f.orgs && g.rfcs.Keys == f.rfcs.Keys && g.srs.Keys == f.srs.Keys
    && (forall id :: id in f.rfcs ==>
          g.rfcs[id] == if id == rfc then f.rfcs[id].(revision := f.rfcs[id].revision + 1) else f.rfcs[id])
    && (forall id :: id in f.srs ==>
          g.srs[id] == if id == sr then f.srs[id].(revision := f.srs[id].revision + 1) else f.srs[id])
  }

  lemma OpensPair(f: Forest, k: Id, sr: Id, rfc: Id)
    requires k !in f.links && sr in f.srs && rfc in f.rfcs
    ensures JoinedPair(f, BumpSr(Bump(OpenLink(f, k, sr, rfc), {rfc}), sr), sr, rfc)
  {
    hide Linked;
    var g := BumpSr(Bump(OpenLink(f, k, sr, rfc), {rfc}), sr);
    OpenLinkLinks(f, k, sr, rfc);
    SameLinks(OpenLink(f, k, sr, rfc), g);
  }

  /** The request's accepted status is usable and one that ends it. */
  predicate Ended(life: SrLife) {
    && life.Status? && life.usable
    && (life.text == "Closed" || life.text == "Resolved" || life.text == "Cancelled")
  }

  lemma EndedIff(s: Sr)
    ensures SrTerminal(s) <==> Ended(s.life)
  {
  }

  /** What a review of the link must have seen. */
  function ReviewedLink(f: Forest, sr: Id, rfc: Id, origin: Option<Id>, life: RfcLife): LinkReview
    requires sr in f.srs && rfc in f.rfcs
  {
    LinkReview(sr, rfc, origin, f.srs[sr].revision, f.rfcs[rfc].revision, false, f.srs[sr].life, life, f.rfcs[rfc].archived)
  }

  /** Every known Customer of the Service Request and of the RFC's branch is the same. */
  ghost predicate CustomersAgree(f: Forest, sr: Id, root: Id)
    requires sr in f.srs && root in f.rfcs
  {
    && (forall id :: id in f.rfcs && (id == root || HasParent(f, id, root)) ==> !Differ(f.srs[sr].customer, f.rfcs[id].customer))
    && (forall a, b :: a in f.rfcs && b in f.rfcs && (a == root || HasParent(f, a, root)) && (b == root || HasParent(f, b, root))
                       ==> !Differ(f.rfcs[a].customer, f.rfcs[b].customer))
  }

  lemma CustomersAgreeIff(f: Forest, sr: Id, root: Id)
    requires sr in f.srs && root in f.rfcs
    ensures OneCustomer(f, sr, root) <==> CustomersAgree(f, sr, root)
  {
    hide HasParent, Branch;
    forall id | id in f.rfcs
      ensures id in Branch(f, root) <==> id == root || HasParent(f, id, root)
    {
      BranchMembers(f, root, id);
    }
    var known := KnownCustomers(f, sr, root);
    forall id | id in Branch(f, root) && f.rfcs[id].customer.Some?
      ensures f.rfcs[id].customer.value in known
    {
    }
  }

  /**
   A link is made exactly to a root of one Customer, at the expected revisions, where there is none yet; with a
   terminal ticket only under review, and a review given must have seen the current state.
   */
  lemma LinkDoes(f: Forest, sr: Id, rfc: Id, srBase: nat, rfcBase: nat, origin: Option<Id>, review: Option<LinkReview>,
                 life: RfcLife, k: Id)
    requires Inv(f) && k !in f.links
    ensures var s := LinkSr(f, sr, rfc, srBase, rfcBase, origin, review, life, k);
            && (s.result == Ok(Applied) <==>
                  && sr in f.srs && rfc in f.rfcs && !Subordinate(f, rfc) && !Linked(f, sr, rfc)
                  && f.srs[sr].revision == srBase && f.rfcs[rfc].revision == rfcBase && CustomersAgree(f, sr, rfc)
                  && (origin.Some? ==> HasParent(f, origin.value, rfc))
                  && (review.Some? ==> review.value == ReviewedLink(f, sr, rfc, origin, life))
                  && (Ended(f.srs[sr].life) || f.rfcs[rfc].archived || life.status in {TerminalClosed, TerminalCancelled}
                      ==> review.Some?))
            && (s.result == Ok(Applied) ==> JoinedPair(f, s.after, sr, rfc))
            && (s.result != Ok(Applied) ==> s.after == f) && (s.result == Ok(NoChange) ==> Linked(f, sr, rfc))
  {
    hide Inv, OneCustomer, CustomersAgree, JoinedPair, Linked, HasParent, Bump, BumpSr, OpenLink, SrTerminal, Ended;
    if sr in f.srs && rfc in f.rfcs {
      EndedIff(f.srs[sr]);
      CustomersAgreeIff(f, sr, rfc);
      LinkedIff(f, sr, rfc);
      OpensPair(f, k, sr, rfc);
      if origin.Some? { ParentOfIff(f, origin.value, rfc); }
    }
  }

  /** Unlinking removes exactly the pair, at the expected revisions, from a root. */
  lemma UnlinkDoes(f: Forest, sr: Id, root: Id, srBase: nat, rfcBase: nat)
    requires Inv(f)
    ensures var s := UnlinkSr(f, sr, root, srBase, rfcBase);
            && (s.result.Ok? <==> sr in f.srs && root in f.rfcs && !Subordinate(f, root) && f.srs[sr].revision == srBase
                                  && f.rfcs[root].revision == rfcBase)
            && (s.result == Ok(Applied) <==> s.result.Ok? && Linked(f, sr, root))
            && (s.result == Ok(Applied) ==>
                  && (forall x: Id, r: Id :: Linked(s.after, x, r) <==> Linked(f, x, r) && !(x == sr && r == root))
                  && Touched(f, s.after, sr, root))
            && (s.result != Ok(Applied) ==> s.after == f)
  {
    hide Inv, Linked, Subordinate;
    if sr in f.srs && root in f.rfcs {
      LinkedIff(f, sr, root);
      var k := First(LinksBetween(f, sr, root));
      if k.Some? {
        LinksStayOk(f);
        CloseLinkUnlinks(f, k.value);
        SameLinks(CloseLink(f, k.value), BumpSr(Bump(CloseLink(f, k.value), {root}), sr));
      }
    }
  }

  /** An imported link joins the request to the governing root of the named RFC, against exactly the reviewed base. */
  lemma ImportLinkDoes(f: Forest, sr: Id, requested: Id, token: Token, life: Id -> RfcLife, k: Id)
    requires Inv(f) && k !in f.links
    ensures var s := LinkSrFromReview(f, sr, requested, token, life, k);
            && (s.result.Err? ==> s.after == f)
            && (s.result.Ok? ==>
                  && requested in f.rfcs
                  && var root := if ParentOf(f, requested).Some? then ParentOf(f, requested).value else requested;
                  && sr in f.srs && root in f.rfcs && f.srs[sr].official.Some? && !Linked(f, sr, root)
                  && CustomersAgree(f, sr, root) && JoinedPair(f, s.after, sr, root))
  {
    hide Inv, OneCustomer, CustomersAgree, JoinedPair, Linked, Bump, BumpSr, OpenLink, Branch, Subordinate;
    var s := LinkSrFromReview(f, sr, requested, token, life, k);
    if s.result.Ok? {
      var root := LinkCandidate(f, sr, requested, life).value.root;
      CustomersAgreeIff(f, sr, root);
      LinkedIff(f, sr, root);
      OpensPair(f, k, sr, root);
    }
  }

  /* ---- Identities ---- */

  /** One new RFC with this number and Customer, active and at revision 1; nothing else changed. */
  predicate Created(f: Forest, g: Forest, id: Id, no: string, customer: Option<Id>) {
    && id !in f.rfcs && g.rfcs.Keys == f.rfcs.Keys + {id} && (forall x :: x in f.rfcs ==> g.rfcs[x] == f.rfcs[x])
    && g.edges == f.edges && g.links == f.links && g.srs == f.srs && g.orgs == f.orgs
    && g.rfcs[id].no == no && g.rfcs[id].customer == customer && !g.rfcs[id].archived && g.rfcs[id].revision == 1
  }

  /** An unknown number creates the RFC, of a known active Customer if any; a known one is adopted as it is. */
  lemma CreateDoes(f: Forest, no: string, customer: Option<Id>, id: Id)
    requires id !in f.rfcs
    ensures var s := CreateOrAdopt(f, no, customer, id);
            && (s.result == Ok(NoChange) <==> exists x :: x in f.rfcs && f.rfcs[x].no == no)
            && (s.result == Ok(Applied) <==> (forall x :: x in f.rfcs ==> f.rfcs[x].no != no)
                                             && (customer.Some? ==> customer.value in f.orgs && f.orgs[customer.value].active))
            && (s.result == Ok(Applied) ==> Created(f, s.after, id, no, customer))
            && (s.result != Ok(Applied) ==> s.after == f)
  {
    NumberFree(f, no);
  }

  lemma NumberFree(f: Forest, no: string)
    ensures WithNumber(f, no) == {} <==> forall x :: x in f.rfcs ==> f.rfcs[x].no != no
  {
    if x :| x in f.rfcs && f.rfcs[x].no == no {
      assert x in WithNumber(f, no);
    }
  }

  /** An accepted import creates an unassigned RFC exactly when the number is still free, as it was reviewed. */
  lemma ImportIdentityDoes(f: Forest, no: string, token: Token, id: Id)
    requires id !in f.rfcs
    ensures var s := CreateFromSource(f, no, token, id);
            && (s.result.Ok? <==> token == IdentityBase(no, None) && forall x :: x in f.rfcs ==> f.rfcs[x].no != no)
            && (s.result.Ok? ==> Created(f, s.after, id, no, None)) && (s.result.Err? ==> s.after == f)
  {
    NumberFree(f, no);
  }

  /* ---- Hierarchy ---- */

  lemma NoChildrenIff(f: Forest, rfc: Id)
    ensures ChildEdges(f, rfc) == {} <==> forall c: Id :: !HasParent(f, c, rfc)
  {
    if e :| e in ChildEdges(f, rfc) {
      assert HasParent(f, f.edges[e].child, rfc);
    }
    if c: Id :| HasParent(f, c, rfc) {
      var e :| e in f.edges && f.edges[e].active && f.edges[e].child == c && f.edges[e].parent == rfc;
      assert e in ChildEdges(f, rfc);
    }
  }

  lemma NoLinksIff(f: Forest, rfc: Id)
    ensures LinksOf(f, rfc) == {} <==> forall s: Id :: !Linked(f, s, rfc)
  {
    if k :| k in LinksOf(f, rfc) {
      assert Linked(f, f.links[k].sr, rfc);
    }
    if s: Id :| Linked(f, s, rfc) {
      var k :| k in f.links && f.links[k].active && f.links[k].sr == s && f.links[k].rfc == rfc;
      assert k in LinksOf(f, rfc);
    }
  }

  /** The child may go under the parent: both exist, two levels stay two, no links, and no different known Customers. */
  ghost predicate MayJoin(f: Forest, parent: Id, child: Id) {
    && parent in f.rfcs && child in f.rfcs && parent != child && !Subordinate(f, parent)
    && (forall c: Id :: !HasParent(f, c, child)) && (forall s: Id :: !Linked(f, s, child))
    && !Differ(f.rfcs[parent].customer, f.rfcs[child].customer)
  }

  /** The revisions the command was prepared against are exactly the current ones of its participants. */
  predicate Exact(f: Forest, base: map<Id, nat>, ids: set<Id>) {
    base.Keys == ids && forall id :: id in ids ==> id in f.rfcs && base[id] == f.rfcs[id].revision && base[id] >= 1
  }

  /** An add is applied exactly for an unattached child that may join, at the current revisions. */
  lemma AddAppliedIff(f: Forest, parent: Id, child: Id, base: map<Id, nat>, e: Id)
    requires Inv(f) && e !in f.edges
    ensures var s := AddSubordinate(f, parent, child, base, e);
            && (s.result.Ok? && s.result.value.0 == Applied <==>
                  Exact(f, base, {parent, child}) && !Subordinate(f, child) && MayJoin(f, parent, child))
            && (!(s.result.Ok? && s.result.value.0 == Applied) ==> s.after == f)
  {
    hide Inv, ViewBranch, Linked, HasParent, Subordinate, Differ, OpenEdge, Bump;
    NoChildrenIff(f, child);
    NoLinksIff(f, child);
    SubordinateIff(f, child);
    if AddFault(f, parent, child, base).None? && AttachFault(f, parent, child).None? {
      OpenEdgeKeeps(f, e, parent, child);
      BumpKeeps(f, OpenEdge(f, e, parent, child), {parent, child});
      OpenLeavesRoot(f, e, parent, child);
      BumpedKeys(f, OpenEdge(f, e, parent, child), {parent, child}, parent);
      ViewSound(Bump(OpenEdge(f, e, parent, child), {parent, child}), parent);
    }
  }

  lemma BumpedKeys(f: Forest, g: Forest, ids: set<Id>, rfc: Id)
    requires Keeps(f, g) && rfc in f.rfcs
    ensures rfc in Bump(g, ids).rfcs
  {
  }

  /** The edge the child hangs by. */
  function HangsBy(f: Forest, child: Id): Option<Id> { First(ParentEdges(f, child)) }

  /** The history is known; when it is at risk there is a review; and a review has seen exactly the present state. */
  predicate ReviewStands(f: Forest, child: Id, parent: Id, target: Option<Id>, history: History, review: Option<Review>) {
    && history.Ready? && (history.high ==> review.Some?)
    && (review.Some? ==>
          var v := review.value;
          && v.child == child && v.oldParent == parent && Some(v.oldEdge) == HangsBy(f, child) && v.history == history
          && v.blockers == [] && v.newParent == target && ViewBranch(f, parent) == Ok(v.oldBranch)
          && (if target.None? then v.newBranch.None? && !v.unresolved
              else v.newBranch.Some? && ViewBranch(f, target.value) == Ok(v.newBranch.value)
                   && child in f.rfcs && target.value in f.rfcs
                   && (v.unresolved <==> f.rfcs[child].customer.None? || f.rfcs[target.value].customer.None?)))
  }

  lemma DetachPreview(f: Forest, child: Id, history: History)
    requires Inv(f)
    ensures EvaluateDetach(f, child, history).Ok? <==> child in f.rfcs && ParentOf(f, child).Some?
    ensures EvaluateDetach(f, child, history).Ok? ==>
              var p, parent := EvaluateDetach(f, child, history).value, ParentOf(f, child).value;
              && parent in f.rfcs && parent != child && ViewBranch(f, parent).Ok? && HangsBy(f, child) == Some(p.oldEdge)
              && p.oldEdge in f.edges && f.edges[p.oldEdge] == Edge(parent, child, true) && p.oldParent == parent
              && p.blockers == [] && p.base == map[parent := f.rfcs[parent].revision, child := f.rfcs[child].revision]
              && p.review == HierarchyReview(child, parent, None, p.oldEdge, ViewBranch(f, parent).value, None, history, [],
                                             false)
  {
    hide ViewBranch;
    if child in f.rfcs && ParentOf(f, child).Some? {
      var e := First(ParentEdges(f, child)).value;
      ParentUnique(f, e);
      ViewSound(f, f.edges[e].parent);
    }
  }

  lemma MovePreview(f: Forest, child: Id, target: Id, history: History)
    requires Inv(f)
    ensures Evaluate(f, child, Some(target), history).Ok? <==> EvaluateDetach(f, child, history).Ok? && target in f.rfcs
    ensures Evaluate(f, child, Some(target), history).Ok? && !Subordinate(f, target) ==>
              var p, q := Evaluate(f, child, Some(target), history).value, EvaluateDetach(f, child, history).value;
              && child in f.rfcs && ViewBranch(f, target).Ok?
              && p.oldEdge == q.oldEdge && p.oldParent == q.oldParent && p.base == q.base[target := f.rfcs[target].revision]
              && p.blockers == Blockers(f, child, q.oldParent, target)
              && p.review == q.review.(newParent := Some(target), newBranch := Some(ViewBranch(f, target).value),
                                       blockers := p.blockers, unresolved := UnresolvedPair(f, child, target))
  {
    hide Inv, ViewBranch, EvaluateDetach, Blockers;
    if target in f.rfcs {
      RootForPreviewSound(f, target);
      SubordinateIff(f, target);
    }
  }

  lemma BlockersIff(f: Forest, child: Id, prior: Id, target: Id)
    requires child in f.rfcs && target in f.rfcs
    ensures Blockers(f, child, prior, target) == [] <==> MayJoin(f, target, child) && target != prior
  {
    hide Linked, HasParent, Subordinate;
    NoChildrenIff(f, child);
    NoLinksIff(f, child);
  }

  lemma ExactIff(f: Forest, base: map<Id, nat>, parent: Id, child: Id, target: Id)
    requires parent in f.rfcs && child in f.rfcs && target in f.rfcs
    ensures var pair := map[parent := f.rfcs[parent].revision, child := f.rfcs[child].revision];
            && (Exact(f, base, {parent, child}) <==> PositiveRevisions(base) && base == pair)
            && (Exact(f, base, {parent, child, target})
                <==> PositiveRevisions(base) && base == pair[target := f.rfcs[target].revision])
  {
    var pair := map[parent := f.rfcs[parent].revision, child := f.rfcs[child].revision];
    assert pair.Keys == {parent, child} && pair[target := f.rfcs[target].revision].Keys == {parent, child, target};
  }

  /** A reparent is applied exactly for an attached child that may join elsewhere, at the current revisions, under a review
      that stands. */
  lemma ReparentAppliedIff(f: Forest, child: Id, target: Id, base: map<Id, nat>, history: History, review: Option<Review>,
                           e: Id)
    requires Inv(f) && e !in f.edges
    ensures var s := Reparent(f, child, target, base, history, review, e);
            && (s.result.Ok? <==>
                  && child in f.rfcs && ParentOf(f, child).Some? && ParentOf(f, child) != Some(target)
                  && MayJoin(f, target, child) && Exact(f, base, {ParentOf(f, child).value, child, target})
                  && ReviewStands(f, child, ParentOf(f, child).value, Some(target), history, review))
            && (s.result.Err? ==> s.after == f)
  {
    hide Inv, ViewBranch, EvaluateDetach, Evaluate, Blockers, MayJoin, Exact, Subordinate, ParentOf, HangsBy, Reparent,
         PositiveRevisions, UnresolvedPair, ReviewFault, ReviewStands;
    DetachPreview(f, child, history);
    MovePreview(f, child, target, history);
    JoinNeeds(f, target, child);
    ReparentGoes(f, child, target, base, history, review, e);
    var p := Evaluate(f, child, Some(target), history);
    if p.Ok? {
      var parent := ParentOf(f, child).value;
      BlockersIff(f, child, parent, target);
      if MayJoin(f, target, child) && target != parent {
        ExactIff(f, base, parent, child, target);
        ReviewIff(f, child, target, base, history, review);
        if Exact(f, base, {parent, child, target}) { SmallBase(f, base, {parent, child, target}); }
      } else {
        EvaluateMoveSound(f, child, target, history);
        BlockedRefused(p.value, base, history, review);
      }
    }
  }

  lemma BlockedRefused(p: Preview, base: map<Id, nat>, history: History, review: Option<Review>)
    requires p.blockers != []
    ensures ReviewFault(p, base, history, review).Some?
  {
  }

  /** Past its review, a reparent cannot fail. */
  lemma ReparentGoes(f: Forest, child: Id, target: Id, base: map<Id, nat>, history: History, review: Option<Review>, e: Id)
    requires Inv(f) && e !in f.edges
    ensures var s, p := Reparent(f, child, target, base, history, review, e), Evaluate(f, child, Some(target), history);
            && (s.result.Ok? <==> 1 <= |base| <= 3 && PositiveRevisions(base) && p.Ok?
                                  && ReviewFault(p.value, base, history, review).None?)
            && (s.result.Err? ==> s.after == f)
  {
    hide Inv, ViewBranch, EvaluateDetach, Evaluate, Blockers, Bump, PositiveRevisions, Moved, OpenEdge, CloseEdge, ParentOf,
         Subordinate;
    EvaluateSound(f, child, history);
    EvaluateMoveSound(f, child, target, history);
    var p := Evaluate(f, child, Some(target), history);
    if p.Ok? && ReviewFault(p.value, base, history, review).None? {
      MovedRowsSound(f, p.value, child, target, e);
      assert MovedRows(f, p.value, child, target, e)
          == Bump(OpenEdge(CloseEdge(f, p.value.oldEdge), e, target, child), {p.value.oldParent, child, target});
    }
  }

  /** The review is accepted exactly if it stands, given a move without blockers at the exact revisions. */
  lemma ReviewIff(f: Forest, child: Id, target: Id, base: map<Id, nat>, history: History, review: Option<Review>)
    requires Inv(f) && Evaluate(f, child, Some(target), history).Ok? && !Subordinate(f, target)
    requires Evaluate(f, child, Some(target), history).value.blockers == []
    requires child in f.rfcs && ParentOf(f, child).Some?
    ensures var p := Evaluate(f, child, Some(target), history).value;
            ReviewFault(p, base, history, review).None?
            <==> base == p.base && ReviewStands(f, child, ParentOf(f, child).value, Some(target), history, review)
  {
    hide Inv, ViewBranch, EvaluateDetach, Evaluate, Blockers, Subordinate, ParentOf, HangsBy;
    DetachPreview(f, child, history);
    MovePreview(f, child, target, history);
  }

  lemma JoinNeeds(f: Forest, parent: Id, child: Id)
    ensures MayJoin(f, parent, child) ==> parent in f.rfcs && child in f.rfcs && !Subordinate(f, parent)
  {
    hide HasParent, Linked, Subordinate;
  }

  lemma SmallBase(f: Forest, base: map<Id, nat>, ids: set<Id>)
    requires Exact(f, base, ids) && |ids| <= 3 && ids != {}
    ensures 1 <= |base| <= 3 && PositiveRevisions(base)
  {
    assert |base| == |base.Keys|;
  }

  /** A detach is applied exactly for an attached child, at the current revisions, under a review that stands. */
  lemma DetachAppliedIff(f: Forest, child: Id, base: map<Id, nat>, history: History, review: Option<Review>)
    requires Inv(f)
    ensures var s := Detach(f, child, base, history, review);
            && (s.result.Ok? <==>
                  && child in f.rfcs && ParentOf(f, child).Some? && Exact(f, base, {ParentOf(f, child).value, child})
                  && ReviewStands(f, child, ParentOf(f, child).value, None, history, review))
            && (s.result.Err? ==> s.after == f)
  {
    hide Inv, ViewBranch, EvaluateDetach, Exact, ParentOf, HangsBy, Detach, PositiveRevisions;
    DetachPreview(f, child, history);
    DetachGoes(f, child, base, history, review);
    var p := EvaluateDetach(f, child, history);
    if p.Ok? {
      var parent := ParentOf(f, child).value;
      ExactIff(f, base, parent, child, child);
      if Exact(f, base, {parent, child}) { PairBase(f, base, parent, child); }
    }
  }

  lemma PairBase(f: Forest, base: map<Id, nat>, a: Id, b: Id)
    requires Exact(f, base, {a, b})
    ensures 1 <= |base| <= 2 && PositiveRevisions(base)
  {
    assert |base| == |base.Keys|;
  }

  /** Past its review, a detach cannot fail. */
  lemma DetachGoes(f: Forest, child: Id, base: map<Id, nat>, history: History, review: Option<Review>)
    requires Inv(f)
    ensures var s, p := Detach(f, child, base, history, review), EvaluateDetach(f, child, history);
            && (s.result.Ok? <==> 1 <= |base| <= 2 && PositiveRevisions(base) && p.Ok?
                                  && ReviewFault(p.value, base, history, review).None?)
            && (s.result.Err? ==> s.after == f)
  {
    hide Inv, ViewBranch, EvaluateDetach, Bump, PositiveRevisions, CloseEdge, ReviewFault, Subordinate, Grows;
    EvaluateSound(f, child, history);
    var p := EvaluateDetach(f, child, history);
    assert Evaluate(f, child, None, history) == p;
    if p.Ok? {
      var edge := p.value.oldEdge;
      CloseMoves(f, edge);
      CloseEdgeKeeps(f, edge);
      var h, ids := CloseEdge(f, edge), {p.value.oldParent, child};
      BumpKeeps(f, h, ids);
      BumpKeepsRoots(h, ids, child);
      BumpedThere(f, edge, ids, child);
      ViewSound(Bump(h, ids), child);
    }
  }

  lemma BumpedThere(f: Forest, edge: Id, ids: set<Id>, rfc: Id)
    requires edge in f.edges && rfc in f.rfcs
    ensures rfc in Bump(CloseEdge(f, edge), ids).rfcs
  {
  }

  /** Equal branch views mean the same members, with the same revisions, Customers, archive states and edges. */
  lemma ViewPins(f: Forest, g: Forest, root: Id)
    requires ViewBranch(f, root).Ok? && ViewBranch(g, root) == ViewBranch(f, root)
    ensures Branch(g, root) == Branch(f, root)
    ensures forall id :: id in Branch(f, root) ==> MemberOf(g, id) == MemberOf(f, id)
    ensures forall id :: id in Branch(f, root) && id != root ==> HangsBy(g, id) == HangsBy(f, id)
  {
    hide Branch, ParentEdges, Ascending;
    var a, b := Ascending(Branch(f, root) - {root}), Ascending(Branch(g, root) - {root});
    var xs, ys := ChildRows(f, a), ChildRows(g, b);
    assert xs == ys && |a| == |b|;
    forall i | 0 <= i < |a|
      ensures a[i] == b[i] && MemberOf(g, a[i]) == MemberOf(f, a[i]) && HangsBy(g, a[i]) == HangsBy(f, a[i])
    {
      assert xs[i] == ys[i];
    }
    assert a == b;
    RootInBranch(f, root);
    RootInBranch(g, root);
    forall id
      ensures id in Branch(f, root) <==> id in Branch(g, root)
    {
      assert id in a <==> id in Branch(f, root) - {root};
      assert id in b <==> id in Branch(g, root) - {root};
    }
    assert MemberOf(g, root) == MemberOf(f, root);
    forall id | id in Branch(f, root) && id != root
      ensures MemberOf(g, id) == MemberOf(f, id) && HangsBy(g, id) == HangsBy(f, id)
    {
      assert id in a;
      var i :| 0 <= i < |a| && a[i] == id;
    }
  }

  lemma RootInBranch(f: Forest, root: Id)
    requires root in f.rfcs
    ensures root in Branch(f, root)
  {
  }
}
