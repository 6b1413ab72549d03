/** The shared forest invariant, and that every service keeps it over every run. */
module RfcForestSafety {
  import opened Prelude
  import opened RfcForest

  /** Every active edge joins two different existing RFCs whose known Customers agree. */
  ghost predicate EdgesOk(f: Forest) {
    forall e :: e in f.edges && f.edges[e].active ==>
      && f.edges[e].parent in f.rfcs && f.edges[e].child in f.rfcs && f.edges[e].parent != f.edges[e].child
      && !Differ(f.rfcs[f.edges[e].parent].customer, f.rfcs[f.edges[e].child].customer)
  }

  /** One parent per child, and no parent is itself a child. */
  ghost predicate TwoLevels(f: Forest) {
    forall a, b :: a in f.edges && b in f.edges && f.edges[a].active && f.edges[b].active ==>
      && (f.edges[a].child == f.edges[b].child ==> a == b)
      && f.edges[a].parent != f.edges[b].child
  }

  /** Active links join existing tickets, at most once per pair. */
  ghost predicate LinksOk(f: Forest) {
    && (forall k :: k in f.links && f.links[k].active ==> f.links[k].sr in f.srs && f.links[k].rfc in f.rfcs)
    && (forall k, l :: k in f.links && l in f.links && f.links[k].active && f.links[l].active ==>
          f.links[k].sr == f.links[l].sr && f.links[k].rfc == f.links[l].rfc ==> k == l)
  }

  /** No subordinate has an active link. */
  ghost predicate LinksOnRoots(f: Forest) {
    forall e, k :: e in f.edges && k in f.links && f.edges[e].active && f.links[k].active ==>
      f.edges[e].child != f.links[k].rfc
  }

  ghost predicate NumbersUnique(f: Forest) {
    forall a, b :: a in f.rfcs && b in f.rfcs && f.rfcs[a].no == f.rfcs[b].no ==> a == b
  }

  ghost predicate Inv(f: Forest) {
    EdgesOk(f) && TwoLevels(f) && LinksOk(f) && LinksOnRoots(f) && NumbersUnique(f)
  }

  /** What no step of any service takes away: rows stay, revisions only grow and every change of a row is a new one. */
  ghost predicate Advances(f: Forest, g: Forest) {
    && f.rfcs.Keys <= g.rfcs.Keys && f.edges.Keys <= g.edges.Keys && f.links.Keys <= g.links.Keys
    && (forall id :: id in f.rfcs ==>
          && f.rfcs[id].revision <= g.rfcs[id].revision && g.rfcs[id].no == f.rfcs[id].no
          && (g.rfcs[id] == f.rfcs[id] || f.rfcs[id].revision < g.rfcs[id].revision))
    && (forall e :: e in f.edges ==>
          && g.edges[e].parent == f.edges[e].parent && g.edges[e].child == f.edges[e].child
          && (g.edges[e].active ==> f.edges[e].active))
    && (forall k :: k in f.links ==>
          && g.links[k].sr == f.links[k].sr && g.links[k].rfc == f.links[k].rfc
          && (g.links[k].active ==> f.links[k].active))
  }

  /** Archive states are not changed by the services here, and a new RFC is active. */
  ghost predicate SameArchive(f: Forest, g: Forest) {
    && (forall id :: id in f.rfcs ==> id in g.rfcs && g.rfcs[id].archived == f.rfcs[id].archived)
    && (forall id :: id in g.rfcs && id !in f.rfcs ==> !g.rfcs[id].archived)
  }

  ghost predicate Grows(f: Forest, g: Forest) {
    Advances(f, g) && SameArchive(f, g)
  }

  ghost predicate Keeps(f: Forest, g: Forest) {
    Inv(g) && Grows(f, g)
  }

  /* ---- The primitive writes ---- */

  lemma BumpKeeps(f: Forest, g: Forest, ids: set<Id>)
    requires Keeps(f, g)
    ensures Keeps(f, Bump(g, ids))
  {
    var h := Bump(g, ids);
    assert forall id :: id in g.rfcs ==> h.rfcs[id].customer == g.rfcs[id].customer;
  }

  lemma BumpSrKeeps(f: Forest, g: Forest, sr: Id)
    requires Keeps(f, g) && sr in g.srs
    ensures Keeps(f, BumpSr(g, sr))
  {
  }

  lemma OpenEdgeKeeps(f: Forest, e: Id, parent: Id, child: Id)
    requires Inv(f) && e !in f.edges && parent in f.rfcs && child in f.rfcs && parent != child
    requires !Subordinate(f, child) && !Subordinate(f, parent) && ChildEdges(f, child) == {}
    requires LinksOf(f, child) == {} && !Differ(f.rfcs[parent].customer, f.rfcs[child].customer)
    ensures Keeps(f, OpenEdge(f, e, parent, child))
  {
    var g := OpenEdge(f, e, parent, child);
    assert forall a :: a in f.edges && f.edges[a].active ==>
      a !in ParentEdges(f, child) && a !in ParentEdges(f, parent) && a !in ChildEdges(f, child);
    assert forall k :: k in f.links && f.links[k].active ==> k !in LinksOf(f, child);
  }

  lemma CloseEdgeKeeps(f: Forest, e: Id)
    requires Inv(f) && e in f.edges
    ensures Keeps(f, CloseEdge(f, e))
  {
  }

  lemma OpenLinkKeeps(f: Forest, k: Id, sr: Id, rfc: Id)
    requires Inv(f) && k !in f.links && sr in f.srs && rfc in f.rfcs
    requires !Subordinate(f, rfc) && LinksBetween(f, sr, rfc) == {}
    ensures Keeps(f, OpenLink(f, k, sr, rfc))
  {
    assert forall e :: e in f.edges && f.edges[e].active ==> e !in ParentEdges(f, rfc);
    assert forall l :: l in f.links && f.links[l].active ==> l !in LinksBetween(f, sr, rfc);
  }

  lemma CloseLinkKeeps(f: Forest, k: Id)
    requires Inv(f) && k in f.links
    ensures Keeps(f, CloseLink(f, k))
  {
  }

  lemma InsertKeeps(f: Forest, no: string, customer: Option<Id>, id: Id)
    requires Inv(f) && id !in f.rfcs && WithNumber(f, no) == {}
    ensures Keeps(f, f.(rfcs := f.rfcs[id := Rfc(no, customer, false, 1)]))
  {
    assert forall a :: a in f.rfcs ==> a !in WithNumber(f, no);
  }

  /* ---- Reads under the invariant ---- */

  lemma SubordinateIff(f: Forest, rfc: Id)
    ensures Subordinate(f, rfc) <==> ParentOf(f, rfc).Some?
    ensures Subordinate(f, rfc) <==> exists e :: e in f.edges && f.edges[e].active && f.edges[e].child == rfc
  {
    if e :| e in f.edges && f.edges[e].active && f.edges[e].child == rfc {
      assert e in ParentEdges(f, rfc);
    }
  }

  /** The first matching parent row is the only one. */
  lemma ParentUnique(f: Forest, e: Id)
    requires Inv(f) && e in f.edges && f.edges[e].active
    ensures ParentEdges(f, f.edges[e].child) == {e}
    ensures First(ParentEdges(f, f.edges[e].child)) == Some(e) && ParentOf(f, f.edges[e].child) == Some(f.edges[e].parent)
    ensures !Subordinate(f, f.edges[e].parent)
  {
    var s := ParentEdges(f, f.edges[e].child);
    assert e in s;
    assert forall b :: b in s ==> b == e;
  }

  /** Two members of one branch are joined by an edge whenever one of them is the root. */
  lemma BranchEdge(f: Forest, root: Id, id: Id)
    requires id in Branch(f, root) && id != root
    ensures exists e :: e in f.edges && f.edges[e].active && f.edges[e].parent == root && f.edges[e].child == id
  {
    assert id in Children(f, root);
  }

  /** A branch check before a Customer change is exactly what every edge of the changed RFC needs. */
  lemma SetCustomerKeeps(f: Forest, rfc: Id, customer: Option<Id>)
    requires Inv(f) && rfc in f.rfcs && !BranchRefuses(f, rfc, customer)
    ensures Keeps(f, SetCustomerRow(f, rfc, customer))
  {
    var g := SetCustomerRow(f, rfc, customer);
    var root := BranchRoot(f, rfc);
    forall e | e in f.edges && f.edges[e].active
      ensures !Differ(g.rfcs[f.edges[e].parent].customer, g.rfcs[f.edges[e].child].customer)
    {
      var x := f.edges[e];
      if x.child == rfc {
        ParentUnique(f, e);
        assert x.parent in Branch(f, root) && x.parent != rfc;
      } else if x.parent == rfc {
        ParentUnique(f, e);
        SubordinateIff(f, rfc);
        assert root == rfc;
        assert e in ChildEdges(f, root);
        assert x.child in Children(f, root);
        assert x.child in Branch(f, root);
      }
    }
  }

  /* ---- Each service keeps the invariant ---- */

  lemma StayKeeps(f: Forest)
    requires Inv(f)
    ensures Keeps(f, f)
  {
  }

  lemma AddKeeps(f: Forest, parent: Id, child: Id, base: map<Id, nat>, e: Id)
    requires Inv(f)
    ensures Keeps(f, AddSubordinate(f, parent, child, base, e).after)
  {
    hide Inv, ViewBranch;
    StayKeeps(f);
    if AddFault(f, parent, child, base).None? && AttachFault(f, parent, child).None? && e !in f.edges {
      SubordinateIff(f, child);
      OpenEdgeKeeps(f, e, parent, child);
      BumpKeeps(f, OpenEdge(f, e, parent, child), {parent, child});
    }
  }

  /** With no blockers the move is an attach once the old edge is closed. */
  lemma ReparentKeeps(f: Forest, child: Id, target: Id, base: map<Id, nat>, history: History, review: Option<Review>,
                      newEdge: Id)
    requires Inv(f)
    ensures Keeps(f, Reparent(f, child, target, base, history, review, newEdge).after)
  {
    hide Inv, Grows, ViewBranch, RootForPreview, Bump, ParentEdges, Blockers, PositiveRevisions;
    StayKeeps(f);
    var s := Reparent(f, child, target, base, history, review, newEdge);
    if s.result.Ok? {
      var p := Evaluate(f, child, Some(target), history).value;
      MoveKeeps(f, p.oldEdge, child, target, newEdge);
      var h := OpenEdge(CloseEdge(f, p.oldEdge), newEdge, target, child);
      BumpKeeps(f, h, {p.oldParent, child, target});
    }
  }

  lemma MoveKeeps(f: Forest, edge: Id, child: Id, target: Id, newEdge: Id)
    requires Inv(f) && edge in ParentEdges(f, child) && newEdge !in f.edges && child in f.rfcs && target in f.rfcs
    requires Blockers(f, child, f.edges[edge].parent, target) == []
    ensures Keeps(f, OpenEdge(CloseEdge(f, edge), newEdge, target, child))
  {
    ParentUnique(f, edge);
    var g := CloseEdge(f, edge);
    CloseEdgeKeeps(f, edge);
    assert ParentEdges(g, child) == {};
    assert ParentEdges(g, target) <= ParentEdges(f, target);
    assert ChildEdges(g, child) <= ChildEdges(f, child);
    OpenEdgeKeeps(g, newEdge, target, child);
  }

  lemma DetachKeeps(f: Forest, child: Id, base: map<Id, nat>, history: History, review: Option<Review>)
    requires Inv(f)
    ensures Keeps(f, Detach(f, child, base, history, review).after)
  {
    hide Inv, ViewBranch;
    StayKeeps(f);
    var s := Detach(f, child, base, history, review);
    if s.result.Ok? {
      var p := Evaluate(f, child, None, history).value;
      CloseEdgeKeeps(f, p.oldEdge);
      BumpKeeps(f, CloseEdge(f, p.oldEdge), {p.oldParent, child});
    }
  }

  lemma LinkKeeps(f: Forest, sr: Id, rfc: Id, srBase: nat, rfcBase: nat, origin: Option<Id>, review: Option<LinkReview>,
                  life: RfcLife, k: Id)
    requires Inv(f)
    ensures Keeps(f, LinkSr(f, sr, rfc, srBase, rfcBase, origin, review, life, k).after)
  {
    hide Inv, OneCustomer;
    StayKeeps(f);
    var g := LinkSr(f, sr, rfc, srBase, rfcBase, origin, review, life, k).after;
    if g != f {
      OpenLinkKeeps(f, k, sr, rfc);
      var h := OpenLink(f, k, sr, rfc);
      BumpKeeps(f, h, {rfc});
      BumpSrKeeps(f, Bump(h, {rfc}), sr);
    }
  }

  lemma UnlinkKeeps(f: Forest, sr: Id, root: Id, srBase: nat, rfcBase: nat)
    requires Inv(f)
    ensures Keeps(f, UnlinkSr(f, sr, root, srBase, rfcBase).after)
  {
    hide Inv;
    StayKeeps(f);
    var g := UnlinkSr(f, sr, root, srBase, rfcBase).after;
    if g != f {
      var k := First(LinksBetween(f, sr, root)).value;
      CloseLinkKeeps(f, k);
      BumpKeeps(f, CloseLink(f, k), {root});
      BumpSrKeeps(f, Bump(CloseLink(f, k), {root}), sr);
    }
  }

  lemma CustomerKeeps(f: Forest, rfc: Id, base: nat, customer: Option<Id>)
    requires Inv(f)
    ensures Keeps(f, SetCustomer(f, rfc, base, customer).after)
  {
    hide Inv, BranchRefuses;
    StayKeeps(f);
    if SetCustomer(f, rfc, base, customer).after != f {
      SetCustomerKeeps(f, rfc, customer);
    }
  }

  lemma ImportCustomerKeeps(f: Forest, rfc: Id, target: Id, expected: Option<Id>, token: Token)
    requires Inv(f)
    ensures Keeps(f, SetCustomerFromReview(f, rfc, target, expected, token).after)
  {
    hide Inv, BranchRefuses, Branch;
    StayKeeps(f);
    if SetCustomerFromReview(f, rfc, target, expected, token).after != f {
      SetCustomerKeeps(f, rfc, Some(target));
    }
  }

  lemma ImportLinkKeeps(f: Forest, sr: Id, requested: Id, token: Token, life: Id -> RfcLife, k: Id)
    requires Inv(f)
    ensures Keeps(f, LinkSrFromReview(f, sr, requested, token, life, k).after)
  {
    hide Inv, OneCustomer, Branch, GoverningRoot;
    StayKeeps(f);
    var g := LinkSrFromReview(f, sr, requested, token, life, k).after;
    if g != f {
      var root := LinkCandidate(f, sr, requested, life).value.root;
      OpenLinkKeeps(f, k, sr, root);
      var h := OpenLink(f, k, sr, root);
      BumpKeeps(f, h, {root});
      BumpSrKeeps(f, Bump(h, {root}), sr);
    }
  }

  lemma CreateKeeps(f: Forest, no: string, customer: Option<Id>, token: Token, id: Id)
    requires Inv(f)
    ensures Keeps(f, CreateOrAdopt(f, no, customer, id).after)
    ensures Keeps(f, CreateFromSource(f, no, token, id).after)
  {
    hide Inv;
    StayKeeps(f);
    if id !in f.rfcs && WithNumber(f, no) == {} {
      InsertKeeps(f, no, customer, id);
      InsertKeeps(f, no, None, id);
    }
  }

  lemma ElsewhereKeeps(f: Forest, srs: map<Id, Sr>, orgs: map<Id, Organization>)
    requires Inv(f) && f.srs.Keys <= srs.Keys
    ensures Keeps(f, f.(srs := srs, orgs := orgs))
  {
  }

  lemma StepKeeps(f: Forest, op: Op)
    requires Inv(f)
    ensures Keeps(f, Apply(f, op))
  {
    hide Inv, Grows, AddSubordinate, Reparent, Detach, LinkSr, UnlinkSr, CreateOrAdopt, SetCustomer, CreateFromSource,
         SetCustomerFromReview, LinkSrFromReview;
    match op
    case DoAdd(parent, child, base, e) => AddKeeps(f, parent, child, base, e);
    case DoReparent(child, target, base, history, review, e) => ReparentKeeps(f, child, target, base, history, review, e);
    case DoDetach(child, base, history, review) => DetachKeeps(f, child, base, history, review);
    case DoLink(sr, rfc, srBase, rfcBase, origin, review, life, k) =>
      LinkKeeps(f, sr, rfc, srBase, rfcBase, origin, review, life, k);
    case DoUnlink(sr, rfc, srBase, rfcBase) => UnlinkKeeps(f, sr, rfc, srBase, rfcBase);
    case DoCreate(no, customer, id) => CreateKeeps(f, no, customer, IdentityToken(f, no), id);
    case DoSetCustomer(rfc, base, customer) => CustomerKeeps(f, rfc, base, customer);
    case DoImportIdentity(no, token, id) => CreateKeeps(f, no, None, token, id);
    case DoImportCustomer(rfc, target, expected, token) => ImportCustomerKeeps(f, rfc, target, expected, token);
    case DoImportLink(sr, rfc, token, lives, k) => ImportLinkKeeps(f, sr, rfc, token, lives, k);
    case DoElsewhere(srs, orgs) =>
      StayKeeps(f);
      if f.srs.Keys <= srs.Keys { ElsewhereKeeps(f, srs, orgs); }
  }

  lemma AdvancesTransitive(f: Forest, g: Forest, h: Forest)
    requires Advances(f, g) && Advances(g, h)
    ensures Advances(f, h)
  {
  }

  lemma GrowsTransitive(f: Forest, g: Forest, h: Forest)
    requires Grows(f, g) && Grows(g, h)
    ensures Grows(f, h)
  {
    hide Advances;
    AdvancesTransitive(f, g, h);
  }

  /** However the services interleave, the forest invariant holds and nothing recorded is lost. */
  lemma {:induction false} RunKeeps(f: Forest, ops: seq<Op>)
    requires Inv(f)
    ensures Keeps(f, Run(f, ops))
    decreases |ops|
  {
    hide Inv, Grows, Apply;
    StayKeeps(f);
    if ops != [] {
      StepKeeps(f, ops[0]);
      RunKeeps(Apply(f, ops[0]), ops[1..]);
      GrowsTransitive(f, Apply(f, ops[0]), Run(f, ops));
    }
  }
}
