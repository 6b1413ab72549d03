/**
 Agreement between the subordinates of one root is not an invariant: attaching compares a child with its parent only.
 Exactly when it survives a command, and a whole run.
 */
module RfcSiblings {
  import opened Prelude
  import opened RfcForest
  import opened RfcForestSafety
  import opened RfcForestGuarantees

  /** Two subordinates of one root have different known Customers. */
  ghost predicate SiblingsDiffer(f: Forest, root: Id) {
    exists a, b :: HasParent(f, a, root) && HasParent(f, b, root) && a in f.rfcs && b in f.rfcs
                   && Differ(f.rfcs[a].customer, f.rfcs[b].customer)
  }

  /**
   Attaching a child compares it with its parent only. A branch whose siblings agreed still agrees afterwards
   exactly when no known Customer of a present sibling differs from the child's.
   */
  lemma SiblingAgreementAfterAdd(f: Forest, parent: Id, child: Id, base: map<Id, nat>, e: Id)
    requires Inv(f) && e !in f.edges && !SiblingsDiffer(f, parent)
    requires AddSubordinate(f, parent, child, base, e).result.Ok?
    requires AddSubordinate(f, parent, child, base, e).result.value.0 == Applied
    ensures var g := AddSubordinate(f, parent, child, base, e).after;
            && child in f.rfcs
            && (!SiblingsDiffer(g, parent) <==>
                forall a :: a in f.rfcs && HasParent(f, a, parent) ==> !Differ(f.rfcs[a].customer, f.rfcs[child].customer))
  {
    hide Inv, HasParent, AddSubordinate;
    AddAttaches(f, parent, child, base, e);
    AddKeeps(f, parent, child, base, e);
    NoParent(f, child);
    var g := AddSubordinate(f, parent, child, base, e).after;
    assert HasParent(g, child, parent);
    assert child in f.rfcs by {
      AddNeeds(f, parent, child, base, e);
    }
    if a :| a in f.rfcs && HasParent(f, a, parent) && Differ(f.rfcs[a].customer, f.rfcs[child].customer) {
      assert HasParent(g, a, parent) && Differ(g.rfcs[a].customer, g.rfcs[child].customer);
    }
  }

  lemma AddNeeds(f: Forest, parent: Id, child: Id, base: map<Id, nat>, e: Id)
    requires AddSubordinate(f, parent, child, base, e).result.Ok?
    ensures parent in f.rfcs && child in f.rfcs
  {
    hide ViewBranch;
  }

  /** A root without a Customer has a subordinate of Customer 7; another RFC has Customer 8. */
  const ONE_CHILD := Forest(map[0 := Rfc("NR0", None, false, 3), 1 := Rfc("NR1", Some(7), false, 2),
                                2 := Rfc("NR2", Some(8), false, 2)],
                            map[10 := Edge(0, 1, true)], map[], map[], map[])

  lemma OneChildSound()
    ensures Inv(ONE_CHILD)
  {
  }

  /** It does happen: a root without a Customer takes a second subordinate whose Customer differs from the first's. */
  lemma SiblingsMayDiffer()
    ensures Inv(ONE_CHILD) && !SiblingsDiffer(ONE_CHILD, 0)
    ensures SiblingsDiffer(AddSubordinate(ONE_CHILD, 0, 2, map[0 := 3, 2 := 2], 11).after, 0)
  {
    hide Inv, AddSubordinate, SiblingsDiffer;
    var f, base := ONE_CHILD, map[0 := 3, 2 := 2];
    OneChildSound();
    HasParentOf(f, 10);
    SecondChildAdded(f, base);
    SiblingAgreementAfterAdd(f, 0, 2, base, 11);
    assert HasParent(f, 1, 0) && Differ(f.rfcs[1].customer, f.rfcs[2].customer);
  }

  /** The same with the other RFC already subordinate to a second root. */
  const TWO_BRANCHES := ONE_CHILD.(rfcs := ONE_CHILD.rfcs[3 := Rfc("NR3", None, false, 3)],
                                   edges := ONE_CHILD.edges[12 := Edge(3, 2, true)])

  const CALM := Ready(false, 0, "")

  lemma TwoBranchesSound()
    ensures Inv(TWO_BRANCHES) && SiblingsAgree(TWO_BRANCHES)
    ensures HasParent(TWO_BRANCHES, 1, 0)
  {
    var f := TWO_BRANCHES;
    HasParentOf(f, 10);
    forall a, p | HasParent(f, a, p)
      ensures (a == 1 && p == 0) || (a == 2 && p == 3)
    {
      var e :| e in f.edges && f.edges[e].active && f.edges[e].child == a && f.edges[e].parent == p;
    }
  }

  /** And a subordinate moves next to one of another Customer. */
  lemma ReparentMakesSiblingsDiffer()
    ensures Inv(TWO_BRANCHES) && SiblingsAgree(TWO_BRANCHES)
    ensures var s := Reparent(TWO_BRANCHES, 2, 0, map[3 := 3, 2 := 2, 0 := 3], CALM, None, 11);
            s.result.Ok? && !SiblingsAgree(s.after)
  {
    hide Inv, SiblingsAgree, Reparent, HasParent;
    var f := TWO_BRANCHES;
    TwoBranchesSound();
    TwoBranchesMove();
    SiblingAgreementAfterReparent(f, 2, 0, map[3 := 3, 2 := 2, 0 := 3], CALM, None, 11);
    assert Differ(f.rfcs[1].customer, f.rfcs[2].customer);
  }

  lemma TwoBranchesMove()
    requires Inv(TWO_BRANCHES)
    ensures Reparent(TWO_BRANCHES, 2, 0, map[3 := 3, 2 := 2, 0 := 3], CALM, None, 11).result.Ok?
  {
    hide Inv, ViewBranch, RootForPreview, Moved;
    var f, base := TWO_BRANCHES, map[3 := 3, 2 := 2, 0 := 3];
    TwoBranchesPreview();
    var p := Evaluate(f, 2, Some(0), CALM).value;
    MovedRowsSound(f, p, 2, 0, 11);
    assert PositiveRevisions(base);
    assert |base| == 3 by { assert base.Keys == {3, 2, 0}; }
  }

  lemma TwoBranchesPreview()
    requires Inv(TWO_BRANCHES)
    ensures var p := Evaluate(TWO_BRANCHES, 2, Some(0), CALM);
            && p.Ok? && p.value.oldEdge == 12 && p.value.oldParent == 3 && p.value.base == map[3 := 3, 2 := 2, 0 := 3]
            && p.value.blockers == [] && Blockers(TWO_BRANCHES, 2, 3, 0) == []
  {
    hide Inv, ViewBranch, RootForPreview;
    var f := TWO_BRANCHES;
    ParentUnique(f, 12);
    assert ParentEdges(f, 3) == {} && ParentEdges(f, 0) == {} && ChildEdges(f, 2) == {} && LinksOf(f, 2) == {};
    ViewSound(f, 3);
    RootForPreviewSound(f, 0);
  }

  lemma SecondChildAdded(f: Forest, base: map<Id, nat>)
    requires Inv(f) && f.edges == map[10 := Edge(0, 1, true)] && f.links == map[] && base == map[0 := 3, 2 := 2]
    requires 0 in f.rfcs && 2 in f.rfcs && f.rfcs[0].revision == 3 && f.rfcs[2].revision == 2
    requires f.rfcs[0].customer == None
    ensures AddSubordinate(f, 0, 2, base, 11).result.Ok? && AddSubordinate(f, 0, 2, base, 11).result.value.0 == Applied
    ensures !SiblingsDiffer(f, 0)
  {
    hide Inv, ViewBranch, Grows;
    assert ParentEdges(f, 2) == {} && ChildEdges(f, 2) == {} && ParentEdges(f, 0) == {} && LinksOf(f, 2) == {};
    var h := OpenEdge(f, 11, 0, 2);
    OpenEdgeKeeps(f, 11, 0, 2);
    BumpKeeps(f, h, {0, 2});
    OpenLeavesRoot(f, 11, 0, 2);
    ViewSound(Bump(h, {0, 2}), 0);
  }

  /* ---- Every command, and every run ---- */

  /** The known Customers of any two subordinates of one root agree. */
  ghost predicate SiblingsAgree(f: Forest) {
    forall a, b, p :: HasParent(f, a, p) && HasParent(f, b, p) && a in f.rfcs && b in f.rfcs ==>
      !Differ(f.rfcs[a].customer, f.rfcs[b].customer)
  }

  /** The child the command attaches, and where. */
  function Joins(f: Forest, op: Op): Option<(Id, Id)> {
    match op
    case DoAdd(parent, child, base, e) =>
      var s := AddSubordinate(f, parent, child, base, e);
      if s.result.Ok? && s.result.value.0 == Applied then Some((child, parent)) else None
    case DoReparent(child, target, base, history, review, e) =>
      if Reparent(f, child, target, base, history, review, e).result.Ok? then Some((child, target)) else None
    case _ => None
  }

  /** No present subordinate of the parent has a known Customer other than the child's. */
  ghost predicate Fits(f: Forest, child: Id, parent: Id) {
    child in f.rfcs && forall a :: a in f.rfcs && a != child && HasParent(f, a, parent) ==>
      !Differ(f.rfcs[a].customer, f.rfcs[child].customer)
  }

  lemma MovedAgrees(f: Forest, g: Forest, child: Id, parent: Id)
    requires Moved(f, g, child, Some(parent)) && SiblingsAgree(f) && child in f.rfcs
    ensures SiblingsAgree(g) <==> Fits(f, child, parent)
  {
    hide HasParent;
    assert HasParent(g, child, parent);
    if !Fits(f, child, parent) {
      var a :| a in f.rfcs && a != child && HasParent(f, a, parent) && Differ(f.rfcs[a].customer, f.rfcs[child].customer);
      assert HasParent(g, a, parent);
    }
  }

  lemma LeavingAgrees(f: Forest, g: Forest, child: Id)
    requires Moved(f, g, child, None) && SiblingsAgree(f)
    ensures SiblingsAgree(g)
  {
    hide HasParent;
  }

  /** A reparented child is compared with its new parent only. */
  lemma SiblingAgreementAfterReparent(f: Forest, child: Id, target: Id, base: map<Id, nat>, history: History,
                                      review: Option<Review>, e: Id)
    requires Inv(f) && SiblingsAgree(f) && Reparent(f, child, target, base, history, review, e).result.Ok?
    ensures SiblingsAgree(Reparent(f, child, target, base, history, review, e).after) <==> Fits(f, child, target)
  {
    hide Inv, HasParent, SiblingsAgree, Fits, Moved;
    ReparentNeeds(f, child, target, base, history, review, e);
    ReparentMoves(f, child, target, base, history, review, e);
    hide Reparent;
    MovedAgrees(f, Reparent(f, child, target, base, history, review, e).after, child, target);
  }

  lemma ReparentNeeds(f: Forest, child: Id, target: Id, base: map<Id, nat>, history: History, review: Option<Review>,
                      e: Id)
    requires Reparent(f, child, target, base, history, review, e).result.Ok?
    ensures e !in f.edges && child in f.rfcs
  {
    hide Evaluate, PositiveRevisions, ReviewFault, Respond, Bump;
    assert EvaluateDetach(f, child, history).Ok? by { EvaluateNeeds(f, child, target, history); }
  }

  lemma EvaluateNeeds(f: Forest, child: Id, target: Id, history: History)
    requires Evaluate(f, child, Some(target), history).Ok?
    ensures EvaluateDetach(f, child, history).Ok? && child in f.rfcs
  {
  }

  lemma AddAgrees(f: Forest, parent: Id, child: Id, base: map<Id, nat>, e: Id)
    requires Inv(f) && SiblingsAgree(f)
    ensures var s := AddSubordinate(f, parent, child, base, e);
            if s.result.Ok? && s.result.value.0 == Applied then SiblingsAgree(s.after) <==> Fits(f, child, parent)
            else SiblingsAgree(s.after)
  {
    hide Inv, HasParent, SiblingsAgree, Fits, Moved;
    var s := AddSubordinate(f, parent, child, base, e);
    if s.result.Ok? && s.result.value.0 == Applied {
      AddFresh(f, parent, child, base, e);
      AddNeeds(f, parent, child, base, e);
      AddAttaches(f, parent, child, base, e);
      hide AddSubordinate;
      MovedAgrees(f, s.after, child, parent);
    } else {
      AddStays(f, parent, child, base, e);
    }
  }

  lemma AddFresh(f: Forest, parent: Id, child: Id, base: map<Id, nat>, e: Id)
    requires var s := AddSubordinate(f, parent, child, base, e); s.result.Ok? && s.result.value.0 == Applied
    ensures e !in f.edges
  {
    hide AddFault, AttachFault, ViewBranch;
  }

  lemma AddStays(f: Forest, parent: Id, child: Id, base: map<Id, nat>, e: Id)
    requires var s := AddSubordinate(f, parent, child, base, e); s.result.Err? || s.result.value.0 == NoChange
    ensures AddSubordinate(f, parent, child, base, e).after == f
  {
    hide AddFault, AttachFault, ViewBranch;
  }

  lemma DetachAgrees(f: Forest, child: Id, base: map<Id, nat>, history: History, review: Option<Review>)
    requires Inv(f) && SiblingsAgree(f)
    ensures SiblingsAgree(Detach(f, child, base, history, review).after)
  {
    hide Inv, HasParent, SiblingsAgree, Moved, Detach;
    DetachDetaches(f, child, base, history, review);
    DetachStays(f, child, base, history, review);
    if Detach(f, child, base, history, review).result.Ok? {
      LeavingAgrees(f, Detach(f, child, base, history, review).after, child);
    }
  }

  lemma DetachStays(f: Forest, child: Id, base: map<Id, nat>, history: History, review: Option<Review>)
    ensures var s := Detach(f, child, base, history, review); s.result.Err? ==> s.after == f
  {
    hide Evaluate, ReviewFault, ViewBranch;
  }

  /** The branch check before a Customer change covers the siblings as well. */
  lemma SetCustomerAgrees(f: Forest, rfc: Id, customer: Option<Id>)
    requires Inv(f) && SiblingsAgree(f) && rfc in f.rfcs && !BranchRefuses(f, rfc, customer)
    ensures SiblingsAgree(SetCustomerRow(f, rfc, customer))
  {
    hide Inv;
    var g := SetCustomerRow(f, rfc, customer);
    forall a, b, p | HasParent(g, a, p) && HasParent(g, b, p) && a in g.rfcs && b in g.rfcs
      ensures !Differ(g.rfcs[a].customer, g.rfcs[b].customer)
    {
      assert HasParent(f, a, p) && HasParent(f, b, p);
      if a == rfc && b != rfc {
        SiblingInBranch(f, rfc, b, p);
      } else if b == rfc && a != rfc {
        SiblingInBranch(f, rfc, a, p);
      }
    }
  }

  lemma SiblingInBranch(f: Forest, rfc: Id, b: Id, p: Id)
    requires Inv(f) && HasParent(f, rfc, p) && HasParent(f, b, p) && b in f.rfcs
    ensures b in Branch(f, BranchRoot(f, rfc))
  {
    ParentOfIff(f, rfc, p);
    var e :| e in f.edges && f.edges[e].active && f.edges[e].child == b && f.edges[e].parent == p;
    assert e in ChildEdges(f, p);
    assert b in Children(f, p);
  }

  /** A step that leaves the edges and the Customers of present RFCs alone. */
  ghost predicate Aside(f: Forest, g: Forest) {
    g.edges == f.edges && f.rfcs.Keys <= g.rfcs.Keys
    && forall id :: id in f.rfcs ==> g.rfcs[id].customer == f.rfcs[id].customer
  }

  lemma AsideAgrees(f: Forest, g: Forest)
    requires Inv(f) && SiblingsAgree(f) && Aside(f, g)
    ensures SiblingsAgree(g)
  {
    forall a, b, p | HasParent(g, a, p) && HasParent(g, b, p) && a in g.rfcs && b in g.rfcs
      ensures !Differ(g.rfcs[a].customer, g.rfcs[b].customer)
    {
      assert HasParent(f, a, p) && HasParent(f, b, p);
      var d :| d in f.edges && f.edges[d].active && f.edges[d].child == a && f.edges[d].parent == p;
      var e :| e in f.edges && f.edges[e].active && f.edges[e].child == b && f.edges[e].parent == p;
      assert a in f.rfcs && b in f.rfcs;
    }
  }

  lemma OthersAside(f: Forest, op: Op)
    requires op.DoLink? || op.DoUnlink? || op.DoCreate? || op.DoImportIdentity? || op.DoImportLink? || op.DoElsewhere?
    ensures Aside(f, Apply(f, op))
  {
    hide PreviewLink, LinkCandidate, IdentityToken;
  }

  lemma CustomerAgrees(f: Forest, op: Op)
    requires Inv(f) && SiblingsAgree(f) && (op.DoSetCustomer? || op.DoImportCustomer?)
    ensures SiblingsAgree(Apply(f, op))
  {
    hide Inv, SiblingsAgree, BranchRefuses, CustomerToken, SetCustomerRow;
    match op
    case DoSetCustomer(rfc, base, customer) =>
      if SetCustomer(f, rfc, base, customer).after != f { SetCustomerAgrees(f, rfc, customer); }
    case DoImportCustomer(rfc, target, expected, token) =>
      if SetCustomerFromReview(f, rfc, target, expected, token).after != f {
        assert rfc in f.rfcs by { CustomerTokenNeeds(f, rfc, target); }
        SetCustomerAgrees(f, rfc, Some(target));
      }
  }

  lemma CustomerTokenNeeds(f: Forest, rfc: Id, target: Id)
    requires CustomerToken(f, rfc, target).Ok?
    ensures rfc in f.rfcs
  {
  }

  /** Siblings that agree still agree after a command exactly if a child it attached fits there. */
  lemma StepAgrees(f: Forest, op: Op)
    requires Inv(f) && SiblingsAgree(f)
    ensures SiblingsAgree(Apply(f, op)) <==> var j := Joins(f, op); j.Some? ==> Fits(f, j.value.0, j.value.1)
  {
    hide Inv, SiblingsAgree, Fits, AddSubordinate, Reparent, Detach, LinkSr, UnlinkSr, CreateOrAdopt, SetCustomer,
         CreateFromSource, SetCustomerFromReview, LinkSrFromReview;
    match op
    case DoAdd(parent, child, base, e) => AddAgrees(f, parent, child, base, e);
    case DoReparent(child, target, base, history, review, e) =>
      ReparentStays(f, child, target, base, history, review, e);
      if Reparent(f, child, target, base, history, review, e).result.Ok? {
        SiblingAgreementAfterReparent(f, child, target, base, history, review, e);
      }
    case DoDetach(child, base, history, review) => DetachAgrees(f, child, base, history, review);
    case DoSetCustomer(_, _, _) => CustomerAgrees(f, op);
    case DoImportCustomer(_, _, _, _) => CustomerAgrees(f, op);
    case _ =>
      hide Apply, Aside;
      OthersAside(f, op);
      AsideAgrees(f, Apply(f, op));
  }

  lemma ReparentStays(f: Forest, child: Id, target: Id, base: map<Id, nat>, history: History, review: Option<Review>,
                      e: Id)
    ensures var s := Reparent(f, child, target, base, history, review, e); s.result.Err? ==> s.after == f
  {
    hide Evaluate, ReviewFault, ViewBranch;
  }

  /** Siblings agree before and after every command of the run. */
  ghost predicate StaysAgreed(f: Forest, ops: seq<Op>)
    decreases |ops|
  {
    SiblingsAgree(f) && (ops == [] || StaysAgreed(Apply(f, ops[0]), ops[1..]))
  }

  /** Every child that an applied add or reparent of the run attaches fits where it goes. */
  ghost predicate AllFit(f: Forest, ops: seq<Op>)
    decreases |ops|
  {
    ops == [] || (&& (var j := Joins(f, ops[0]); j.Some? ==> Fits(f, j.value.0, j.value.1))
                  && AllFit(Apply(f, ops[0]), ops[1..]))
  }

  /** Over every run of all services: siblings agree throughout exactly if every attached child fits where it goes. */
  lemma {:induction false} RunAgrees(f: Forest, ops: seq<Op>)
    requires Inv(f) && SiblingsAgree(f)
    ensures StaysAgreed(f, ops) <==> AllFit(f, ops)
    decreases |ops|
  {
    hide Inv, Grows, SiblingsAgree, Apply, Joins, Fits;
    if ops != [] {
      StepAgrees(f, ops[0]);
      StepKeeps(f, ops[0]);
      if SiblingsAgree(Apply(f, ops[0])) {
        RunAgrees(Apply(f, ops[0]), ops[1..]);
      } else {
        Disagreed(Apply(f, ops[0]), ops[1..]);
      }
    }
  }

  lemma Disagreed(f: Forest, ops: seq<Op>)
    requires !SiblingsAgree(f)
    ensures !StaysAgreed(f, ops)
  {
  }
}
