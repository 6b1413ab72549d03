/** What readers and users of the RFC hierarchy and its links can rely on in every reachable state. */
module RfcForestGuarantees {
  import opened Prelude
  import opened RfcForest
  import opened RfcForestSafety

  const EMPTY := Forest(map[], map[], map[], map[], map[])

  /* ---- The shape of the hierarchy ---- */

  predicate HasParent(f: Forest, child: Id, parent: Id) {
    exists e :: e in f.edges && f.edges[e].active && f.edges[e].child == child && f.edges[e].parent == parent
  }

  /** A path that follows active parents upwards. */
  predicate Chain(f: Forest, path: seq<Id>) {
    forall i :: 0 <= i < |path| - 1 ==> HasParent(f, path[i], path[i + 1])
  }

  /** Over every run the hierarchy is a forest of depth two: no upward path has a third RFC, so none comes back. */
  lemma ChainsHaveTwoLevels(ops: seq<Op>, path: seq<Id>)
    requires Chain(Run(EMPTY, ops), path)
    ensures |path| <= 2
    ensures |path| == 2 ==> path[0] != path[1]
  {
    RunKeeps(EMPTY, ops);
    if |path| >= 3 {
      NoGrandparent(Run(EMPTY, ops), path[0], path[1], path[2]);
    } else if |path| == 2 {
      assert HasParent(Run(EMPTY, ops), path[0], path[1]);
    }
  }

  lemma NoGrandparent(f: Forest, a: Id, b: Id, c: Id)
    requires Inv(f)
    ensures !HasParent(f, a, b) || !HasParent(f, b, c)
  {
  }

  lemma ParentOfIff(f: Forest, child: Id, parent: Id)
    requires Inv(f)
    ensures ParentOf(f, child) == Some(parent) <==> HasParent(f, child, parent)
  {
    if HasParent(f, child, parent) {
      var e :| e in f.edges && f.edges[e].active && f.edges[e].child == child && f.edges[e].parent == parent;
      ParentUnique(f, e);
    }
  }

  /** The reader never finds corruption; the root it finds is the RFC itself or its one parent, and is its own root. */
  lemma GoverningRootSound(f: Forest, rfc: Id, sr: Id)
    requires Inv(f) && rfc in f.rfcs && sr in f.srs
    ensures GoverningRoot(f, rfc).Ok?
    ensures var root := GoverningRoot(f, rfc).value;
            && GoverningRoot(f, root) == Ok(root)
            && (root == rfc || HasParent(f, rfc, root))
            && (forall p: Id :: !HasParent(f, root, p))
            && CurrentLinkState(f, sr, root).Ok?
            && RootForPreview(f, rfc) == Ok(root)
  {
    var es := ParentEdges(f, rfc);
    if es != {} {
      var e := First(es).value;
      ParentUnique(f, e);
      assert HasParent(f, rfc, f.edges[e].parent);
      NoParent(f, f.edges[e].parent);
      LinksBetweenUnique(f, sr, f.edges[e].parent);
    } else {
      NoParent(f, rfc);
      LinksBetweenUnique(f, sr, rfc);
    }
  }

  lemma NoParent(f: Forest, rfc: Id)
    requires !Subordinate(f, rfc)
    ensures forall p: Id :: !HasParent(f, rfc, p)
  {
    forall p: Id
      ensures !HasParent(f, rfc, p)
    {
      assert forall e :: e in f.edges ==> e !in ParentEdges(f, rfc);
    }
  }

  lemma LinksBetweenUnique(f: Forest, sr: Id, rfc: Id)
    requires LinksOk(f)
    ensures |LinksBetween(f, sr, rfc)| <= 1
  {
    var s := LinksBetween(f, sr, rfc);
    if k :| k in s {
      assert s == {k};
    }
  }

  /** A parentless RFC's branch is always presentable. */
  lemma ViewSound(f: Forest, root: Id)
    requires Inv(f) && root in f.rfcs && !Subordinate(f, root)
    ensures ViewBranch(f, root).Ok?
  {
    hide Ascending;
    forall id | id in Branch(f, root) - {root}
      ensures !Differ(f.rfcs[root].customer, f.rfcs[id].customer)
    {
      BranchEdge(f, root, id);
    }
  }

  lemma RootForPreviewSound(f: Forest, rfc: Id)
    requires Inv(f) && rfc in f.rfcs
    ensures RootForPreview(f, rfc).Ok? && ViewBranch(f, RootForPreview(f, rfc).value).Ok?
  {
    hide ViewBranch;
    if Subordinate(f, rfc) {
      var e := First(ParentEdges(f, rfc)).value;
      ParentUnique(f, e);
      ViewSound(f, f.edges[e].parent);
    } else {
      ViewSound(f, rfc);
    }
  }

  /* ---- What each hierarchy command does ---- */

  /** After the step the parent relation is the old one except that `child` now has `parent`. */
  ghost predicate Moved(f: Forest, g: Forest, child: Id, parent: Option<Id>) {
    && (forall c: Id, p: Id :: HasParent(g, c, p) <==> if c == child then parent == Some(p) else HasParent(f, c, p))
    && g.links == f.links && g.srs == f.srs && g.rfcs.Keys == f.rfcs.Keys
    && (forall id :: id in f.rfcs ==> g.rfcs[id].customer == f.rfcs[id].customer)
  }

  lemma HasParentOf(f: Forest, e: Id)
    requires e in f.edges && f.edges[e].active
    ensures HasParent(f, f.edges[e].child, f.edges[e].parent)
  {
  }

  lemma BumpMoves(f: Forest, g: Forest, ids: set<Id>, child: Id, parent: Option<Id>)
    requires Moved(f, g, child, parent)
    ensures Moved(f, Bump(g, ids), child, parent)
  {
    assert Bump(g, ids).edges == g.edges;
    forall c: Id, p: Id
      ensures HasParent(Bump(g, ids), c, p) == HasParent(g, c, p)
    {
    }
  }

  lemma OpenMoves(f: Forest, e: Id, parent: Id, child: Id)
    requires e !in f.edges && !Subordinate(f, child)
    ensures Moved(f, OpenEdge(f, e, parent, child), child, Some(parent))
  {
    var g := OpenEdge(f, e, parent, child);
    NoParent(f, child);
    forall c: Id, p: Id
      ensures HasParent(g, c, p) <==> if c == child then Some(parent) == Some(p) else HasParent(f, c, p)
    {
      HasParentOf(g, e);
      if HasParent(f, c, p) {
        var x :| x in f.edges && f.edges[x].active && f.edges[x].child == c && f.edges[x].parent == p;
        HasParentOf(g, x);
      }
    }
  }

  lemma CloseMoves(f: Forest, e: Id)
    requires Inv(f) && e in f.edges && f.edges[e].active
    ensures Moved(f, CloseEdge(f, e), f.edges[e].child, None)
    ensures !Subordinate(CloseEdge(f, e), f.edges[e].child)
  {
    var g := CloseEdge(f, e);
    forall c: Id, p: Id
      ensures HasParent(g, c, p) <==> if c == f.edges[e].child then None == Some(p) else HasParent(f, c, p)
    {
      if c != f.edges[e].child && HasParent(f, c, p) {
        var x :| x in f.edges && f.edges[x].active && f.edges[x].child == c && f.edges[x].parent == p;
        HasParentOf(g, x);
      }
    }
  }

  lemma MovedTransitive(f: Forest, g: Forest, h: Forest, child: Id, p: Option<Id>, q: Option<Id>)
    requires Moved(f, g, child, p) && Moved(g, h, child, q)
    ensures Moved(f, h, child, q)
  {
  }

  /** Add attaches exactly the named child, and with a fresh edge identity it never meets corruption. */
  lemma AddAttaches(f: Forest, parent: Id, child: Id, base: map<Id, nat>, e: Id)
    requires Inv(f) && e !in f.edges
    ensures var s := AddSubordinate(f, parent, child, base, e);
            && s.result != Err(Persistence)
            && (s.result.Ok? && s.result.value.0 == Applied ==>
                  && !Subordinate(f, child) && !Subordinate(f, parent)
                  && Moved(f, s.after, child, Some(parent))
                  && s.after.rfcs[parent].revision == base[parent] + 1
                  && s.after.rfcs[child].revision == base[child] + 1)
            && (s.result.Ok? && s.result.value.0 == NoChange ==> HasParent(f, child, parent) && s.after == f)
  {
    hide Inv, Moved, ViewBranch, HasParent;
    AddKeeps(f, parent, child, base, e);
    SubordinateIff(f, child);
    if AddFault(f, parent, child, base).None? {
      ParentOfIff(f, child, parent);
      if ParentOf(f, child) == Some(parent) {
        ParentUnique(f, First(ParentEdges(f, child)).value);
        ViewSound(f, parent);
      } else if AttachFault(f, parent, child).None? {
        var h := OpenEdge(f, e, parent, child);
        OpenEdgeKeeps(f, e, parent, child);
        OpenMoves(f, e, parent, child);
        BumpKeeps(f, h, {parent, child});
        BumpMoves(f, h, {parent, child}, child, Some(parent));
        OpenLeavesRoot(f, e, parent, child);
        ViewSound(Bump(h, {parent, child}), parent);
      }
    }
  }

  lemma OpenLeavesRoot(f: Forest, e: Id, parent: Id, child: Id)
    requires parent != child && !Subordinate(f, parent)
    ensures !Subordinate(Bump(OpenEdge(f, e, parent, child), {parent, child}), parent)
  {
    var h := Bump(OpenEdge(f, e, parent, child), {parent, child});
    if x :| x in ParentEdges(h, parent) {
      assert x in ParentEdges(f, parent);
    }
  }

  lemma EvaluateSound(f: Forest, child: Id, history: History)
    requires Inv(f)
    ensures EvaluateDetach(f, child, history) != Err(Persistence)
    ensures EvaluateDetach(f, child, history).Ok? ==>
              var p := EvaluateDetach(f, child, history).value;
              && p.oldEdge in f.edges && f.edges[p.oldEdge] == Edge(p.oldParent, child, true) && p.oldParent != child
              && p.oldParent in f.rfcs && !Subordinate(f, p.oldParent) && p.blockers == []
              && p.base == map[p.oldParent := f.rfcs[p.oldParent].revision, child := f.rfcs[child].revision]
  {
    hide ViewBranch;
    if child in f.rfcs && First(ParentEdges(f, child)).Some? {
      var e := First(ParentEdges(f, child)).value;
      ParentUnique(f, e);
      ViewSound(f, f.edges[e].parent);
    }
  }

  lemma EvaluateMoveSound(f: Forest, child: Id, target: Id, history: History)
    requires Inv(f)
    ensures Evaluate(f, child, Some(target), history) != Err(Persistence)
    ensures Evaluate(f, child, Some(target), history).Ok? ==>
              var p, q := Evaluate(f, child, Some(target), history).value, EvaluateDetach(f, child, history);
              && q.Ok? && q.value.oldEdge == p.oldEdge && q.value.oldParent == p.oldParent
              && child in f.rfcs && target in f.rfcs && p.blockers == Blockers(f, child, p.oldParent, target)
              && p.base.Keys == {p.oldParent, child, target}
              && (forall id :: id in p.base ==> id in f.rfcs && p.base[id] == f.rfcs[id].revision)
  {
    hide Inv, ViewBranch, RootForPreview, EvaluateDetach, Blockers;
    EvaluateSound(f, child, history);
    if target in f.rfcs {
      RootForPreviewSound(f, target);
    }
  }

  lemma BlockersMean(f: Forest, child: Id, prior: Id, target: Id)
    requires child in f.rfcs && target in f.rfcs && Blockers(f, child, prior, target) == []
    ensures target != child && target != prior && !Subordinate(f, target) && ChildEdges(f, child) == {}
    ensures LinksOf(f, child) == {} && !Differ(f.rfcs[child].customer, f.rfcs[target].customer)
  {
  }

  lemma MoveMoves(f: Forest, edge: Id, child: Id, target: Id, newEdge: Id)
    requires Inv(f) && edge in f.edges && f.edges[edge].active && f.edges[edge].child == child
    requires newEdge !in f.edges && child in f.rfcs && target in f.rfcs
    requires Blockers(f, child, f.edges[edge].parent, target) == []
    ensures var h := OpenEdge(CloseEdge(f, edge), newEdge, target, child);
            && Moved(f, h, child, Some(target)) && Keeps(f, h) && !Subordinate(h, target)
  {
    hide Moved;
    CloseMoves(f, edge);
    var g := CloseEdge(f, edge);
    assert edge in ParentEdges(f, child);
    MoveKeeps(f, edge, child, target, newEdge);
    OpenMoves(g, newEdge, target, child);
    MovedTransitive(f, g, OpenEdge(g, newEdge, target, child), child, None, Some(target));
    var h := OpenEdge(g, newEdge, target, child);
    HasParentOf(h, newEdge);
    ParentUnique(h, newEdge);
  }

  lemma BumpKeepsRoots(f: Forest, ids: set<Id>, rfc: Id)
    ensures Subordinate(Bump(f, ids), rfc) == Subordinate(f, rfc)
  {
    assert ParentEdges(Bump(f, ids), rfc) == ParentEdges(f, rfc);
  }

  /** The row changes of a reparent, once reviewed without a blocker. */
  function MovedRows(f: Forest, p: Preview, child: Id, target: Id, e: Id): Forest
    requires p.oldEdge in f.edges
  {
    Bump(OpenEdge(CloseEdge(f, p.oldEdge), e, target, child), {p.oldParent, child, target})
  }

  lemma MovedRowsSound(f: Forest, p: Preview, child: Id, target: Id, e: Id)
    requires Inv(f) && e !in f.edges && child in f.rfcs && target in f.rfcs && p.oldParent in f.rfcs
    requires p.oldEdge in f.edges && f.edges[p.oldEdge] == Edge(p.oldParent, child, true)
    requires Blockers(f, child, p.oldParent, target) == []
    ensures Moved(f, MovedRows(f, p, child, target, e), child, Some(target))
    ensures ViewBranch(MovedRows(f, p, child, target, e), target).Ok?
    ensures ParentOf(f, child) == Some(p.oldParent) && p.oldParent != target
    ensures !Subordinate(f, target) && |{p.oldParent, child, target}| == 3
    ensures forall id :: id in {p.oldParent, child, target} ==>
              MovedRows(f, p, child, target, e).rfcs[id].revision == f.rfcs[id].revision + 1
  {
    hide Inv, Moved, ViewBranch, Grows, Blockers;
    BlockersMean(f, child, p.oldParent, target);
    ParentUnique(f, p.oldEdge);
    assert p.oldParent != child by { NoSelfParent(f, p.oldEdge); }
    MoveMoves(f, p.oldEdge, child, target, e);
    var h, ids := OpenEdge(CloseEdge(f, p.oldEdge), e, target, child), {p.oldParent, child, target};
    BumpMoves(f, h, ids, child, Some(target));
    BumpKeeps(f, h, ids);
    BumpKeepsRoots(h, ids, target);
    ViewSound(Bump(h, ids), target);
  }

  lemma NoSelfParent(f: Forest, e: Id)
    requires Inv(f) && e in f.edges && f.edges[e].active
    ensures f.edges[e].parent != f.edges[e].child
  {
  }

  /** Reparent moves exactly the named child, to exactly the named root, and never meets corruption. */
  lemma ReparentMoves(f: Forest, child: Id, target: Id, base: map<Id, nat>, history: History, review: Option<Review>,
                      e: Id)
    requires Inv(f) && e !in f.edges
    ensures var s := Reparent(f, child, target, base, history, review, e);
            && s.result != Err(Persistence)
            && (s.result.Ok? ==>
                  && ParentOf(f, child).Some? && ParentOf(f, child) != Some(target) && !Subordinate(f, target)
                  && Moved(f, s.after, child, Some(target))
                  && base.Keys == {ParentOf(f, child).value, child, target}
                  && (forall id :: id in base ==> id in f.rfcs && s.after.rfcs[id].revision == base[id] + 1))
  {
    hide Inv, Moved, ViewBranch, EvaluateDetach, Evaluate, PositiveRevisions, Subordinate, ParentOf, Bump, OpenEdge,
         CloseEdge;
    EvaluateSound(f, child, history);
    EvaluateMoveSound(f, child, target, history);
    var p := Evaluate(f, child, Some(target), history);
    if p.Ok? && ReviewFault(p.value, base, history, review).None? {
      MovedRowsSound(f, p.value, child, target, e);
      var s := Reparent(f, child, target, base, history, review, e);
      assert s.result.Ok? ==> s.after == MovedRows(f, p.value, child, target, e);
    }
  }

  /** Detach removes exactly the named child's parent and never meets corruption. */
  lemma DetachDetaches(f: Forest, child: Id, base: map<Id, nat>, history: History, review: Option<Review>)
    requires Inv(f)
    ensures var s := Detach(f, child, base, history, review);
            && s.result != Err(Persistence)
            && (s.result.Ok? ==>
                  && ParentOf(f, child).Some? && Moved(f, s.after, child, None)
                  && base.Keys == {ParentOf(f, child).value, child}
                  && (forall id :: id in base ==> id in f.rfcs && s.after.rfcs[id].revision == base[id] + 1))
  {
    hide Inv, Moved, ViewBranch, EvaluateDetach, Grows, PositiveRevisions;
    EvaluateSound(f, child, history);
    var p := EvaluateDetach(f, child, history);
    assert Evaluate(f, child, None, history) == p;
    if p.Ok? && ReviewFault(p.value, base, history, review).None? {
      var edge := p.value.oldEdge;
      ParentUnique(f, edge);
      CloseMoves(f, edge);
      CloseEdgeKeeps(f, edge);
      var h, ids := CloseEdge(f, edge), {p.value.oldParent, child};
      BumpMoves(f, h, ids, child, None);
      BumpKeeps(f, h, ids);
      BumpKeepsRoots(h, ids, child);
      ViewSound(Bump(h, ids), child);
    }
  }

  /** Detaching what was just attached restores the parent relation. */
  lemma DetachUndoesAdd(f: Forest, parent: Id, child: Id, base: map<Id, nat>, e: Id, again: map<Id, nat>,
                        history: History, review: Option<Review>)
    requires Inv(f) && e !in f.edges
    requires AddSubordinate(f, parent, child, base, e).result.Ok?
    requires AddSubordinate(f, parent, child, base, e).result.value.0 == Applied
    requires var g := AddSubordinate(f, parent, child, base, e).after;
             Detach(g, child, again, history, review).result.Ok?
    ensures var g := AddSubordinate(f, parent, child, base, e).after;
            var h := Detach(g, child, again, history, review).after;
            forall c: Id, p: Id :: HasParent(h, c, p) <==> HasParent(f, c, p)
  {
    hide Inv, AddSubordinate, Detach, HasParent;
    AddAttaches(f, parent, child, base, e);
    AddKeeps(f, parent, child, base, e);
    var g := AddSubordinate(f, parent, child, base, e).after;
    DetachDetaches(g, child, again, history, review);
    NoParent(f, child);
  }

  /** Moving a child away and back restores the parent relation. */
  lemma ReparentBackRestores(f: Forest, child: Id, target: Id, base: map<Id, nat>, history: History,
                             review: Option<Review>, e: Id, again: map<Id, nat>, review2: Option<Review>, e2: Id)
    requires Inv(f) && e !in f.edges
    requires Reparent(f, child, target, base, history, review, e).result.Ok?
    requires var g := Reparent(f, child, target, base, history, review, e).after;
             && e2 !in g.edges && ParentOf(f, child).Some?
             && Reparent(g, child, ParentOf(f, child).value, again, history, review2, e2).result.Ok?
    ensures var g := Reparent(f, child, target, base, history, review, e).after;
            var h := Reparent(g, child, ParentOf(f, child).value, again, history, review2, e2).after;
            forall c: Id, p: Id :: HasParent(h, c, p) <==> HasParent(f, c, p)
  {
    hide Inv, Reparent, HasParent;
    ReparentMoves(f, child, target, base, history, review, e);
    ReparentKeeps(f, child, target, base, history, review, e);
    var g := Reparent(f, child, target, base, history, review, e).after;
    ReparentMoves(g, child, ParentOf(f, child).value, again, history, review2, e2);
    forall p: Id
      ensures HasParent(f, child, p) <==> ParentOf(f, child) == Some(p)
    {
      ParentOfIff(f, child, p);
    }
  }

  /* ---- Optimistic concurrency ---- */

  /** The command was prepared against revision `rev` of this RFC. */
  predicate Expects(op: Op, id: Id, rev: nat) {
    match op
    case DoAdd(_, _, base, _) => id in base && base[id] == rev
    case DoReparent(_, _, base, _, _, _) => id in base && base[id] == rev
    case DoDetach(_, base, _, _) => id in base && base[id] == rev
    case DoLink(_, rfc, _, rfcBase, _, _, _, _) => rfc == id && rfcBase == rev
    case DoUnlink(_, rfc, _, rfcBase) => rfc == id && rfcBase == rev
    case DoSetCustomer(rfc, revision, _) => rfc == id && revision == rev
    case DoImportCustomer(_, _, _, token) => token.CustomerBase? && token.rfc == id && token.row.revision == rev
    case DoImportLink(_, _, token, _, _) => token.LinkBase? && token.root == id && token.rootRow.revision == rev
    case _ => false
  }

  lemma StaleBaseRefused(f: Forest, op: Op, id: Id, rev: nat)
    requires Inv(f) && id in f.rfcs && rev < f.rfcs[id].revision && Expects(op, id, rev)
    ensures Apply(f, op) == f
  {
    hide Inv, ViewBranch, OneCustomer, BranchRefuses, GoverningRoot, Branch, Evaluate, PositiveRevisions, Detach,
         Reparent, Bump;
    match op
    case DoReparent(child, target, base, history, review, e) =>
      StaleReparentRefused(f, child, target, base, history, review, e, id);
    case DoDetach(child, base, history, review) => StaleDetachRefused(f, child, base, history, review, id);
    case _ =>
  }

  lemma StaleReparentRefused(f: Forest, child: Id, target: Id, base: map<Id, nat>, history: History,
                             review: Option<Review>, e: Id, id: Id)
    requires Inv(f) && id in f.rfcs && id in base && base[id] < f.rfcs[id].revision
    ensures Reparent(f, child, target, base, history, review, e).after == f
  {
    hide Inv, Evaluate, EvaluateDetach, PositiveRevisions, Bump, Respond;
    EvaluateMoveSound(f, child, target, history);
  }

  lemma StaleDetachRefused(f: Forest, child: Id, base: map<Id, nat>, history: History, review: Option<Review>, id: Id)
    requires Inv(f) && id in f.rfcs && id in base && base[id] < f.rfcs[id].revision
    ensures Detach(f, child, base, history, review).after == f
  {
    hide Inv, EvaluateDetach, PositiveRevisions, Bump, Respond;
    EvaluateSound(f, child, history);
  }

  /**
   No lost update: once a participating RFC has moved past the revision a command was prepared against, that
   command changes nothing, however many other commands ran in between.
   */
  lemma StaleCommandsChangeNothing(f: Forest, between: seq<Op>, op: Op, id: Id, rev: nat)
    requires Inv(f) && id in f.rfcs && rev < f.rfcs[id].revision && Expects(op, id, rev)
    ensures Apply(Run(f, between), op) == Run(f, between)
  {
    hide Inv, Run, Apply, Expects;
    RunKeeps(f, between);
    StaleBaseRefused(Run(f, between), op, id, rev);
  }

  /** A reparent accepted under a review sees exactly the branches, the edge and the history that were reviewed. */
  lemma ReviewedReparentUnchanged(f: Forest, g: Forest, child: Id, target: Id, base: map<Id, nat>, seen: History,
                                  history: History, e: Id)
    requires Inv(f) && Inv(g) && Evaluate(f, child, Some(target), seen).Ok?
    requires var p := Evaluate(f, child, Some(target), seen).value;
             Reparent(g, child, target, base, history, Some(p.review), e).result.Ok?
    ensures seen == history && history.Ready?
    ensures ParentOf(g, child) == ParentOf(f, child) && ParentOf(f, child).Some?
    ensures ViewBranch(g, ParentOf(f, child).value) == ViewBranch(f, ParentOf(f, child).value)
    ensures ViewBranch(g, target) == ViewBranch(f, target)
    ensures Evaluate(f, child, Some(target), seen).value.blockers == []
  {
    hide Inv, ViewBranch, PositiveRevisions, Blockers;
    EvaluateSound(f, child, seen);
    EvaluateSound(g, child, history);
    EvaluateMoveSound(f, child, target, seen);
    EvaluateMoveSound(g, child, target, history);
    var p, q := Evaluate(f, child, Some(target), seen).value, Evaluate(g, child, Some(target), history).value;
    ParentUnique(f, p.oldEdge);
    ParentUnique(g, q.oldEdge);
    BlockersMean(g, child, q.oldParent, target);
    ReviewedBlockers(f, child, p.oldParent, target);
  }

  lemma ReviewedBlockers(f: Forest, child: Id, prior: Id, target: Id)
    requires child in f.rfcs && target in f.rfcs && Blockers(f, child, prior, target) == []
    ensures RootForPreview(f, target) == Ok(target)
  {
  }

  /** A link accepted from an import review sees exactly the reviewed Service Request, root, branch and lifecycle. */
  lemma ReviewedLinkUnchanged(f: Forest, g: Forest, sr: Id, requested: Id, seen: Id -> RfcLife, life: Id -> RfcLife,
                              k: Id)
    requires LinkCandidate(f, sr, requested, seen).Ok?
    requires var c := LinkCandidate(f, sr, requested, seen).value;
             LinkSrFromReview(g, sr, requested, c.token, life, k).result.Ok?
    ensures GoverningRoot(g, requested) == GoverningRoot(f, requested) && GoverningRoot(f, requested).Ok?
    ensures var root := GoverningRoot(f, requested).value;
            && sr in f.srs && sr in g.srs && g.srs[sr] == f.srs[sr]
            && root in f.rfcs && root in g.rfcs && g.rfcs[root] == f.rfcs[root] && life(root) == seen(root)
            && Branch(g, root) == Branch(f, root) && LinksBetween(f, sr, root) == {} && LinksBetween(g, sr, root) == {}
            && (forall id :: id in Branch(f, root) ==>
                  g.rfcs[id].customer == f.rfcs[id].customer && g.rfcs[id].revision == f.rfcs[id].revision)
  {
    hide GoverningRoot, OneCustomer, Branch, Ascending, BranchRows;
    var root := GoverningRoot(f, requested).value;
    SameRows(f, g, Branch(f, root), Branch(g, root));
  }

  lemma SameRows(f: Forest, g: Forest, a: set<Id>, b: set<Id>)
    requires a <= f.rfcs.Keys && b <= g.rfcs.Keys
    requires BranchRows(f, Ascending(a)) == BranchRows(g, Ascending(b))
    ensures a == b
    ensures forall id :: id in a ==> g.rfcs[id].customer == f.rfcs[id].customer && g.rfcs[id].revision == f.rfcs[id].revision
  {
    var p, q := Ascending(a), Ascending(b);
    SameRowsOf(f, g, p, q);
    assert forall id :: id in a <==> id in p;
    assert forall id :: id in b <==> id in q;
  }

  lemma SameRowsOf(f: Forest, g: Forest, p: seq<Id>, q: seq<Id>)
    requires (forall id :: id in p ==> id in f.rfcs) && (forall id :: id in q ==> id in g.rfcs)
    requires BranchRows(f, p) == BranchRows(g, q)
    ensures p == q
    ensures forall id :: id in p ==> g.rfcs[id].customer == f.rfcs[id].customer && g.rfcs[id].revision == f.rfcs[id].revision
  {
    assert |p| == |BranchRows(f, p)| == |q|;
    forall i | 0 <= i < |p|
      ensures p[i] == q[i] && g.rfcs[p[i]].customer == f.rfcs[p[i]].customer
      ensures g.rfcs[p[i]].revision == f.rfcs[p[i]].revision
    {
      assert BranchRows(f, p)[i] == BranchRows(g, q)[i];
      assert p[i] in p && q[i] in q;
    }
  }

  /* ---- Links ---- */

  predicate Linked(f: Forest, sr: Id, rfc: Id) {
    exists k :: k in f.links && f.links[k].active && f.links[k].sr == sr && f.links[k].rfc == rfc
  }

  lemma LinkedIff(f: Forest, sr: Id, rfc: Id)
    ensures Linked(f, sr, rfc) <==> LinksBetween(f, sr, rfc) != {}
  {
    if k :| k in f.links && f.links[k].active && f.links[k].sr == sr && f.links[k].rfc == rfc {
      assert k in LinksBetween(f, sr, rfc);
    }
  }

  lemma OpenLinkLinks(f: Forest, k: Id, sr: Id, rfc: Id)
    requires k !in f.links
    ensures forall s: Id, r: Id :: Linked(OpenLink(f, k, sr, rfc), s, r) <==> Linked(f, s, r) || (s == sr && r == rfc)
  {
    var g := OpenLink(f, k, sr, rfc);
    forall s: Id, r: Id
      ensures Linked(g, s, r) <==> Linked(f, s, r) || (s == sr && r == rfc)
    {
      assert k in g.links;
      if Linked(f, s, r) {
        var l :| l in f.links && f.links[l].active && f.links[l].sr == s && f.links[l].rfc == r;
        assert g.links[l] == f.links[l];
      }
    }
  }

  lemma CloseLinkUnlinks(f: Forest, k: Id)
    requires LinksOk(f) && k in f.links && f.links[k].active
    ensures forall s: Id, r: Id :: Linked(CloseLink(f, k), s, r) <==>
                           Linked(f, s, r) && (s != f.links[k].sr || r != f.links[k].rfc)
  {
    var g := CloseLink(f, k);
    forall s: Id, r: Id
      ensures Linked(g, s, r) <==> Linked(f, s, r) && (s != f.links[k].sr || r != f.links[k].rfc)
    {
      if Linked(f, s, r) && (s != f.links[k].sr || r != f.links[k].rfc) {
        var l :| l in f.links && f.links[l].active && f.links[l].sr == s && f.links[l].rfc == r;
        assert g.links[l] == f.links[l];
      }
    }
  }

  /** A Service Request linked to a root and unlinked from it again: every pair is as before. */
  lemma UnlinkUndoesLink(f: Forest, sr: Id, rfc: Id, srBase: nat, rfcBase: nat, origin: Option<Id>,
                         review: Option<LinkReview>, life: RfcLife, k: Id)
    requires Inv(f)
    requires LinkSr(f, sr, rfc, srBase, rfcBase, origin, review, life, k).result == Ok(Applied)
    ensures var g := LinkSr(f, sr, rfc, srBase, rfcBase, origin, review, life, k).after;
            var u := UnlinkSr(g, sr, rfc, srBase + 1, rfcBase + 1);
            && Linked(g, sr, rfc) && !Linked(f, sr, rfc)
            && u.result == Ok(Applied)
            && (forall s: Id, r: Id :: Linked(u.after, s, r) <==> Linked(f, s, r))
  {
    hide Inv, OneCustomer, Linked;
    var g := LinkSr(f, sr, rfc, srBase, rfcBase, origin, review, life, k).after;
    LinkKeeps(f, sr, rfc, srBase, rfcBase, origin, review, life, k);
    var h := OpenLink(f, k, sr, rfc);
    assert ParentEdges(g, rfc) == ParentEdges(f, rfc);
    LinkedIff(f, sr, rfc);
    LinkedIff(g, sr, rfc);
    OpenLinkLinks(f, k, sr, rfc);
    SameLinks(h, g);
    var l := First(LinksBetween(g, sr, rfc)).value;
    assert k in LinksBetween(g, sr, rfc);
    assert Inv(g);
    LinksStayOk(g);
    CloseLinkUnlinks(g, l);
    SameLinks(CloseLink(g, l), UnlinkSr(g, sr, rfc, srBase + 1, rfcBase + 1).after);
  }

  lemma LinksStayOk(f: Forest)
    requires Inv(f)
    ensures LinksOk(f)
  {
  }

  lemma SameLinks(f: Forest, g: Forest)
    requires g.links == f.links
    ensures forall s: Id, r: Id :: Linked(g, s, r) == Linked(f, s, r)
  {
  }
}
