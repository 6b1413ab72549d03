/** The captured scope: WFM normalisation does not depend on the order the Task domain answers in. */
module RfcCascadeScope {
  import opened Prelude
  import F = RfcForest
  import Forest = RfcForestSafety
  import opened RfcCascade

  predicate InOrder(s: seq<WfmMember>) {
    forall i, j :: 0 <= i < j < |s| ==> !Before(s[j], s[i])
  }

  lemma {:induction false} InsertedMembers(m: WfmMember, s: seq<WfmMember>)
    ensures multiset(InsertSorted(m, s)) == multiset(s) + multiset{m}
    decreases |s|
  {
    if s != [] && !Before(m, s[0]) {
      assert s == [s[0]] + s[1..];
      InsertedMembers(m, s[1..]);
    }
  }

  lemma {:induction false} InsertSortedSound(m: WfmMember, s: seq<WfmMember>)
    requires InOrder(s)
    ensures InOrder(InsertSorted(m, s))
    decreases |s|
  {
    if s == [] || Before(m, s[0]) {
      FirstStaysFirst(m, s);
    } else {
      InsertSortedSound(m, s[1..]);
      InsertedMembers(m, s[1..]);
      PrependInOrder(s, m, InsertSorted(m, s[1..]));
    }
  }

  lemma FirstStaysFirst(m: WfmMember, s: seq<WfmMember>)
    requires InOrder(s) && (s == [] || Before(m, s[0]))
    ensures InOrder([m] + s)
  {
    forall j | 0 <= j < |s|
      ensures !Before(s[j], m)
    {
      assert j > 0 ==> !Before(s[j], s[0]);
    }
  }

  lemma PrependInOrder(s: seq<WfmMember>, m: WfmMember, rest: seq<WfmMember>)
    requires s != [] && InOrder(s) && InOrder(rest) && !Before(m, s[0])
    requires multiset(rest) == multiset(s[1..]) + multiset{m}
    ensures InOrder([s[0]] + rest)
  {
    forall j | 0 <= j < |rest|
      ensures !Before(rest[j], s[0])
    {
      assert rest[j] in multiset(rest);
      assert rest[j] == m || rest[j] in s[1..];
    }
  }

  lemma {:induction false} SortedSound(raw: seq<WfmMember>)
    ensures InOrder(Sorted(raw)) && multiset(Sorted(raw)) == multiset(raw)
    decreases |raw|
  {
    if raw != [] {
      var n := |raw| - 1;
      SortedSound(raw[..n]);
      InsertSortedSound(raw[n], Sorted(raw[..n]));
      InsertedMembers(raw[n], Sorted(raw[..n]));
      assert raw == raw[..n] + [raw[n]];
    }
  }

  predicate Distinct(s: seq<WfmMember>) {
    forall i, j :: 0 <= i < j < |s| ==> s[i].task != s[j].task && s[i].number != s[j].number
  }

  lemma DistinctPermutes(a: seq<WfmMember>, b: seq<WfmMember>)
    requires multiset(a) == multiset(b) && Distinct(a)
    ensures Distinct(b)
  {
    forall i, j | 0 <= i < j < |b|
      ensures b[i].task != b[j].task && b[i].number != b[j].number
    {
      var k, l := PermutedPair(a, b, i, j);
    }
  }

  lemma CapturablePermutes(a: seq<WfmMember>, b: seq<WfmMember>, allowed: set<Id>)
    requires multiset(a) == multiset(b) && Capturable(a, allowed)
    ensures Capturable(b, allowed)
  {
    assert Distinct(a);
    DistinctPermutes(a, b);
    forall i | 0 <= i < |b|
      ensures MemberOk(b[i], allowed)
    {
      assert b[i] in multiset(b);
      assert b[i] in a;
    }
  }

  lemma HeadsEqual(a: seq<WfmMember>, b: seq<WfmMember>)
    requires InOrder(a) && InOrder(b) && Distinct(b) && multiset(a) == multiset(b) && a != [] && b != []
    ensures a[0] == b[0]
  {
    assert a[0] in multiset(b) && b[0] in multiset(a);
    var i :| 0 <= i < |b| && b[i] == a[0];
    var j :| 0 <= j < |a| && a[j] == b[0];
  }

  lemma Tail(a: seq<WfmMember>)
    requires a != [] && InOrder(a) && Distinct(a)
    ensures InOrder(a[1..]) && Distinct(a[1..]) && multiset(a[1..]) == multiset(a) - multiset{a[0]}
  {
    assert a == [a[0]] + a[1..];
  }

  /** Two ordered arrangements of the same distinct members are equal. */
  lemma {:induction false} OrderUnique(a: seq<WfmMember>, b: seq<WfmMember>)
    requires InOrder(a) && InOrder(b) && Distinct(a) && multiset(a) == multiset(b)
    ensures a == b
    decreases |a|
  {
    assert |a| == |multiset(a)| == |multiset(b)| == |b|;
    if a != [] {
      DistinctPermutes(a, b);
      HeadsEqual(a, b);
      Tail(a);
      Tail(b);
      OrderUnique(a[1..], b[1..]);
      assert a == [a[0]] + a[1..] && b == [b[0]] + b[1..];
    }
  }

  /** The Task domain may answer in any order: the normalised members, and so the fingerprint, are the same. */
  lemma NormalizeOrderInsensitive(a: seq<WfmMember>, b: seq<WfmMember>, allowed: set<Id>)
    requires multiset(a) == multiset(b)
    ensures Normalize(a, allowed) == Normalize(b, allowed)
  {
    SortedSound(a);
    SortedSound(b);
    if Capturable(a, allowed) {
      CapturablePermutes(a, b, allowed);
      DistinctPermutes(a, Sorted(a));
      OrderUnique(Sorted(a), Sorted(b));
    } else if Capturable(b, allowed) {
      CapturablePermutes(b, a, allowed);
    }
  }

  /** What capture stores re-reads as itself: normalisation is idempotent, and keeps exactly the raw members. */
  lemma NormalizeIdempotent(raw: seq<WfmMember>, allowed: set<Id>)
    requires Normalize(raw, allowed).Ok?
    ensures var s := Normalize(raw, allowed).value;
            Normalize(s, allowed) == Ok(s) && multiset(s) == multiset(raw) && InOrder(s)
  {
    SortedSound(raw);
    NormalizeOrderInsensitive(raw, Sorted(raw), allowed);
  }

  /** The capture of an unchanged hierarchy does not depend on how the Task domain orders its answer. */
  lemma CaptureOrderInsensitive(f: F.Forest, c: Cascade, trigger: Id, epoch: Id, status: StatusClass, evidence: Id,
                                tasks: Tasks, shuffled: Tasks)
    requires forall ids :: tasks(ids).Some? == shuffled(ids).Some?
    requires forall ids :: tasks(ids).Some? ==> multiset(tasks(ids).value) == multiset(shuffled(ids).value)
    ensures CaptureScope(f, c, trigger, epoch, status, evidence, tasks)
         == CaptureScope(f, c, trigger, epoch, status, evidence, shuffled)
  {
    hide Normalize, IdSet;
    var scope := CaptureRfcs(f, trigger);
    if scope.Ok? {
      var ids := MemberIds(scope.value.members);
      if tasks(ids).Some? {
        NormalizeOrderInsensitive(tasks(ids).value, shuffled(ids).value, IdSet(scope.value.members));
      }
    }
  }

  lemma CaptureRfcsShape(f: F.Forest, trigger: Id, p: Proposal)
    requires CaptureRfcs(f, trigger).Ok? && p.trigger == trigger
    requires p.kind == CaptureRfcs(f, trigger).value.kind && p.rfcs == CaptureRfcs(f, trigger).value.members
    ensures MembersOk(p) && trigger in IdSet(p.rfcs)
  {
    hide Ascending, IdSet, F.ParentOf, MembersOk, F.Children, F.ChildEdges;
    var ids := Ascending(F.Children(f, trigger) * f.rfcs.Keys);
    if p.kind == RootBranch {
      RootShape(p, f, trigger, ids);
    } else {
      ExactShape(p);
    }
    HeadListed(p.rfcs);
  }

  lemma ExactShape(p: Proposal)
    requires p.kind == ExactRfc && |p.rfcs| == 1 && p.rfcs[0].rfc == p.trigger && p.rfcs[0].role == SubordinateRole
    ensures MembersOk(p)
  {
  }

  lemma RootShape(p: Proposal, f: F.Forest, trigger: Id, ids: seq<Id>)
    requires p.kind == RootBranch && p.trigger == trigger && trigger in f.rfcs
    requires (forall id :: id in ids ==> id in f.rfcs) && StrictlyAscending(ids)
    requires p.rfcs == [RfcMember(trigger, f.rfcs[trigger].revision, if ids == [] then Standalone else Root)]
                       + ChildMembers(f, ids)
    ensures MembersOk(p) && p.rfcs != [] && p.rfcs[0].rfc == trigger
  {
    ChildTail(p.rfcs[0], ChildMembers(f, ids), ids);
  }

  lemma HeadListed(ms: seq<RfcMember>)
    requires ms != []
    ensures ms[0].rfc in IdSet(ms)
  {
    assert ms[0] in ms;
  }

  lemma ChildTail(head: RfcMember, rest: seq<RfcMember>, ids: seq<Id>)
    requires |rest| == |ids| && forall i :: 0 <= i < |ids| ==> rest[i].rfc == ids[i]
    ensures MemberIds([head] + rest)[1..] == ids
  {
  }

  /** Every captured proposal passes the checks made when it is read back. */
  lemma CapturedSnapshotOk(f: F.Forest, c: Cascade, trigger: Id, epoch: Id, status: StatusClass, evidence: Id,
                           tasks: Tasks, id: Id, command: Id)
    requires CaptureScope(f, c, trigger, epoch, status, evidence, tasks).Ok?
    ensures var d := CaptureScope(f, c, trigger, epoch, status, evidence, tasks).value;
            SnapshotOk(NewProposal(id, d, command)) && trigger in IdSet(d.rfcs) && Terminal(status)
            && d.trigger == trigger && d.epoch == epoch && d.status == status && d.evidence == evidence
  {
    hide CaptureRfcs, Normalize, MembersOk, IdSet;
    var d := CaptureScope(f, c, trigger, epoch, status, evidence, tasks).value;
    CaptureRfcsShape(f, trigger, NewProposal(id, d, command));
    NormalizeIdempotent(tasks(MemberIds(d.rfcs)).value, IdSet(d.rfcs));
  }

  /** Reading the branch never finds corruption in a sound hierarchy. */
  lemma CaptureRfcsSound(f: F.Forest, trigger: Id)
    requires Forest.Inv(f) && trigger in f.rfcs
    ensures CaptureRfcs(f, trigger).Ok?
  {
    if F.ParentOf(f, trigger).Some? {
      var e := F.First(F.ParentEdges(f, trigger)).value;
      forall x | x in f.edges
        ensures x !in F.ChildEdges(f, trigger)
      {
        assert f.edges[e].active && f.edges[e].child == trigger;
      }
      assert F.Children(f, trigger) == {};
    } else {
      ChildrenCount(f, trigger, F.ChildEdges(f, trigger));
      assert F.Children(f, trigger) == ChildrenOf(f, F.ChildEdges(f, trigger));
    }
  }

  function ChildrenOf(f: F.Forest, es: set<Id>): set<Id>
    requires es <= f.edges.Keys
  {
    set e | e in es :: f.edges[e].child
  }

  lemma {:induction false} ChildrenCount(f: F.Forest, trigger: Id, es: set<Id>)
    requires Forest.Inv(f) && es <= F.ChildEdges(f, trigger)
    ensures |es| == |ChildrenOf(f, es)|
    decreases |es|
  {
    if es != {} {
      var e :| e in es;
      ChildrenCount(f, trigger, es - {e});
      assert f.edges[e].child !in ChildrenOf(f, es - {e});
      assert ChildrenOf(f, es) == ChildrenOf(f, es - {e}) + {f.edges[e].child};
    }
  }
}
