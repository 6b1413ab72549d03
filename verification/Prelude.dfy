/** Shared vocabulary: identifiers, optional and fallible values, ordered scans of a table's keys. */
module Prelude {

  /** A UUID. Only equality and the order of the canonical texts matter, so a number stands for one. */
  type Id = nat

  datatype Option<+T> = None | Some(value: T)

  datatype Result<+T, +E> = Ok(value: T) | Err(error: E)

  function Max(a: int, b: int): int {
    if a >= b then a else b
  }

  predicate LowerBound(m: Id, s: set<Id>) {
    forall x :: x in s ==> m <= x
  }

  lemma {:induction false} MinimumExists(s: set<Id>)
    requires s != {}
    ensures exists m :: m in s && LowerBound(m, s)
    decreases |s|
  {
    var e :| e in s;
    var rest := s - {e};
    if rest == {} {
      assert s == {e};
      assert LowerBound(e, s);
    } else {
      MinimumExists(rest);
      var m :| m in rest && LowerBound(m, rest);
      var least := if e < m then e else m;
      forall x | x in s
        ensures least <= x
      {
        assert x == e || x in rest;
      }
      assert least in s && LowerBound(least, s);
    }
  }

  function Minimum(s: set<Id>): (m: Id)
    requires s != {}
    ensures m in s && forall x :: x in s ==> m <= x
  {
    MinimumExists(s);
    var m :| m in s && LowerBound(m, s);
    m
  }

  /** The keys of a result set in ascending order, as `ORDER BY id` delivers them. */
  function Ascending(s: set<Id>): (ids: seq<Id>)
    ensures forall x :: x in ids <==> x in s
    ensures |ids| == |s|
    ensures forall i, j :: 0 <= i < j < |ids| ==> ids[i] < ids[j]
  {
    if s == {} then [] else
    var m := Minimum(s);
    var rest := Ascending(s - {m});
    PrependLeast(s, m, rest);
    [m] + rest
  }

  lemma PrependLeast(s: set<Id>, m: Id, rest: seq<Id>)
    requires m in s && (forall x :: x in s ==> m <= x) && forall x :: x in rest <==> x in s - {m}
    requires forall i, j :: 0 <= i < j < |rest| ==> rest[i] < rest[j]
    ensures forall x :: x in [m] + rest <==> x in s
    ensures forall i, j :: 0 <= i < j < |[m] + rest| ==> ([m] + rest)[i] < ([m] + rest)[j]
  {
    forall i | 0 <= i < |rest|
      ensures m < rest[i]
    {
      assert rest[i] in rest;
    }
  }

  /** Two places of one arrangement are two different places of any other arrangement of the same elements. */
  lemma PermutedPair<T>(a: seq<T>, b: seq<T>, i: nat, j: nat) returns (k: nat, l: nat)
    requires multiset(a) == multiset(b) && i < j < |b|
    ensures k < |a| && l < |a| && k != l && a[k] == b[i] && a[l] == b[j]
  {
    RemoveOne(b, i);
    assert b[i] in multiset(a);
    k :| k < |a| && a[k] == b[i];
    RemoveOne(a, k);
    var rest := a[..k] + a[k + 1..];
    var others := b[..i] + b[i + 1..];
    assert others[j - 1] == b[j];
    assert b[j] in multiset(others);
    assert b[j] in multiset(rest);
    var n :| 0 <= n < |rest| && rest[n] == b[j];
    l := if n < k then n else n + 1;
  }

  lemma RemoveOne<T>(s: seq<T>, i: nat)
    requires i < |s|
    ensures multiset(s[..i] + s[i + 1..]) == multiset(s) - multiset{s[i]} && s[i] in multiset(s)
  {
    assert s == s[..i] + [s[i]] + s[i + 1..];
  }

  /** UTF-8 length of a text, the measure behind every byte bound in the system. */
  function Utf8Length(s: string): nat {
    if s == "" then 0 else
    var c := s[0] as int;
    (if c < 0x80 then 1 else if c < 0x800 then 2 else if c < 0x1_0000 then 3 else 4) + Utf8Length(s[1..])
  }
}
