/** `sorted()` over a set of numbers. */
module Ordering {
  predicate Increasing(r: seq<nat>) { forall i, j | 0 <= i < j < |r| :: r[i] < r[j] }

  lemma LeastExists(s: set<nat>)
    requires s != {}
    ensures exists m :: m in s && forall x :: x in s ==> m <= x
  {
    var m :| m in s;
    while exists x :: x in s && x < m
      invariant m in s
      decreases m
    {
      var smaller :| smaller in s && smaller < m;
      m := smaller;
    }
  }

  function Least(s: set<nat>): (m: nat)
    requires s != {}
    ensures m in s && forall x :: x in s ==> m <= x
  {
    LeastExists(s);
    var m :| m in s && forall x | x in s :: m <= x;
    m
  }

  /** The members of a set in ascending order. */
  function Ascending(s: set<nat>): (r: seq<nat>)
    ensures |r| == |s| && Increasing(r)
    ensures forall x :: x in r <==> x in s
  {
    if s == {} then []
    else
      var m := Least(s);
      var rest := Ascending(s - {m});
      assert forall x :: x in rest ==> m < x;
      [m] + rest
  }

  /** There is one ascending order. */
  lemma {:induction false} AscendingIsUnique(a: seq<nat>, b: seq<nat>)
    requires |a| == |b| && Increasing(a) && Increasing(b) && forall x :: x in a <==> x in b
    ensures a == b
  {
    if a != [] {
      assert a[0] in b;
      assert b[0] in a;
      assert a[0] == b[0];
      forall x
        ensures x in a[1..] <==> x in b[1..]
      {
        TailMembers(a, x);
        TailMembers(b, x);
      }
      AscendingIsUnique(a[1..], b[1..]);
      assert a == [a[0]] + a[1..] && b == [b[0]] + b[1..];
    }
  }

  lemma TailMembers(a: seq<nat>, x: nat)
    requires Increasing(a) && a != []
    ensures x in a[1..] <==> x in a && x != a[0]
  {
    assert a == [a[0]] + a[1..];
  }

  lemma {:induction false} IncreasingSize(a: seq<nat>, s: set<nat>)
    requires Increasing(a) && forall x :: x in a <==> x in s
    ensures |s| == |a|
  {
    if a == [] {
      assert s == {};
    } else {
      forall x
        ensures x in a[1..] <==> x in s - {a[0]}
      {
        TailMembers(a, x);
      }
      IncreasingSize(a[1..], s - {a[0]});
    }
  }
}
