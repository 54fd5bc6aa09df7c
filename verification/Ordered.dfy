/** Ascending iteration over finite key sets, as `std::map` and `std::sort` followed by
    `std::unique` present them. */
module Ordered {

  ghost predicate StrictlySorted(s: seq<nat>) {
    forall i, j :: 0 <= i < j < |s| ==> s[i] < s[j]
  }

  lemma {:induction false} SubsetSize<T>(small: set<T>, big: set<T>)
    requires small <= big
    ensures |small| <= |big|
    decreases small
  {
    if small != {} {
      var x :| x in small;
      SubsetSize(small - {x}, big - {x});
    }
  }

  lemma {:induction false} MinBelow(s: set<nat>, b: nat)
    requires b in s
    ensures exists m :: m in s && forall x | x in s :: m <= x
    decreases b
  {
    if x :| x in s && x < b {
      MinBelow(s, x);
    } else {
      assert forall x | x in s :: b <= x;
    }
  }

  function Min(s: set<nat>): (m: nat)
    requires s != {}
    ensures m in s && forall x | x in s :: m <= x
  {
    var b :| b in s;
    MinBelow(s, b);
    var m :| m in s && forall x | x in s :: m <= x;
    m
  }

  lemma SortedCons(m: nat, rest: seq<nat>)
    requires StrictlySorted(rest) && forall x | x in rest :: m < x
    ensures StrictlySorted([m] + rest)
  {
    forall j | 0 <= j < |rest| ensures m < rest[j] { assert rest[j] in rest; }
  }

  lemma Split(s: set<nat>, m: nat)
    requires m in s
    ensures |s| == 1 + |s - {m}|
  {
    assert s == {m} + (s - {m});
  }

  /** The elements of `s` in increasing order. */
  function Ascending(s: set<nat>): (r: seq<nat>)
    ensures |r| == |s|
    ensures forall x :: x in r <==> x in s
    ensures StrictlySorted(r)
    decreases |s|
  {
    if s == {} then []
    else
      var m := Min(s);
      Split(s, m);
      var rest := Ascending(s - {m});
      SortedCons(m, rest);
      [m] + rest
  }

  /** Sum of the values of a map. */
  function Total(m: map<nat, nat>): nat {
    if m == map[] then 0 else var k := Min(m.Keys); m[k] + Total(m - {k})
  }

  lemma {:induction false} TotalWithout(m: map<nat, nat>, k: nat)
    requires k in m
    ensures Total(m) == m[k] + Total(m - {k})
    decreases |m|
  {
    var first := Min(m.Keys);
    if k != first {
      TotalWithout(m - {first}, k);
      TotalWithout(m - {k}, first);
      assert m - {first} - {k} == m - {k} - {first};
    }
  }

  lemma TotalUpdate(m: map<nat, nat>, k: nat, v: nat)
    ensures Total(m[k := v]) + (if k in m then m[k] else 0) == Total(m) + v
  {
    TotalWithout(m[k := v], k);
    assert m[k := v] - {k} == m - {k};
    if k in m { TotalWithout(m, k); } else { assert m - {k} == m; }
  }

  lemma TotalSet(m: map<nat, nat>, after: map<nat, nat>, k: nat, v: nat)
    requires after == m[k := v]
    ensures Total(after) + (if k in m then m[k] else 0) == Total(m) + v
  {
    TotalUpdate(m, k, v);
  }

  lemma OneAscending(x: nat)
    ensures Ascending({x}) == [x]
  {
    assert {x} - {x} == {};
  }

  lemma TwoAscending(x: nat, y: nat)
    requires x < y
    ensures Ascending({x, y}) == [x, y]
  {
    assert {x, y} - {x} == {y};
    OneAscending(y);
  }
}
