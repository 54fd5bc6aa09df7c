/** The turn ring: live members in address order, each handing the turn to the next. */
module TurnRing {
  import opened Ordered

  /** Sorted, deduplicated ring of the local node and its live peers. */
  function TurnMembers(local: nat, peers: seq<nat>): (members: seq<nat>)
    ensures local in members && StrictlySorted(members)
    ensures forall a :: a in members <==> a == local || a in peers
  {
    Ascending((set p | p in peers) + {local})
  }

  /** `std::find` from position `i`; the length when there is none. */
  function FindFrom(s: seq<nat>, x: nat, i: nat): (r: nat)
    requires i <= |s|
    ensures i <= r <= |s| && (r < |s| ==> s[r] == x)
    ensures forall j | i <= j < r :: s[j] != x
    decreases |s| - i
  {
    if i == |s| || s[i] == x then i else FindFrom(s, x, i + 1)
  }

  function IndexOf(s: seq<nat>, x: nat): (i: nat)
    requires x in s
    ensures i < |s| && s[i] == x
    ensures forall j :: 0 <= j < i ==> s[j] != x
  {
    FindFrom(s, x, 0)
  }

  /** `std::next` with wrap-around to the first member. */
  function Successor(members: seq<nat>, local: nat): (next: nat)
    requires local in members
    ensures next in members
  {
    var i := IndexOf(members, local);
    if i + 1 == |members| then members[0] else members[i + 1]
  }

  /** The holder after `k` handoffs starting at `from`. */
  function Handoff(members: seq<nat>, from: nat, k: nat): (holder: nat)
    requires from in members
    ensures holder in members
    decreases k
  {
    if k == 0 then from else Successor(members, Handoff(members, from, k - 1))
  }

  lemma {:induction false} HandoffAt(members: seq<nat>, i: nat, k: nat)
    requires StrictlySorted(members) && i < |members| && k <= |members|
    ensures Handoff(members, members[i], k) == members[if i + k < |members| then i + k else i + k - |members|]
    decreases k
  {
    if k > 0 {
      HandoffAt(members, i, k - 1);
    }
  }

  lemma RingVisits(members: seq<nat>, from: nat, b: nat) returns (k: nat)
    requires StrictlySorted(members) && from in members && b in members
    ensures k < |members| && Handoff(members, from, k) == b
  {
    var i, j := IndexOf(members, from), IndexOf(members, b);
    k := if j >= i then j - i else j + |members| - i;
    HandoffAt(members, i, k);
  }

  lemma RingDistinct(members: seq<nat>, from: nat, j: nat, k: nat)
    requires StrictlySorted(members) && from in members && j < k < |members|
    ensures Handoff(members, from, j) != Handoff(members, from, k)
  {
    var i := IndexOf(members, from);
    HandoffAt(members, i, j);
    HandoffAt(members, i, k);
  }

  ghost predicate VisitsAll(members: seq<nat>, from: nat)
    requires from in members
  {
    forall b | b in members :: exists k: nat :: k < |members| && Handoff(members, from, k) == b
  }

  ghost predicate VisitsNoneTwice(members: seq<nat>, from: nat)
    requires from in members
  {
    forall j: nat, k: nat | j < k < |members| :: Handoff(members, from, j) != Handoff(members, from, k)
  }

  /** The ring is one single cycle: from any member, |members| consecutive handoffs return the turn,
      visit every member, and visit none twice. */
  lemma RingIsOneCycle(members: seq<nat>, from: nat)
    requires StrictlySorted(members) && from in members
    ensures Handoff(members, from, |members|) == from
    ensures VisitsAll(members, from) && VisitsNoneTwice(members, from)
  {
    HandoffAt(members, IndexOf(members, from), |members|);
    forall b | b in members ensures exists k: nat :: k < |members| && Handoff(members, from, k) == b {
      var k := RingVisits(members, from, b);
    }
    forall j: nat, k: nat | j < k < |members| ensures Handoff(members, from, j) != Handoff(members, from, k) {
      RingDistinct(members, from, j, k);
    }
  }

  /** The successor is a different node as soon as there is a peer. */
  lemma SuccessorIsPeer(local: nat, peers: seq<nat>)
    requires peers != [] && local !in peers
    ensures Successor(TurnMembers(local, peers), local) in peers
  {
    var members := TurnMembers(local, peers);
    var i, j := IndexOf(members, local), IndexOf(members, peers[0]);
    assert i != j;
  }
}
