/** Exactly what a tick produces: which awaited peers get a query or a repair, which transfers are
    checked, which peers are backed off, and where every waiting value goes. The statements name
    neither the loops nor the functions of the tick. */
module MeshTick {
  import opened MeshFrame
  import opened Ordered
  import opened MeshTables
  import opened MeshEffects

  // ---------------------------------------------------------------- one awaited peer

  /** A receipt is asked for between two transmissions. */
  predicate QueryDue(x: Target, now: Time) { x.queryAt <= now < x.retryAt }

  /** The receipt is overdue and a repair is left. */
  predicate RepairDue(x: Target, now: Time) { x.retryAt <= now && x.attempts < 3 }

  predicate CheckDue(p: Pending, x: Target, now: Time) {
    p.nativeReleases && x.transfer.Some? && x.checkAt <= now
  }

  /** The frame for awaited peer `peer`: a query, or a repair that carries the turn marker for the
      successor only. */
  ghost predicate FrameOf(p: Pending, x: Target, peer: nat, item: Outbound, now: Time) {
    && item.destination == peer && item.appKey == p.appKey && item.element == p.element
    && !item.acknowledgement && item.sample == p.sample
    && (if QueryDue(x, now)
        then item.data == QueryFor(p.data) && !item.segmented && item.transfer == x.transfer
        else item.data == Marked(p.data, peer == p.successor) && item.segmented == p.segmented && item.transfer == None)
  }

  /** The record of an awaited peer after the tick: `checked` when its transfer was checked, `served`
      when its frame was built. */
  ghost predicate TargetAfter(x: Target, y: Target, checked: bool, served: bool, now: Time) {
    && y.transfer == x.transfer
    && y.checkAt == (if checked then now + 100 else x.checkAt)
    && y.queryAt == (if served then now + 2_000 else x.queryAt)
    && (if served && !QueryDue(x, now) then y.attempts == x.attempts + 1 && y.retryAt == now + 4_000 * (y.attempts + 1)
        else y.attempts == x.attempts && y.retryAt == x.retryAt)
  }

  ghost predicate Wants(a: Pass, k: nat, peer: nat, now: Time)
    requires k in a.t.pending && peer in a.t.pending[k].awaiting
  {
    var x := a.t.pending[k].awaiting[peer];
    QueryDue(x, now) || (RepairDue(x, now) && peer !in a.scheduled && PeerOf(a.t.peers, peer).retryAfter <= now)
  }

  ghost predicate OneServed(a: Pass, k: nat, peer: nat, r: Pass, now: Time)
    requires k in a.t.pending && peer in a.t.pending[k].awaiting
  {
    var p, x := a.t.pending[k], a.t.pending[k].awaiting[peer];
    var served := Wants(a, k, peer, now);
    && SetsTarget(a.t, k, peer, r.t)
    && TargetAfter(x, r.t.pending[k].awaiting[peer], CheckDue(p, x, now), served, now)
    && r.checks == a.checks + (if CheckDue(p, x, now) then [Check(k, peer, x.transfer.value)] else [])
    && (if served then |r.outbound| == |a.outbound| + 1 && r.outbound[..|a.outbound|] == a.outbound
                       && FrameOf(p, x, peer, r.outbound[|a.outbound|], now)
        else r.outbound == a.outbound)
    && r.scheduled == (if served && !QueryDue(x, now) then a.scheduled + {peer} else a.scheduled)
  }

  lemma Unmoved<T>(m: map<nat, T>, k: nat)
    requires k in m
    ensures m[k := m[k]] == m
  {}

  /** Only the record of one awaited peer changes. */
  ghost predicate SetsTarget(t: Tables, k: nat, peer: nat, after: Tables)
    requires k in t.pending && peer in t.pending[k].awaiting
  {
    && k in after.pending && peer in after.pending[k].awaiting
    && after == t.(pending := t.pending[k := t.pending[k].(awaiting := t.pending[k].awaiting[peer := after.pending[k].awaiting[peer]])])
  }

  lemma SetsNothing(t: Tables, k: nat, peer: nat)
    requires k in t.pending && peer in t.pending[k].awaiting
    ensures SetsTarget(t, k, peer, t)
  {
    Unmoved(t.pending, k);
    Unmoved(t.pending[k].awaiting, peer);
  }

  lemma SetsTwice(t: Tables, k: nat, peer: nat, mid: Tables, after: Tables)
    requires k in t.pending && peer in t.pending[k].awaiting
    requires SetsTarget(t, k, peer, mid) && SetsTarget(mid, k, peer, after)
    ensures SetsTarget(t, k, peer, after)
  {
    var y := after.pending[k].awaiting[peer];
    assert mid.pending[k].awaiting[peer := y] == t.pending[k].awaiting[peer := y];
    assert mid.pending[k := after.pending[k]] == t.pending[k := after.pending[k]];
  }

  ghost predicate Checked(a: Pass, k: nat, peer: nat, b: Pass, now: Time)
    requires k in a.t.pending && peer in a.t.pending[k].awaiting
  {
    var p, x := a.t.pending[k], a.t.pending[k].awaiting[peer];
    && SetsTarget(a.t, k, peer, b.t)
    && TargetAfter(x, b.t.pending[k].awaiting[peer], CheckDue(p, x, now), false, now)
    && b.checks == a.checks + (if CheckDue(p, x, now) then [Check(k, peer, x.transfer.value)] else [])
    && b.outbound == a.outbound && b.scheduled == a.scheduled
  }

  lemma CheckedExactly(a: Pass, k: nat, peer: nat, now: Time)
    requires k in a.t.pending && peer in a.t.pending[k].awaiting
    ensures Checked(a, k, peer, CheckTarget(a, k, peer, now), now)
  {
    SetsNothing(a.t, k, peer);
  }

  ghost predicate FrameBuilt(b: Pass, k: nat, peer: nat, r: Pass, now: Time)
    requires k in b.t.pending && peer in b.t.pending[k].awaiting
  {
    var p, x := b.t.pending[k], b.t.pending[k].awaiting[peer];
    var served := Wants(b, k, peer, now);
    && SetsTarget(b.t, k, peer, r.t)
    && TargetAfter(x, r.t.pending[k].awaiting[peer], false, served, now)
    && r.checks == b.checks
    && (if served then |r.outbound| == |b.outbound| + 1 && r.outbound[..|b.outbound|] == b.outbound
                       && FrameOf(p, x, peer, r.outbound[|b.outbound|], now)
        else r.outbound == b.outbound)
    && r.scheduled == (if served && !QueryDue(x, now) then b.scheduled + {peer} else b.scheduled)
  }

  /** Serving an awaited peer appends a query exactly when one is due, otherwise a repair exactly when one
      is due, the peer has none scheduled and is not backed off; its record moves accordingly. */
  lemma FrameExactly(b: Pass, k: nat, peer: nat, now: Time)
    requires k in b.t.pending && peer in b.t.pending[k].awaiting
    ensures FrameBuilt(b, k, peer, QueryOrRepair(b, k, peer, now), now)
  {
    if Wants(b, k, peer, now) { FrameAppended(b, k, peer, now); } else { SetsNothing(b.t, k, peer); }
  }

  lemma FrameAppended(b: Pass, k: nat, peer: nat, now: Time)
    requires k in b.t.pending && peer in b.t.pending[k].awaiting && Wants(b, k, peer, now)
    ensures FrameBuilt(b, k, peer, QueryOrRepair(b, k, peer, now), now)
  {
    var p, x := b.t.pending[k], b.t.pending[k].awaiting[peer];
    var r := QueryOrRepair(b, k, peer, now);
    if QueryDue(x, now) {
      assert FrameOf(p, x, peer, QueryItem(p, peer), now);
    } else {
      assert FrameOf(p, x, peer, RepairItem(p, peer), now);
    }
    assert r.outbound[..|b.outbound|] == b.outbound;
  }

  /** With room for a frame: a due transfer check, then a due query or repair. */
  lemma ServedExactly(a: Pass, k: nat, peer: nat, now: Time)
    requires k in a.t.pending && peer in a.t.pending[k].awaiting && |a.outbound| < 6
    ensures OneServed(a, k, peer, TargetStep(a, k, peer, now), now)
  {
    var b := CheckTarget(a, k, peer, now);
    CheckedExactly(a, k, peer, now);
    FrameExactly(b, k, peer, now);
    SetsTwice(a.t, k, peer, b.t, QueryOrRepair(b, k, peer, now).t);
    ServedCompose(a, k, peer, b, QueryOrRepair(b, k, peer, now), now);
  }

  lemma ServedCompose(a: Pass, k: nat, peer: nat, b: Pass, r: Pass, now: Time)
    requires k in a.t.pending && peer in a.t.pending[k].awaiting
    requires Checked(a, k, peer, b, now) && FrameBuilt(b, k, peer, r, now) && SetsTarget(a.t, k, peer, r.t)
    ensures OneServed(a, k, peer, r, now)
  {
    assert Wants(b, k, peer, now) == Wants(a, k, peer, now);
  }

  // ---------------------------------------------------------------- the awaited peers of one sample

  /** Six frames were built before this peer was reached. */
  ghost predicate Full(outbound: seq<Outbound>, mine: seq<nat>, peer: nat) {
    |outbound| >= 6 && forall m | m in mine :: m < peer
  }

  ghost predicate OneSample(t: Tables, k: nat, after: Tables)
    requires k in t.pending
  {
    && k in after.pending && after == t.(pending := t.pending[k := after.pending[k]])
    && after.pending[k] == t.pending[k].(awaiting := after.pending[k].awaiting)
    && after.pending[k].awaiting.Keys == t.pending[k].awaiting.Keys
  }

  /** The frames built, one for each served peer, in order. */
  ghost predicate FramesOf(p: Pending, before: seq<Outbound>, mine: seq<nat>, after: seq<Outbound>, now: Time) {
    && (mine != [] ==> |before| < 6)
    && |after| == |before| + |mine| && after[..|before|] == before
    && (forall i | 0 <= i < |mine| :: mine[i] in p.awaiting && FrameOf(p, p.awaiting[mine[i]], mine[i], after[|before| + i], now))
  }

  ghost predicate TargetsOf(a: Pass, k: nat, peers: seq<nat>, mine: seq<nat>, r: Pass, now: Time)
    requires k in a.t.pending && k in r.t.pending && r.t.pending[k].awaiting.Keys == a.t.pending[k].awaiting.Keys
  {
    var p := a.t.pending[k];
    && StrictlySorted(mine) && (forall m | m in mine :: m in peers && m in p.awaiting)
    && (forall m | m in p.awaiting && m !in peers :: r.t.pending[k].awaiting[m] == p.awaiting[m])
    && (forall m | m in p.awaiting && m in peers :: PeerServed(a, k, mine, r, m, now))
  }

  ghost predicate ScheduledBy(a: Pass, k: nat, mine: seq<nat>, r: Pass, now: Time)
    requires k in a.t.pending
  {
    var p := a.t.pending[k];
    forall m :: m in r.scheduled <==> m in a.scheduled || (m in mine && m in p.awaiting && !QueryDue(p.awaiting[m], now))
  }

  ghost predicate ChecksOf(a: Pass, k: nat, peers: seq<nat>, mine: seq<nat>, r: Pass, now: Time)
    requires k in a.t.pending
  {
    forall c :: c in r.checks <==> c in a.checks || ChecksIt(a.t.pending[k], k, peers, mine, r.outbound, c, now)
  }

  /** What the pass over `peers` does for sample `k`; `mine` are the peers it built a frame for. */
  ghost predicate SampleServed(a: Pass, k: nat, peers: seq<nat>, mine: seq<nat>, r: Pass, now: Time)
    requires k in a.t.pending
  {
    && OneSample(a.t, k, r.t) && FramesOf(a.t.pending[k], a.outbound, mine, r.outbound, now)
    && TargetsOf(a, k, peers, mine, r, now) && ScheduledBy(a, k, mine, r, now) && ChecksOf(a, k, peers, mine, r, now)
  }

  ghost predicate PeerServed(a: Pass, k: nat, mine: seq<nat>, r: Pass, m: nat, now: Time)
    requires k in a.t.pending && m in a.t.pending[k].awaiting && k in r.t.pending && m in r.t.pending[k].awaiting
  {
    var p, x, full := a.t.pending[k], a.t.pending[k].awaiting[m], Full(r.outbound, mine, m);
    && (m in mine <==> !full && Wants(a, k, m, now))
    && TargetAfter(x, r.t.pending[k].awaiting[m], !full && CheckDue(p, x, now), m in mine, now)
  }

  ghost predicate ChecksIt(p: Pending, k: nat, peers: seq<nat>, mine: seq<nat>, outbound: seq<Outbound>, c: Check, now: Time) {
    && c.sequence == k && c.destination in peers && c.destination in p.awaiting
    && !Full(outbound, mine, c.destination) && CheckDue(p, p.awaiting[c.destination], now)
    && p.awaiting[c.destination].transfer == Some(c.handle)
  }

  lemma {:induction false} PeersServed(a: Pass, k: nat, peers: seq<nat>, now: Time) returns (mine: seq<nat>)
    requires k in a.t.pending && StrictlySorted(peers) && forall m | m in peers :: m in a.t.pending[k].awaiting
    ensures SampleServed(a, k, peers, mine, TargetsPass(a, k, peers, now), now)
    decreases |peers|
  {
    if peers == [] {
      Unmoved(a.t.pending, k);
      mine := [];
    } else {
      var b := TargetStep(a, k, peers[0], now);
      var r := TargetsPass(b, k, peers[1..], now);
      if |a.outbound| >= 6 {
        var later := PeersServed(a, k, peers[1..], now);
        mine := [];
        FullStep(a, k, peers, later, r, now);
      } else {
        ServedExactly(a, k, peers[0], now);
        var later := PeersServed(b, k, peers[1..], now);
        mine := if Wants(a, k, peers[0], now) then [peers[0]] + later else later;
        ServeStep(a, k, peers, b, later, mine, r, now);
      }
    }
  }

  lemma FirstOf(peers: seq<nat>)
    requires peers != [] && StrictlySorted(peers)
    ensures forall m :: m in peers <==> m == peers[0] || m in peers[1..]
    ensures forall m | m in peers[1..] :: peers[0] < m
  {}

  lemma FullStep(a: Pass, k: nat, peers: seq<nat>, later: seq<nat>, r: Pass, now: Time)
    requires k in a.t.pending && peers != [] && StrictlySorted(peers) && forall m | m in peers :: m in a.t.pending[k].awaiting
    requires |a.outbound| >= 6 && SampleServed(a, k, peers[1..], later, r, now)
    ensures SampleServed(a, k, peers, [], r, now)
  {
    assert later == [];
    FirstOf(peers);
    forall c ensures c in r.checks <==> c in a.checks || ChecksIt(a.t.pending[k], k, peers, [], r.outbound, c, now) {}
  }

  /** Facts that every part of the step shares. */
  ghost predicate StepFacts(a: Pass, k: nat, peers: seq<nat>, b: Pass, later: seq<nat>, mine: seq<nat>, r: Pass, now: Time) {
    && k in a.t.pending && peers != [] && StrictlySorted(peers) && (forall m | m in peers :: m in a.t.pending[k].awaiting)
    && |a.outbound| < 6 && OneServed(a, k, peers[0], b, now) && SampleServed(b, k, peers[1..], later, r, now)
    && mine == (if Wants(a, k, peers[0], now) then [peers[0]] + later else later)
  }

  lemma ServeStep(a: Pass, k: nat, peers: seq<nat>, b: Pass, later: seq<nat>, mine: seq<nat>, r: Pass, now: Time)
    requires StepFacts(a, k, peers, b, later, mine, r, now)
    ensures SampleServed(a, k, peers, mine, r, now)
  {
    ServeSample(a, k, peers, b, later, mine, r, now);
    ServeFrames(a, k, peers, b, later, mine, r, now);
    ServeTargets(a, k, peers, b, later, mine, r, now);
    ServeScheduled(a, k, peers, b, later, mine, r, now);
    ServeChecks(a, k, peers, b, later, mine, r, now);
  }

  lemma ServeSample(a: Pass, k: nat, peers: seq<nat>, b: Pass, later: seq<nat>, mine: seq<nat>, r: Pass, now: Time)
    requires StepFacts(a, k, peers, b, later, mine, r, now)
    ensures OneSample(a.t, k, r.t)
  {
    assert r.t.pending == a.t.pending[k := r.t.pending[k]];
  }

  lemma FramesLift(p: Pending, pb: Pending, first: nat, before: seq<Outbound>, later: seq<nat>, after: seq<Outbound>, now: Time)
    requires first in p.awaiting && first in pb.awaiting && pb == p.(awaiting := p.awaiting[first := pb.awaiting[first]])
    requires FramesOf(pb, before, later, after, now) && first !in later
    ensures FramesOf(p, before, later, after, now)
  {
    forall i | 0 <= i < |later| ensures later[i] in p.awaiting && FrameOf(p, p.awaiting[later[i]], later[i], after[|before| + i], now) {
      assert later[i] in later;
    }
  }

  lemma FramesCons(p: Pending, first: nat, before: seq<Outbound>, mid: seq<Outbound>, later: seq<nat>, after: seq<Outbound>, now: Time)
    requires |before| < 6 && |mid| == |before| + 1 && mid[..|before|] == before && first in p.awaiting
    requires FrameOf(p, p.awaiting[first], first, mid[|before|], now) && FramesOf(p, mid, later, after, now)
    ensures FramesOf(p, before, [first] + later, after, now)
  {
    var mine, n := [first] + later, |before|;
    assert after[..n] == after[..|mid|][..n];
    assert after[n] == after[..|mid|][n];
    forall i | 0 <= i < |mine| ensures mine[i] in p.awaiting && FrameOf(p, p.awaiting[mine[i]], mine[i], after[n + i], now) {
      if i > 0 { assert later[i - 1] in p.awaiting && after[|mid| + (i - 1)] == after[n + i]; }
    }
  }

  lemma ServeFrames(a: Pass, k: nat, peers: seq<nat>, b: Pass, later: seq<nat>, mine: seq<nat>, r: Pass, now: Time)
    requires StepFacts(a, k, peers, b, later, mine, r, now)
    ensures FramesOf(a.t.pending[k], a.outbound, mine, r.outbound, now)
  {
    FirstOf(peers);
    FramesLift(a.t.pending[k], b.t.pending[k], peers[0], b.outbound, later, r.outbound, now);
    if Wants(a, k, peers[0], now) {
      FramesCons(a.t.pending[k], peers[0], a.outbound, b.outbound, later, r.outbound, now);
    }
  }

  lemma FullLater(peers: seq<nat>, later: seq<nat>, mine: seq<nat>, outbound: seq<Outbound>, m: nat)
    requires peers != [] && (mine == later || mine == [peers[0]] + later) && peers[0] < m
    ensures Full(outbound, mine, m) == Full(outbound, later, m)
  {
    assert forall x :: x in mine <==> x in later || (|mine| > |later| && x == peers[0]);
  }

  lemma NotFullFirst(a: Pass, k: nat, peers: seq<nat>, b: Pass, later: seq<nat>, mine: seq<nat>, r: Pass, now: Time)
    requires StepFacts(a, k, peers, b, later, mine, r, now)
    ensures !Full(r.outbound, mine, peers[0])
  {
    FirstOf(peers);
    if mine != [] { assert mine[0] in mine; }
  }

  lemma ServeTargets(a: Pass, k: nat, peers: seq<nat>, b: Pass, later: seq<nat>, mine: seq<nat>, r: Pass, now: Time)
    requires StepFacts(a, k, peers, b, later, mine, r, now) && OneSample(a.t, k, r.t)
    ensures TargetsOf(a, k, peers, mine, r, now)
  {
    FirstOf(peers);
    if mine != later { SortedCons(peers[0], later); }
    assert forall x :: x in mine <==> x in later || (Wants(a, k, peers[0], now) && x == peers[0]);
    NotFullFirst(a, k, peers, b, later, mine, r, now);
    forall m | m in peers ensures PeerServed(a, k, mine, r, m, now) {
      if m != peers[0] { LaterServed(a, k, peers, b, later, mine, r, m, now); }
    }
  }

  lemma LaterServed(a: Pass, k: nat, peers: seq<nat>, b: Pass, later: seq<nat>, mine: seq<nat>, r: Pass, m: nat, now: Time)
    requires StepFacts(a, k, peers, b, later, mine, r, now) && OneSample(a.t, k, r.t) && m in peers && m != peers[0]
    ensures PeerServed(a, k, mine, r, m, now)
  {
    FirstOf(peers);
    FullLater(peers, later, mine, r.outbound, m);
    assert m in b.t.pending[k].awaiting && PeerServed(b, k, later, r, m, now);
    assert b.t.pending[k].awaiting[m] == a.t.pending[k].awaiting[m];
    assert m in mine <==> m in later;
    assert Wants(a, k, m, now) == Wants(b, k, m, now);
  }

  lemma ServeScheduled(a: Pass, k: nat, peers: seq<nat>, b: Pass, later: seq<nat>, mine: seq<nat>, r: Pass, now: Time)
    requires StepFacts(a, k, peers, b, later, mine, r, now)
    ensures ScheduledBy(a, k, mine, r, now)
  {
    FirstOf(peers);
    var p, q := a.t.pending[k], b.t.pending[k];
    forall m ensures m in r.scheduled <==> m in a.scheduled || (m in mine && m in p.awaiting && !QueryDue(p.awaiting[m], now)) {
      assert m in r.scheduled <==> m in b.scheduled || (m in later && m in q.awaiting && !QueryDue(q.awaiting[m], now));
      if m == peers[0] { assert m !in later; } else { assert m in mine <==> m in later; }
    }
  }

  /** The same check is asked of a later peer before and after the first one was served. */
  lemma CheckLater(p: Pending, pb: Pending, k: nat, peers: seq<nat>, later: seq<nat>, mine: seq<nat>, outbound: seq<Outbound>,
                   c: Check, now: Time)
    requires peers != [] && StrictlySorted(peers) && (mine == later || mine == [peers[0]] + later)
    requires peers[0] in p.awaiting && peers[0] in pb.awaiting && pb == p.(awaiting := p.awaiting[peers[0] := pb.awaiting[peers[0]]])
    requires c.destination != peers[0]
    ensures ChecksIt(p, k, peers, mine, outbound, c, now) == ChecksIt(pb, k, peers[1..], later, outbound, c, now)
  {
    FirstOf(peers);
    if c.destination in peers[1..] { FullLater(peers, later, mine, outbound, c.destination); }
  }

  lemma ServeChecks(a: Pass, k: nat, peers: seq<nat>, b: Pass, later: seq<nat>, mine: seq<nat>, r: Pass, now: Time)
    requires StepFacts(a, k, peers, b, later, mine, r, now)
    ensures ChecksOf(a, k, peers, mine, r, now)
  {
    var p := a.t.pending[k];
    NotFullFirst(a, k, peers, b, later, mine, r, now);
    forall c ensures c in r.checks <==> c in a.checks || ChecksIt(p, k, peers, mine, r.outbound, c, now) {
      assert c in r.checks <==> c in b.checks || ChecksIt(b.t.pending[k], k, peers[1..], later, r.outbound, c, now);
      if c.destination == peers[0] {
        FirstOf(peers);
      } else {
        CheckLater(p, b.t.pending[k], k, peers, later, mine, r.outbound, c, now);
      }
    }
  }

  // ---------------------------------------------------------------- one sample

  ghost predicate Live(t: Tables, k: nat, now: Time) { k in t.pending && !Drops(t.pending[k], now) }

  /** The tick gives sample `k` up: it is older than 30 seconds and somebody still awaited it. */
  ghost predicate Missed(t: Tables, k: nat, peer: nat, now: Time) {
    k in t.pending && Expired(t.pending[k], now) && peer in t.pending[k].awaiting
  }

  /** `n` given up samples in a row: one expiry each, six at most, and a pause of five seconds for each
      expiry counted, thirty at most. */
  ghost predicate BackedOff(before: PeerState, n: nat, after: PeerState, now: Time) {
    if n == 0 then after == before
    else && after.busyUntil == before.busyUntil
         && after.expiries == (if before.expiries + n < 6 then before.expiries + n else 6)
         && after.retryAfter == now + (if after.expiries < 6 then 5_000 * after.expiries else 30_000)
  }

  lemma {:induction false} ExpireEach(peers: map<nat, PeerState>, failed: seq<nat>, now: Time, peer: nat)
    requires StrictlySorted(failed)
    ensures BackedOff(PeerOf(peers, peer), if peer in failed then 1 else 0, PeerOf(Expire(peers, failed, now), peer), now)
    decreases |failed|
  {
    if failed != [] {
      FirstOf(failed);
      var before := PeerOf(peers, failed[0]);
      var expiries := if before.expiries + 1 < MAX_EXPIRIES then before.expiries + 1 else MAX_EXPIRIES;
      var backoff := if 5_000 * expiries < 30_000 then 5_000 * expiries else 30_000;
      ExpireEach(peers[failed[0] := before.(expiries := expiries, retryAfter := now + backoff)], failed[1..], now, peer);
    }
  }

  ghost predicate PeersStep(t: Tables, k: nat, after: Tables, now: Time) {
    forall peer: nat :: BackedOff(PeerOf(t.peers, peer), if Missed(t, k, peer, now) then 1 else 0, PeerOf(after.peers, peer), now)
  }

  /** A complete or expired sample leaves; nothing is built for it. */
  ghost predicate Given(a: Pass, k: nat, r: Pass, now: Time) {
    && r.t == a.t.(pending := a.t.pending - {k}, cancellations := r.t.cancellations, peers := r.t.peers)
    && PeersStep(a.t, k, r.t, now)
    && r.outbound == a.outbound && r.checks == a.checks && r.scheduled == a.scheduled
  }

  lemma GivenUp(a: Pass, k: nat, now: Time)
    requires k in a.t.pending && Drops(a.t.pending[k], now)
    ensures Given(a, k, SampleStep(a, k, now), now)
  {
    var p := a.t.pending[k];
    if p.awaiting != map[] {
      forall peer: nat ensures BackedOff(PeerOf(a.t.peers, peer), if Missed(a.t, k, peer, now) then 1 else 0,
                                         PeerOf(SampleStep(a, k, now).t.peers, peer), now) {
        ExpireEach(a.t.peers, Ascending(p.awaiting.Keys), now, peer);
      }
    }
  }

  /** The waiting value of its channel moves into a live sample, then its awaited peers are served. */
  ghost predicate Kept(a: Pass, k: nat, c: Tables, mine: seq<nat>, r: Pass, now: Time)
    requires k in a.t.pending
  {
    && Coalesced(a.t, k, c) && c.pending[k].awaiting == a.t.pending[k].awaiting
    && SampleServed(a.(t := c), k, Ascending(a.t.pending[k].awaiting.Keys), mine, r, now)
  }

  lemma KeptAndServed(a: Pass, k: nat, now: Time) returns (mine: seq<nat>)
    requires Live(a.t, k, now)
    ensures Kept(a, k, Coalesce(a.t, k), mine, SampleStep(a, k, now), now)
  {
    CoalesceEffect(a.t, k);
    mine := PeersServed(a.(t := Coalesce(a.t, k)), k, Ascending(a.t.pending[k].awaiting.Keys), now);
  }

  // ---------------------------------------------------------------- all samples, in sequence order

  /** One awaited peer of one sample; a tick visits them in this order. */
  datatype Slot = Slot(sequence: nat, peer: nat)

  ghost predicate Precedes(x: Slot, y: Slot) {
    x.sequence < y.sequence || (x.sequence == y.sequence && x.peer < y.peer)
  }

  ghost predicate Awaits(t: Tables, s: Slot, now: Time) {
    Live(t, s.sequence, now) && s.peer in t.pending[s.sequence].awaiting
  }

  ghost function TargetOf(t: Tables, s: Slot): Target
    requires s.sequence in t.pending && s.peer in t.pending[s.sequence].awaiting
  { t.pending[s.sequence].awaiting[s.peer] }

  /** The peer is paused, or an earlier sample that expires now pauses it. */
  ghost predicate Paused(t: Tables, s: Slot, now: Time) {
    || PeerOf(t.peers, s.peer).retryAfter > now
    || exists j | j in t.pending :: j < s.sequence && Missed(t, j, s.peer, now)
  }

  /** A repair of sample `x` goes to its peer in this tick. */
  ghost predicate Repairs(t: Tables, x: Slot, now: Time) { Awaits(t, x, now) && !QueryDue(TargetOf(t, x), now) }

  /** An earlier sample already has a repair for this peer in this tick. */
  ghost predicate Repeated(t: Tables, served: seq<Slot>, s: Slot, now: Time) {
    exists x | x in served :: x.sequence < s.sequence && x.peer == s.peer && Repairs(t, x, now)
  }

  ghost predicate Due(t: Tables, served: seq<Slot>, s: Slot, now: Time)
    requires Awaits(t, s, now)
  {
    || QueryDue(TargetOf(t, s), now)
    || (RepairDue(TargetOf(t, s), now) && !Paused(t, s, now) && !Repeated(t, served, s, now))
  }

  /** Six frames were built before this slot was reached. */
  ghost predicate Cut(outbound: seq<Outbound>, served: seq<Slot>, s: Slot) {
    |outbound| >= 6 && forall x | x in served :: Precedes(x, s)
  }

  ghost predicate Slots(t: Tables, done: set<nat>, served: seq<Slot>, now: Time) {
    && (forall i, j | 0 <= i < j < |served| :: Precedes(served[i], served[j]))
    && (forall s | s in served :: s.sequence in done && Awaits(t, s, now))
  }

  ghost predicate SlotFrames(t: Tables, first: seq<Outbound>, served: seq<Slot>, after: Tables, outbound: seq<Outbound>, now: Time) {
    && |outbound| == |first| + |served| && outbound[..|first|] == first
    && (forall i | 0 <= i < |served| :: SlotFrame(t, after, served[i], outbound[|first| + i], now))
  }

  ghost predicate SlotFrame(t: Tables, after: Tables, s: Slot, item: Outbound, now: Time) {
    && Awaits(t, s, now) && s.sequence in after.pending
    && FrameOf(after.pending[s.sequence], TargetOf(t, s), s.peer, item, now)
  }

  /** Exactly when an awaited peer of a live sample gets its frame, and its record afterwards. */
  ghost predicate SlotServed(t: Tables, served: seq<Slot>, outbound: seq<Outbound>, after: Tables, s: Slot, now: Time)
    requires Awaits(t, s, now)
  {
    var p, cut := t.pending[s.sequence], Cut(outbound, served, s);
    && (s in served <==> !cut && Due(t, served, s, now))
    && s.sequence in after.pending && s.peer in after.pending[s.sequence].awaiting
    && TargetAfter(TargetOf(t, s), TargetOf(after, s), !cut && CheckDue(p, TargetOf(t, s), now), s in served, now)
  }

  ghost predicate SlotsServed(t: Tables, done: set<nat>, served: seq<Slot>, outbound: seq<Outbound>, after: Tables, now: Time) {
    forall s: Slot | s.sequence in done && Awaits(t, s, now) :: SlotServed(t, served, outbound, after, s, now)
  }

  ghost predicate SlotChecked(t: Tables, done: set<nat>, served: seq<Slot>, outbound: seq<Outbound>, c: Check, now: Time) {
    var s := Slot(c.sequence, c.destination);
    && c.sequence in done && Awaits(t, s, now) && !Cut(outbound, served, s)
    && CheckDue(t.pending[c.sequence], TargetOf(t, s), now) && TargetOf(t, s).transfer == Some(c.handle)
  }

  ghost predicate SlotChecks(t: Tables, done: set<nat>, served: seq<Slot>, outbound: seq<Outbound>, checks: seq<Check>, now: Time) {
    forall c :: c in checks <==> SlotChecked(t, done, served, outbound, c, now)
  }

  ghost predicate RepairPlanned(t: Tables, served: seq<Slot>, peer: nat, now: Time) {
    exists x | x in served :: x.peer == peer && Repairs(t, x, now)
  }

  ghost function MissedBy(t: Tables, done: set<nat>, peer: nat, now: Time): set<nat> {
    set j | j in done && Missed(t, j, peer, now)
  }

  ghost predicate PeersMoved(t: Tables, done: set<nat>, after: Tables, now: Time) {
    forall peer: nat :: BackedOff(PeerOf(t.peers, peer), |MissedBy(t, done, peer, now)|, PeerOf(after.peers, peer), now)
  }

  /** The lowest live sample of a channel takes the value that waits for it. */
  ghost predicate Takes(t: Tables, k: nat, now: Time) {
    && Live(t, k, now) && Coalesces(t, t.pending[k])
    && forall j | Live(t, j, now) && t.pending[j].channel == t.pending[k].channel :: k <= j
  }

  ghost predicate Taken(t: Tables, done: set<nat>, c: nat, now: Time) {
    exists k | k in done :: Live(t, k, now) && t.pending[k].channel == c && Coalesces(t, t.pending[k])
  }

  ghost predicate SampleAfter(t: Tables, k: nat, after: Tables, now: Time)
    requires Live(t, k, now)
  {
    var p := t.pending[k];
    && k in after.pending
    && after.pending[k] == p.(awaiting := after.pending[k].awaiting, data := after.pending[k].data, age := after.pending[k].age)
    && after.pending[k].awaiting.Keys == p.awaiting.Keys
    && (if Takes(t, k, now)
        then after.pending[k].data == WrapData(t.latest[p.channel].payload, k, SwarmId(p.data)) && after.pending[k].age == t.latest[p.channel].age
        else after.pending[k].data == p.data && after.pending[k].age == p.age)
  }

  ghost predicate ValuesMoved(t: Tables, done: set<nat>, after: Tables, now: Time) {
    && (forall c :: c in after.latest <==> c in t.latest && !Taken(t, done, c, now))
    && (forall c | c in after.latest :: after.latest[c] == t.latest[c])
    && (forall k | k in done && Live(t, k, now) :: SampleAfter(t, k, after, now))
  }

  /** Done are all samples below the ones still to come. */
  ghost predicate Ahead(t: Tables, done: set<nat>, after: Tables, now: Time) {
    && done <= t.pending.Keys
    && (forall k | k in t.pending && k !in done :: k in after.pending && after.pending[k] == t.pending[k])
    && (forall j, k | j in done && k in t.pending && k !in done :: j < k)
    && (forall k | k in after.pending :: k in t.pending && (k in done ==> Live(t, k, now)))
  }

  ghost predicate Serving(t: Tables, first: seq<Outbound>, done: set<nat>, a: Pass, served: seq<Slot>, now: Time) {
    && Ahead(t, done, a.t, now) && PeersMoved(t, done, a.t, now) && ValuesMoved(t, done, a.t, now)
    && Slots(t, done, served, now) && SlotFrames(t, first, served, a.t, a.outbound, now)
    && SlotsServed(t, done, served, a.outbound, a.t, now)
    && SlotChecks(t, done, served, a.outbound, a.checks, now)
    && (forall peer :: peer in a.scheduled <==> RepairPlanned(t, served, peer, now))
  }

  lemma BackedOffTwice(before: PeerState, n: nat, mid: PeerState, m: nat, after: PeerState, now: Time)
    requires BackedOff(before, n, mid, now) && BackedOff(mid, m, after, now)
    ensures BackedOff(before, n + m, after, now)
  {}

  lemma PeerMoves(t: Tables, done: set<nat>, a: Tables, k: nat, r: Tables, peer: nat, now: Time)
    requires PeersMoved(t, done, a, now) && k in t.pending && k !in done && k in a.pending && a.pending[k] == t.pending[k]
    requires BackedOff(PeerOf(a.peers, peer), if Missed(a, k, peer, now) then 1 else 0, PeerOf(r.peers, peer), now)
    ensures BackedOff(PeerOf(t.peers, peer), |MissedBy(t, done + {k}, peer, now)|, PeerOf(r.peers, peer), now)
  {
    var before, one := MissedBy(t, done, peer, now), if Missed(t, k, peer, now) then 1 else 0;
    assert MissedBy(t, done + {k}, peer, now) == before + (if one == 1 then {k} else {});
    assert k !in before;
    BackedOffTwice(PeerOf(t.peers, peer), |before|, PeerOf(a.peers, peer), one, PeerOf(r.peers, peer), now);
  }

  lemma PeersMove(t: Tables, done: set<nat>, a: Tables, k: nat, r: Tables, now: Time)
    requires PeersMoved(t, done, a, now) && k in t.pending && k !in done && k in a.pending && a.pending[k] == t.pending[k]
    requires PeersStep(a, k, r, now)
    ensures PeersMoved(t, done + {k}, r, now)
  {
    forall peer: nat ensures BackedOff(PeerOf(t.peers, peer), |MissedBy(t, done + {k}, peer, now)|, PeerOf(r.peers, peer), now) {
      PeerMoves(t, done, a, k, r, peer, now);
    }
  }

  lemma TakenMore(t: Tables, done: set<nat>, k: nat, now: Time)
    ensures forall c :: Taken(t, done + {k}, c, now)
              <==> Taken(t, done, c, now) || (Live(t, k, now) && t.pending[k].channel == c && Coalesces(t, t.pending[k]))
  {
    forall c ensures Taken(t, done + {k}, c, now)
              <==> Taken(t, done, c, now) || (Live(t, k, now) && t.pending[k].channel == c && Coalesces(t, t.pending[k])) {
      if Live(t, k, now) && t.pending[k].channel == c && Coalesces(t, t.pending[k]) { assert k in done + {k}; }
    }
  }

  lemma ValuesGiven(t: Tables, done: set<nat>, a: Tables, k: nat, r: Tables, now: Time)
    requires ValuesMoved(t, done, a, now) && !Live(t, k, now)
    requires r.latest == a.latest && r.pending == a.pending - {k}
    ensures ValuesMoved(t, done + {k}, r, now)
  {
    TakenMore(t, done, k, now);
    forall j | j in done + {k} && Live(t, j, now) ensures SampleAfter(t, j, r, now) {
      assert SampleAfter(t, j, a, now);
    }
  }

  /** A lower live sample of the channel is there exactly when its value was taken before sample `k`. */
  lemma TakenBelow(t: Tables, done: set<nat>, k: nat, now: Time)
    requires Live(t, k, now) && Coalesces(t, t.pending[k])
    requires forall j: nat | j in t.pending :: j in done <==> j < k
    ensures Taken(t, done, t.pending[k].channel, now) <==> !Takes(t, k, now)
  {
    if !Takes(t, k, now) {
      var j: nat :| Live(t, j, now) && t.pending[j].channel == t.pending[k].channel && j < k;
      assert j in done && Coalesces(t, t.pending[j]);
    }
  }

  /** The channel's value is still there for sample `k` exactly when no lower live sample took it. */
  lemma TakesIff(t: Tables, done: set<nat>, a: Tables, k: nat, now: Time)
    requires ValuesMoved(t, done, a, now) && Live(t, k, now)
    requires forall j: nat | j in t.pending :: j in done <==> j < k
    ensures Coalesces(a, t.pending[k]) <==> Takes(t, k, now)
    ensures Coalesces(a, t.pending[k]) ==> a.latest[t.pending[k].channel] == t.latest[t.pending[k].channel]
  {
    if Coalesces(t, t.pending[k]) { TakenBelow(t, done, k, now); }
  }

  /** Sample `k` after it was kept: the value it took and the slot it emptied. */
  ghost predicate KeptSample(a: Tables, k: nat, r: Tables)
    requires k in a.pending
  {
    var p := a.pending[k];
    && k in r.pending && r == a.(pending := a.pending[k := r.pending[k]], latest := r.latest)
    && r.pending[k] == p.(awaiting := r.pending[k].awaiting, data := r.pending[k].data, age := r.pending[k].age)
    && r.pending[k].awaiting.Keys == p.awaiting.Keys
    && (if Coalesces(a, p)
        then && r.latest == a.latest - {p.channel} && r.pending[k].age == a.latest[p.channel].age
             && r.pending[k].data == WrapData(a.latest[p.channel].payload, k, SwarmId(p.data))
        else r.latest == a.latest && r.pending[k].age == p.age && r.pending[k].data == p.data)
  }

  lemma KeptIsKept(a: Pass, k: nat, c: Tables, mine: seq<nat>, r: Pass, now: Time)
    requires k in a.t.pending && Kept(a, k, c, mine, r, now)
    ensures KeptSample(a.t, k, r.t)
  {
    RenewedThenServed(a.t, k, c, r.t);
  }

  lemma RenewedThenServed(a: Tables, k: nat, c: Tables, r: Tables)
    requires k in a.pending && Coalesced(a, k, c) && c.pending[k].awaiting == a.pending[k].awaiting && OneSample(c, k, r)
    ensures KeptSample(a, k, r)
  {
    assert r.pending == a.pending[k := r.pending[k]];
  }

  lemma SlotsEmptied(t: Tables, done: set<nat>, a: Tables, k: nat, r: Tables, now: Time)
    requires ValuesMoved(t, done, a, now) && Live(t, k, now) && k in a.pending && a.pending[k] == t.pending[k] && KeptSample(a, k, r)
    requires Coalesces(a, t.pending[k]) <==> Takes(t, k, now)
    requires forall j: nat | j in t.pending :: j in done <==> j < k
    ensures forall c :: c in r.latest <==> c in t.latest && !Taken(t, done + {k}, c, now)
    ensures forall c | c in r.latest :: r.latest[c] == t.latest[c]
  {
    TakenMore(t, done, k, now);
    if Coalesces(t, t.pending[k]) { TakenBelow(t, done, k, now); }
  }

  lemma ValuesKept(t: Tables, done: set<nat>, a: Tables, k: nat, r: Tables, now: Time)
    requires Ahead(t, done, a, now) && ValuesMoved(t, done, a, now) && Live(t, k, now) && k !in done && KeptSample(a, k, r)
    requires forall j | j in t.pending && j !in done :: k <= j
    ensures ValuesMoved(t, done + {k}, r, now)
  {
    TakesIff(t, done, a, k, now);
    SlotsEmptied(t, done, a, k, r, now);
    forall j | j in done && Live(t, j, now) ensures SampleAfter(t, j, r, now) { assert SampleAfter(t, j, a, now); }
    TookValue(t, a, k, r, now);
  }

  lemma TookValue(t: Tables, a: Tables, k: nat, r: Tables, now: Time)
    requires Live(t, k, now) && k in a.pending && a.pending[k] == t.pending[k] && KeptSample(a, k, r)
    requires Coalesces(a, t.pending[k]) <==> Takes(t, k, now)
    requires Coalesces(a, t.pending[k]) ==> a.latest[t.pending[k].channel] == t.latest[t.pending[k].channel]
    ensures SampleAfter(t, k, r, now)
  {}

  lemma AheadGiven(t: Tables, done: set<nat>, a: Tables, k: nat, r: Tables, now: Time)
    requires Ahead(t, done, a, now) && k in t.pending && k !in done && !Live(t, k, now) && r.pending == a.pending - {k}
    requires forall j | j in t.pending && j !in done :: k <= j
    ensures Ahead(t, done + {k}, r, now)
  {}

  lemma AheadKept(t: Tables, done: set<nat>, a: Tables, k: nat, r: Tables, now: Time)
    requires Ahead(t, done, a, now) && k !in done && Live(t, k, now) && KeptSample(a, k, r)
    requires forall j | j in t.pending && j !in done :: k <= j
    ensures Ahead(t, done + {k}, r, now)
  {}

  /** Nothing was built or checked for a sample that is given up. */
  lemma GivenStep(t: Tables, first: seq<Outbound>, done: set<nat>, a: Pass, served: seq<Slot>, k: nat, r: Pass, now: Time)
    requires Serving(t, first, done, a, served, now) && k in t.pending && k !in done && !Live(t, k, now) && Given(a, k, r, now)
    requires forall j | j in t.pending && j !in done :: k <= j
    ensures Serving(t, first, done + {k}, r, served, now)
  {
    AheadGiven(t, done, a.t, k, r.t, now);
    PeersMove(t, done, a.t, k, r.t, now);
    ValuesGiven(t, done, a.t, k, r.t, now);
    forall i | 0 <= i < |served| ensures SlotFrame(t, r.t, served[i], r.outbound[|first| + i], now) {
      assert served[i] in served && SlotFrame(t, a.t, served[i], a.outbound[|first| + i], now);
    }
    forall s: Slot | s.sequence in done + {k} && Awaits(t, s, now) ensures SlotServed(t, served, r.outbound, r.t, s, now) {
      assert SlotServed(t, served, a.outbound, a.t, s, now);
    }
    forall c ensures c in r.checks <==> SlotChecked(t, done + {k}, served, r.outbound, c, now) {
      assert SlotChecked(t, done + {k}, served, r.outbound, c, now) == SlotChecked(t, done, served, a.outbound, c, now);
    }
  }

  // ---------------------------------------------------------------- frames of a live sample

  ghost function SlotsOf(k: nat, mine: seq<nat>): (r: seq<Slot>)
    ensures |r| == |mine| && forall i | 0 <= i < |mine| :: r[i] == Slot(k, mine[i])
  {
    seq(|mine|, i requires 0 <= i < |mine| => Slot(k, mine[i]))
  }

  lemma InSlotsOf(k: nat, mine: seq<nat>)
    ensures forall s :: s in SlotsOf(k, mine) <==> s.sequence == k && s.peer in mine
  {
    forall s ensures s in SlotsOf(k, mine) <==> s.sequence == k && s.peer in mine {
      if s.sequence == k && s.peer in mine {
        var i :| 0 <= i < |mine| && mine[i] == s.peer;
        assert SlotsOf(k, mine)[i] == s;
      }
    }
  }

  /** A live sample is served next. */
  ghost predicate KeptNext(t: Tables, first: seq<Outbound>, done: set<nat>, a: Pass, served: seq<Slot>,
                           k: nat, c: Tables, mine: seq<nat>, r: Pass, now: Time) {
    && Serving(t, first, done, a, served, now) && k !in done && Live(t, k, now) && Kept(a, k, c, mine, r, now)
    && (forall j | j in t.pending && j !in done :: k <= j)
  }

  lemma SlotsMore(t: Tables, first: seq<Outbound>, done: set<nat>, a: Pass, served: seq<Slot>,
                  k: nat, c: Tables, mine: seq<nat>, r: Pass, now: Time)
    requires KeptNext(t, first, done, a, served, k, c, mine, r, now)
    ensures Slots(t, done + {k}, served + SlotsOf(k, mine), now)
  {
    InSlotsOf(k, mine);
    var all := served + SlotsOf(k, mine);
    forall i, j | 0 <= i < j < |all| ensures Precedes(all[i], all[j]) {
      if i < |served| <= j { assert served[i] in served; }
    }
  }

  lemma FramesOld(t: Tables, first: seq<Outbound>, served: seq<Slot>, before: Tables, outbound: seq<Outbound>,
                  k: nat, after: Tables, more: seq<Outbound>, now: Time)
    requires SlotFrames(t, first, served, before, outbound, now) && k in before.pending && KeptSample(before, k, after)
    requires |outbound| <= |more| && more[..|outbound|] == outbound && forall s | s in served :: s.sequence != k
    ensures forall i | 0 <= i < |served| :: SlotFrame(t, after, served[i], more[|first| + i], now)
  {
    forall i | 0 <= i < |served| ensures SlotFrame(t, after, served[i], more[|first| + i], now) {
      assert served[i] in served && SlotFrame(t, before, served[i], outbound[|first| + i], now);
      assert more[|first| + i] == more[..|outbound|][|first| + i];
    }
  }

  lemma FramesNew(t: Tables, k: nat, c: Tables, after: Tables, before: seq<Outbound>, mine: seq<nat>, outbound: seq<Outbound>, now: Time)
    requires Live(t, k, now) && k in c.pending && k in after.pending
    requires c.pending[k].awaiting == t.pending[k].awaiting && after.pending[k] == c.pending[k].(awaiting := after.pending[k].awaiting)
    requires FramesOf(c.pending[k], before, mine, outbound, now)
    ensures forall m | 0 <= m < |mine| :: SlotFrame(t, after, SlotsOf(k, mine)[m], outbound[|before| + m], now)
  {
    forall m | 0 <= m < |mine| ensures SlotFrame(t, after, SlotsOf(k, mine)[m], outbound[|before| + m], now) {
      assert FrameOf(c.pending[k], c.pending[k].awaiting[mine[m]], mine[m], outbound[|before| + m], now);
    }
  }

  lemma FramesAll(t: Tables, first: seq<Outbound>, served: seq<Slot>, before: Tables, outbound: seq<Outbound>,
                  k: nat, c: Tables, mine: seq<nat>, after: Tables, more: seq<Outbound>, now: Time)
    requires SlotFrames(t, first, served, before, outbound, now) && k in before.pending && KeptSample(before, k, after)
    requires (forall s | s in served :: s.sequence != k) && Live(t, k, now) && k in c.pending
    requires c.pending[k].awaiting == t.pending[k].awaiting && after.pending[k] == c.pending[k].(awaiting := after.pending[k].awaiting)
    requires FramesOf(c.pending[k], outbound, mine, more, now)
    ensures SlotFrames(t, first, served + SlotsOf(k, mine), after, more, now)
  {
    assert more[..|first|] == more[..|outbound|][..|first|];
    FramesOld(t, first, served, before, outbound, k, after, more, now);
    FramesNew(t, k, c, after, outbound, mine, more, now);
    FramesJoin(t, after, served, SlotsOf(k, mine), |first|, more, now);
  }

  lemma FramesMore(t: Tables, first: seq<Outbound>, done: set<nat>, a: Pass, served: seq<Slot>,
                   k: nat, c: Tables, mine: seq<nat>, r: Pass, now: Time)
    requires KeptNext(t, first, done, a, served, k, c, mine, r, now) && KeptSample(a.t, k, r.t)
    ensures SlotFrames(t, first, served + SlotsOf(k, mine), r.t, r.outbound, now)
  {
    assert FramesOf(c.pending[k], a.outbound, mine, r.outbound, now);
    FramesAll(t, first, served, a.t, a.outbound, k, c, mine, r.t, r.outbound, now);
  }

  lemma FramesJoin(t: Tables, after: Tables, served: seq<Slot>, more: seq<Slot>, n: nat, outbound: seq<Outbound>, now: Time)
    requires |outbound| == n + |served| + |more|
    requires forall i | 0 <= i < |served| :: SlotFrame(t, after, served[i], outbound[n + i], now)
    requires forall m | 0 <= m < |more| :: SlotFrame(t, after, more[m], outbound[n + |served| + m], now)
    ensures forall i | 0 <= i < |served + more| :: SlotFrame(t, after, (served + more)[i], outbound[n + i], now)
  {
    forall i | 0 <= i < |served + more| ensures SlotFrame(t, after, (served + more)[i], outbound[n + i], now) {
      if i >= |served| { assert SlotFrame(t, after, more[i - |served|], outbound[n + |served| + (i - |served|)], now); }
    }
  }

  lemma CutSame(t: Tables, done: set<nat>, outbound: seq<Outbound>, served: seq<Slot>, k: nat, mine: seq<nat>,
                after: seq<Outbound>, s: Slot)
    requires s.sequence < k && |after| == |outbound| + |mine| && (mine != [] ==> |outbound| < 6)
    ensures Cut(after, served + SlotsOf(k, mine), s) == Cut(outbound, served, s)
  {
    InSlotsOf(k, mine);
    if mine != [] { assert Slot(k, mine[0]) in served + SlotsOf(k, mine); }
  }

  lemma CutIsFull(t: Tables, done: set<nat>, served: seq<Slot>, k: nat, mine: seq<nat>, after: seq<Outbound>, m: nat, now: Time)
    requires Slots(t, done, served, now) && forall j | j in done :: j < k
    ensures Cut(after, served + SlotsOf(k, mine), Slot(k, m)) == Full(after, mine, m)
  {
    InSlotsOf(k, mine);
    if Cut(after, served + SlotsOf(k, mine), Slot(k, m)) {
      forall x | x in mine ensures x < m { assert Slot(k, x) in served + SlotsOf(k, mine); }
    }
  }

  lemma RepeatedSame(t: Tables, served: seq<Slot>, k: nat, mine: seq<nat>, s: Slot, now: Time)
    requires s.sequence <= k
    ensures Repeated(t, served + SlotsOf(k, mine), s, now) == Repeated(t, served, s, now)
  {
    InSlotsOf(k, mine);
    if x :| x in served && x.sequence < s.sequence && x.peer == s.peer && Repairs(t, x, now) {
      assert x in served + SlotsOf(k, mine);
    }
  }

  lemma OldSlots(t: Tables, first: seq<Outbound>, done: set<nat>, a: Pass, served: seq<Slot>,
                 k: nat, c: Tables, mine: seq<nat>, r: Pass, s: Slot, now: Time)
    requires KeptNext(t, first, done, a, served, k, c, mine, r, now) && KeptSample(a.t, k, r.t)
    requires s.sequence in done && Awaits(t, s, now)
    ensures SlotServed(t, served + SlotsOf(k, mine), r.outbound, r.t, s, now)
  {
    InSlotsOf(k, mine);
    assert SlotServed(t, served, a.outbound, a.t, s, now);
    CutSame(t, done, a.outbound, served, k, mine, r.outbound, s);
    RepeatedSame(t, served, k, mine, s, now);
  }

  lemma MissedNone(t: Tables, done: set<nat>, peer: nat, now: Time)
    ensures |MissedBy(t, done, peer, now)| == 0 <==> forall j | j in done :: !Missed(t, j, peer, now)
  {
    if |MissedBy(t, done, peer, now)| > 0 {
      var j :| j in MissedBy(t, done, peer, now);
    } else {
      assert forall j | j in done :: j !in MissedBy(t, done, peer, now);
    }
  }

  lemma PausedIff(t: Tables, done: set<nat>, a: Tables, k: nat, peer: nat, now: Time)
    requires Ahead(t, done, a, now) && PeersMoved(t, done, a, now) && k in t.pending && k !in done
    requires forall j | j in t.pending && j !in done :: k <= j
    ensures PeerOf(a.peers, peer).retryAfter > now <==> Paused(t, Slot(k, peer), now)
  {
    MissedNone(t, done, peer, now);
    if j :| j in t.pending && j < k && Missed(t, j, peer, now) { assert j in done; }
  }

  lemma PlannedIff(t: Tables, done: set<nat>, served: seq<Slot>, k: nat, peer: nat, now: Time)
    requires Slots(t, done, served, now) && forall j | j in done :: j < k
    ensures RepairPlanned(t, served, peer, now) == Repeated(t, served, Slot(k, peer), now)
  {}

  lemma NewSlots(t: Tables, first: seq<Outbound>, done: set<nat>, a: Pass, served: seq<Slot>,
                 k: nat, c: Tables, mine: seq<nat>, r: Pass, m: nat, now: Time)
    requires KeptNext(t, first, done, a, served, k, c, mine, r, now) && KeptSample(a.t, k, r.t)
    requires Awaits(t, Slot(k, m), now)
    ensures SlotServed(t, served + SlotsOf(k, mine), r.outbound, r.t, Slot(k, m), now)
  {
    InSlotsOf(k, mine);
    var s := Slot(k, m);
    assert s !in served;
    CutIsFull(t, done, served, k, mine, r.outbound, m, now);
    RepeatedSame(t, served, k, mine, s, now);
    PausedIff(t, done, a.t, k, m, now);
    PlannedIff(t, done, served, k, m, now);
    assert PeerServed(a.(t := c), k, mine, r, m, now);
  }

  lemma OldChecks(t: Tables, done: set<nat>, served: seq<Slot>, outbound: seq<Outbound>, k: nat, mine: seq<nat>,
                  after: seq<Outbound>, x: Check, now: Time)
    requires x.sequence in done ==> x.sequence < k
    requires x.sequence != k && |after| == |outbound| + |mine| && (mine != [] ==> |outbound| < 6)
    ensures SlotChecked(t, done + {k}, served + SlotsOf(k, mine), after, x, now) == SlotChecked(t, done, served, outbound, x, now)
  {
    if x.sequence in done { CutSame(t, done, outbound, served, k, mine, after, Slot(x.sequence, x.destination)); }
  }

  lemma NewChecks(t: Tables, done: set<nat>, served: seq<Slot>, k: nat, c: Pending, mine: seq<nat>, after: seq<Outbound>,
                  x: Check, now: Time)
    requires Slots(t, done, served, now) && (forall j | j in done :: j < k) && Live(t, k, now) && x.sequence == k
    requires c.awaiting == t.pending[k].awaiting && c.nativeReleases == t.pending[k].nativeReleases
    ensures SlotChecked(t, done + {k}, served + SlotsOf(k, mine), after, x, now)
        == ChecksIt(c, k, Ascending(t.pending[k].awaiting.Keys), mine, after, x, now)
  {
    CutIsFull(t, done, served, k, mine, after, x.destination, now);
  }

  lemma ChecksMore(t: Tables, first: seq<Outbound>, done: set<nat>, a: Pass, served: seq<Slot>,
                   k: nat, c: Tables, mine: seq<nat>, r: Pass, now: Time)
    requires KeptNext(t, first, done, a, served, k, c, mine, r, now)
    ensures SlotChecks(t, done + {k}, served + SlotsOf(k, mine), r.outbound, r.checks, now)
  {
    forall x ensures x in r.checks <==> SlotChecked(t, done + {k}, served + SlotsOf(k, mine), r.outbound, x, now) {
      assert x in a.checks <==> SlotChecked(t, done, served, a.outbound, x, now);
      if x.sequence == k {
        NewChecks(t, done, served, k, c.pending[k], mine, r.outbound, x, now);
      } else {
        OldChecks(t, done, served, a.outbound, k, mine, r.outbound, x, now);
      }
    }
  }

  lemma PlannedMore(t: Tables, served: seq<Slot>, k: nat, mine: seq<nat>, peer: nat, now: Time)
    ensures RepairPlanned(t, served + SlotsOf(k, mine), peer, now) ==
            (RepairPlanned(t, served, peer, now) || (peer in mine && Repairs(t, Slot(k, peer), now)))
  {
    InSlotsOf(k, mine);
    var all := served + SlotsOf(k, mine);
    if x :| x in served && x.peer == peer && Repairs(t, x, now) { assert x in all; }
    if peer in mine { assert Slot(k, peer) in all; }
  }

  lemma ScheduledMore(t: Tables, first: seq<Outbound>, done: set<nat>, a: Pass, served: seq<Slot>,
                      k: nat, c: Tables, mine: seq<nat>, r: Pass, now: Time)
    requires KeptNext(t, first, done, a, served, k, c, mine, r, now)
    ensures forall peer :: peer in r.scheduled <==> RepairPlanned(t, served + SlotsOf(k, mine), peer, now)
  {
    assert ScheduledBy(a.(t := c), k, mine, r, now);
    forall peer ensures peer in r.scheduled <==> RepairPlanned(t, served + SlotsOf(k, mine), peer, now) {
      PlannedMore(t, served, k, mine, peer, now);
      assert peer in a.scheduled <==> RepairPlanned(t, served, peer, now);
    }
  }

  lemma AllSlots(t: Tables, first: seq<Outbound>, done: set<nat>, a: Pass, served: seq<Slot>,
                 k: nat, c: Tables, mine: seq<nat>, r: Pass, now: Time)
    requires KeptNext(t, first, done, a, served, k, c, mine, r, now) && KeptSample(a.t, k, r.t)
    ensures SlotsServed(t, done + {k}, served + SlotsOf(k, mine), r.outbound, r.t, now)
  {
    forall s: Slot | s.sequence in done + {k} && Awaits(t, s, now)
      ensures SlotServed(t, served + SlotsOf(k, mine), r.outbound, r.t, s, now)
    {
      if s.sequence == k {
        NewSlots(t, first, done, a, served, k, c, mine, r, s.peer, now);
      } else {
        OldSlots(t, first, done, a, served, k, c, mine, r, s, now);
      }
    }
  }

  lemma KeptTables(t: Tables, done: set<nat>, a: Tables, k: nat, r: Tables, now: Time)
    requires Ahead(t, done, a, now) && PeersMoved(t, done, a, now) && ValuesMoved(t, done, a, now)
    requires Live(t, k, now) && k !in done && KeptSample(a, k, r)
    requires forall j | j in t.pending && j !in done :: k <= j
    ensures Ahead(t, done + {k}, r, now) && PeersMoved(t, done + {k}, r, now) && ValuesMoved(t, done + {k}, r, now)
  {
    AheadKept(t, done, a, k, r, now);
    PeersMove(t, done, a, k, r, now);
    ValuesKept(t, done, a, k, r, now);
  }

  lemma KeptStep(t: Tables, first: seq<Outbound>, done: set<nat>, a: Pass, served: seq<Slot>,
                 k: nat, c: Tables, mine: seq<nat>, r: Pass, now: Time)
    requires KeptNext(t, first, done, a, served, k, c, mine, r, now)
    ensures Serving(t, first, done + {k}, r, served + SlotsOf(k, mine), now)
  {
    KeptIsKept(a, k, c, mine, r, now);
    KeptTables(t, done, a.t, k, r.t, now);
    SlotsMore(t, first, done, a, served, k, c, mine, r, now);
    FramesMore(t, first, done, a, served, k, c, mine, r, now);
    AllSlots(t, first, done, a, served, k, c, mine, r, now);
    ChecksMore(t, first, done, a, served, k, c, mine, r, now);
    ScheduledMore(t, first, done, a, served, k, c, mine, r, now);
  }

  lemma ServeNext(t: Tables, first: seq<Outbound>, done: set<nat>, a: Pass, served: seq<Slot>, k: nat, now: Time)
    returns (more: seq<Slot>)
    requires Serving(t, first, done, a, served, now) && k in t.pending && k !in done
    requires forall j | j in t.pending && j !in done :: k <= j
    ensures Serving(t, first, done + {k}, SampleStep(a, k, now), more, now)
  {
    assert k in a.t.pending && a.t.pending[k] == t.pending[k];
    if Live(t, k, now) {
      var mine := KeptAndServed(a, k, now);
      more := served + SlotsOf(k, mine);
      KeptStep(t, first, done, a, served, k, Coalesce(a.t, k), mine, SampleStep(a, k, now), now);
    } else {
      more := served;
      GivenUp(a, k, now);
      GivenStep(t, first, done, a, served, k, SampleStep(a, k, now), now);
    }
  }

  lemma {:induction false} ServeAll(t: Tables, first: seq<Outbound>, done: set<nat>, a: Pass, served: seq<Slot>,
                                    keys: seq<nat>, now: Time) returns (all: seq<Slot>)
    requires Serving(t, first, done, a, served, now) && StrictlySorted(keys)
    requires forall k :: k in keys <==> k in t.pending && k !in done
    ensures Serving(t, first, t.pending.Keys, SamplesPass(a, keys, now), all, now)
    decreases |keys|
  {
    if keys == [] {
      assert done == t.pending.Keys;
      all := served;
    } else {
      FirstOf(keys);
      var more := ServeNext(t, first, done, a, served, keys[0], now);
      all := ServeAll(t, first, done + {keys[0]}, SampleStep(a, keys[0], now), more, keys[1..], now);
    }
  }

  // ---------------------------------------------------------------- the values that become ready

  ghost predicate Readied(t: Tables, ready: seq<Offer>, channels: seq<nat>, after: Tables, out: seq<Offer>) {
    && after == t.(latest := after.latest) && SubMap(after.latest, t.latest)
    && (forall c :: c in after.latest <==> c in t.latest && (c in channels ==> Busy(t.pending, c)))
    && (forall o :: o in out <==> o in ready || Leaves(t, channels, o))
  }

  lemma {:induction false} ReadyExactly(t: Tables, ready: seq<Offer>, channels: seq<nat>)
    requires StrictlySorted(channels)
    ensures Readied(t, ready, channels, ReadyPass(t, ready, channels).0, ReadyPass(t, ready, channels).1)
    decreases |channels|
  {
    if channels != [] {
      var c := channels[0];
      if c !in t.latest || Busy(t.pending, c) {
        ReadyExactly(t, ready, channels[1..]);
        ReadiedStep(t, ready, channels, t, ready, ReadyPass(t, ready, channels).0, ReadyPass(t, ready, channels).1);
      } else {
        var mid := t.(latest := t.latest - {c});
        ReadyExactly(mid, ready + [t.latest[c]], channels[1..]);
        ReadiedStep(t, ready, channels, mid, ready + [t.latest[c]], ReadyPass(t, ready, channels).0, ReadyPass(t, ready, channels).1);
      }
    }
  }

  ghost predicate Frees(t: Tables, c: nat) { c in t.latest && !Busy(t.pending, c) }

  lemma ReadiedStep(t: Tables, ready: seq<Offer>, channels: seq<nat>, mid: Tables, more: seq<Offer>, after: Tables, out: seq<Offer>)
    requires channels != [] && StrictlySorted(channels) && Readied(mid, more, channels[1..], after, out)
    requires if Frees(t, channels[0])
             then mid == t.(latest := t.latest - {channels[0]}) && more == ready + [t.latest[channels[0]]]
             else mid == t && more == ready
    ensures Readied(t, ready, channels, after, out)
  {
    FirstOf(channels);
    LeavesRest(t, mid, channels);
  }

  /** The value of a free channel. */
  ghost predicate Leaves(t: Tables, channels: seq<nat>, o: Offer) {
    exists c | c in channels :: c in t.latest && !Busy(t.pending, c) && t.latest[c] == o
  }

  lemma LeavesRest(t: Tables, mid: Tables, channels: seq<nat>)
    requires channels != [] && StrictlySorted(channels)
    requires mid.pending == t.pending
    requires if Frees(t, channels[0]) then mid.latest == t.latest - {channels[0]} else mid == t
    ensures forall o :: Leaves(t, channels, o) == (Leaves(mid, channels[1..], o) || (Frees(t, channels[0]) && t.latest[channels[0]] == o))
  {
    FirstOf(channels);
    forall o ensures Leaves(t, channels, o) == (Leaves(mid, channels[1..], o) || (Frees(t, channels[0]) && t.latest[channels[0]] == o)) {
      if Leaves(mid, channels[1..], o) {
        var c :| c in channels[1..] && c in mid.latest && !Busy(mid.pending, c) && mid.latest[c] == o;
        assert c in channels;
      }
      if Leaves(t, channels, o) {
        var c :| c in channels && c in t.latest && !Busy(t.pending, c) && t.latest[c] == o;
        assert c == channels[0] || c in channels[1..];
      }
    }
  }

  // ---------------------------------------------------------------- the whole tick

  /** A live sample keeps the channel to itself. */
  ghost predicate Blocked(t: Tables, c: nat, now: Time) {
    exists k | k in t.pending :: Live(t, k, now) && t.pending[k].channel == c && t.pending[k].blocks
  }

  /** A waiting value that no sample takes stays while its channel is blocked and is ready otherwise. */
  ghost predicate ValuesPlaced(t: Tables, tick: Tick, now: Time) {
    && SubMap(tick.t.latest, t.latest)
    && (forall c :: c in tick.t.latest <==> c in t.latest && !Taken(t, t.pending.Keys, c, now) && Blocked(t, c, now))
    && (forall o :: o in tick.ready <==> BecomesReady(t, o, now))
  }

  ghost predicate BecomesReady(t: Tables, o: Offer, now: Time) {
    exists c | c in t.latest :: t.latest[c] == o && !Taken(t, t.pending.Keys, c, now) && !Blocked(t, c, now)
  }

  ghost predicate AcksFirst(t: Tables, outbound: seq<Outbound>) {
    && AckCount(t) <= |outbound|
    && forall i | 0 <= i < AckCount(t) :: outbound[i]
         == Outbound(t.acks[i].destination, t.acks[i].appKey, 0, false, true, t.acks[i].data, None, 0)
  }

  ghost predicate SamplesAfter(t: Tables, after: Tables, now: Time) {
    && (forall k :: k in after.pending <==> Live(t, k, now))
    && (forall k | k in after.pending :: SampleAfter(t, k, after, now))
  }

  /** Everything a tick does. `served` are the awaited peers it built a frame for, in ascending order:
      the receipts first, then one frame for each due peer until six are built. */
  ghost predicate TickServed(t: Tables, tick: Tick, served: seq<Slot>, now: Time) {
    && AcksFirst(t, tick.outbound) && Slots(t, t.pending.Keys, served, now)
    && |tick.outbound| == AckCount(t) + |served|
    && (forall i | 0 <= i < |served| :: SlotFrame(t, tick.t, served[i], tick.outbound[AckCount(t) + i], now))
    && SlotsServed(t, t.pending.Keys, served, tick.outbound, tick.t, now)
    && SlotChecks(t, t.pending.Keys, served, tick.outbound, tick.checks, now)
    && SamplesAfter(t, tick.t, now) && PeersMoved(t, t.pending.Keys, tick.t, now) && ValuesPlaced(t, tick, now)
  }

  lemma StartServing(t: Tables, now: Time)
    ensures var start := TickStart(t, now);
            Serving(t, start.outbound, {}, start, [], now) && |start.outbound| == AckCount(t) && AcksFirst(t, start.outbound)
  {
    var start := TickStart(t, now);
    StartSummary(t, now);
    forall peer: nat ensures BackedOff(PeerOf(t.peers, peer), |MissedBy(t, {}, peer, now)|, PeerOf(start.t.peers, peer), now) {
      assert MissedBy(t, {}, peer, now) == {};
    }
  }

  lemma BusyIffBlocked(t: Tables, after: Tables, c: nat, now: Time)
    requires SamplesAfter(t, after, now)
    ensures Busy(after.pending, c) <==> Blocked(t, c, now)
  {
    if Busy(after.pending, c) {
      var k :| k in after.pending && after.pending[k].channel == c && after.pending[k].blocks;
      assert SampleAfter(t, k, after, now);
    }
    if Blocked(t, c, now) {
      var k :| k in t.pending && Live(t, k, now) && t.pending[k].channel == c && t.pending[k].blocks;
      assert SampleAfter(t, k, after, now);
    }
  }

  lemma PlaceValues(t: Tables, a: Tables, tick: Tick, now: Time)
    requires ValuesMoved(t, t.pending.Keys, a, now) && SamplesAfter(t, a, now)
    requires Readied(a, [], Ascending(a.latest.Keys), tick.t, tick.ready)
    ensures ValuesPlaced(t, tick, now)
  {
    var channels := Ascending(a.latest.Keys);
    forall c ensures c in tick.t.latest <==> c in t.latest && !Taken(t, t.pending.Keys, c, now) && Blocked(t, c, now) {
      BusyIffBlocked(t, a, c, now);
    }
    forall o ensures o in tick.ready <==> BecomesReady(t, o, now) {
      if o in tick.ready {
        var c :| c in channels && c in a.latest && !Busy(a.pending, c) && a.latest[c] == o;
        BusyIffBlocked(t, a, c, now);
      }
      if BecomesReady(t, o, now) {
        var c :| c in t.latest && t.latest[c] == o && !Taken(t, t.pending.Keys, c, now) && !Blocked(t, c, now);
        BusyIffBlocked(t, a, c, now);
        assert c in channels;
      }
    }
  }

  lemma PassedSamples(t: Tables, a: Tables, now: Time)
    requires Ahead(t, t.pending.Keys, a, now) && ValuesMoved(t, t.pending.Keys, a, now)
    ensures SamplesAfter(t, a, now)
  {
    forall k | Live(t, k, now) ensures k in a.pending && SampleAfter(t, k, a, now) { assert k in t.pending.Keys; }
  }

  lemma PassedTick(t: Tables, first: seq<Outbound>, a: Pass, served: seq<Slot>, tick: Tick, now: Time)
    requires Serving(t, first, t.pending.Keys, a, served, now) && |first| == AckCount(t) && AcksFirst(t, first)
    requires Readied(a.t, [], Ascending(a.t.latest.Keys), tick.t, tick.ready)
    requires tick.outbound == a.outbound && tick.checks == a.checks
    ensures TickServed(t, tick, served, now)
  {
    PassedTables(t, first, a, served, tick, now);
    AcksStay(t, first, tick.outbound);
    PassedSlots(t, first, a, served, tick, now);
  }

  lemma PassedTables(t: Tables, first: seq<Outbound>, a: Pass, served: seq<Slot>, tick: Tick, now: Time)
    requires Serving(t, first, t.pending.Keys, a, served, now)
    requires Readied(a.t, [], Ascending(a.t.latest.Keys), tick.t, tick.ready)
    ensures SamplesAfter(t, tick.t, now) && PeersMoved(t, t.pending.Keys, tick.t, now) && ValuesPlaced(t, tick, now)
  {
    PassedSamples(t, a.t, now);
    PlaceValues(t, a.t, tick, now);
    forall k | k in tick.t.pending ensures SampleAfter(t, k, tick.t, now) { assert SampleAfter(t, k, a.t, now); }
  }

  lemma AcksStay(t: Tables, first: seq<Outbound>, outbound: seq<Outbound>)
    requires |first| == AckCount(t) && AcksFirst(t, first) && |first| <= |outbound| && outbound[..|first|] == first
    ensures AcksFirst(t, outbound)
  {
    forall i | 0 <= i < AckCount(t) ensures outbound[i] == first[i] { assert outbound[i] == outbound[..|first|][i]; }
  }

  lemma PassedSlots(t: Tables, first: seq<Outbound>, a: Pass, served: seq<Slot>, tick: Tick, now: Time)
    requires Serving(t, first, t.pending.Keys, a, served, now) && |first| == AckCount(t)
    requires tick.t.pending == a.t.pending && tick.outbound == a.outbound
    ensures forall i | 0 <= i < |served| :: SlotFrame(t, tick.t, served[i], tick.outbound[AckCount(t) + i], now)
    ensures SlotsServed(t, t.pending.Keys, served, tick.outbound, tick.t, now)
  {
    forall i | 0 <= i < |served| ensures SlotFrame(t, tick.t, served[i], tick.outbound[AckCount(t) + i], now) {
      assert SlotFrame(t, a.t, served[i], a.outbound[|first| + i], now);
    }
    forall s: Slot | s.sequence in t.pending.Keys && Awaits(t, s, now)
      ensures SlotServed(t, served, tick.outbound, tick.t, s, now)
    {
      assert SlotServed(t, served, a.outbound, a.t, s, now);
    }
  }

  /** Exactly what a tick builds, checks, backs off and releases, for all tables. */
  lemma TickServes(t: Tables, now: Time) returns (served: seq<Slot>)
    ensures TickServed(t, TickLocked(t, now), served, now)
  {
    var start := TickStart(t, now);
    var keys := Ascending(t.pending.Keys);
    StartServing(t, now);
    served := ServeAll(t, start.outbound, {}, start, [], keys, now);
    var a := SamplesPass(start, keys, now);
    ReadyExactly(a.t, [], Ascending(a.t.latest.Keys));
    PassedTick(t, start.outbound, a, served, TickLocked(t, now), now);
  }

  /** A frame for this awaited peer is among the frames of the tick. */
  ghost predicate FrameIn(t: Tables, tick: Tick, s: Slot, now: Time) {
    exists i | 0 <= i < |tick.outbound| :: SlotFrame(t, tick.t, s, tick.outbound[i], now)
  }

  /** A due frame is built unless six were; a repair may also wait for a paused peer, or for the repair that
      goes to the same peer for an earlier sample. */
  ghost predicate DueServed(t: Tables, tick: Tick, s: Slot, now: Time)
    requires Awaits(t, s, now)
  {
    var x := TargetOf(t, s);
    && s.sequence in tick.t.pending && s.peer in tick.t.pending[s.sequence].awaiting
    && (QueryDue(x, now) && |tick.outbound| < 6 ==>
          FrameIn(t, tick, s, now) && TargetOf(tick.t, s).queryAt == now + 2_000)
    && (RepairDue(x, now) && |tick.outbound| < 6 && !Paused(t, s, now) ==>
          || (FrameIn(t, tick, s, now) && TargetOf(tick.t, s).attempts == x.attempts + 1)
          || OtherRepair(t, tick, s, now))
  }

  ghost predicate OtherRepair(t: Tables, tick: Tick, s: Slot, now: Time) {
    exists x: Slot :: x.sequence < s.sequence && x.peer == s.peer && Repairs(t, x, now) && FrameIn(t, tick, x, now)
  }

  /** Every due awaited peer of a live sample is served. */
  lemma DueFrameBuilt(t: Tables, s: Slot, now: Time)
    requires Awaits(t, s, now)
    ensures DueServed(t, TickLocked(t, now), s, now)
  {
    var tick := TickLocked(t, now);
    var served := TickServes(t, now);
    assert SlotServed(t, served, tick.outbound, tick.t, s, now);
    if s in served {
      ServedFrame(t, tick, served, s, now);
    } else if Repeated(t, served, s, now) {
      var x :| x in served && x.sequence < s.sequence && x.peer == s.peer && Repairs(t, x, now);
      ServedFrame(t, tick, served, x, now);
      assert OtherRepair(t, tick, s, now);
    }
  }

  lemma ServedFrame(t: Tables, tick: Tick, served: seq<Slot>, s: Slot, now: Time)
    requires TickServed(t, tick, served, now) && s in served
    ensures FrameIn(t, tick, s, now)
  {
    var i :| 0 <= i < |served| && served[i] == s;
    assert SlotFrame(t, tick.t, s, tick.outbound[AckCount(t) + i], now);
  }

  /** After a tick nothing waits: every value of a bridge frame is in the lowest live sample of its channel
      or in the ready list. */
  lemma NothingWaits(t: Tables, now: Time)
    requires forall c | c in t.latest :: |t.latest[c].payload| >= VENDOR_PREFIX_BYTES + BRIDGE_FRAME_PREFIX_BYTES
    ensures TickLocked(t, now).t.latest == map[]
  {
    var served := TickServes(t, now);
    var tick := TickLocked(t, now);
    forall c ensures c !in tick.t.latest {
      if c in t.latest && Blocked(t, c, now) { BlockedTakes(t, c, now); }
    }
  }

  lemma BlockedTakes(t: Tables, c: nat, now: Time)
    requires c in t.latest && |t.latest[c].payload| >= VENDOR_PREFIX_BYTES + BRIDGE_FRAME_PREFIX_BYTES && Blocked(t, c, now)
    ensures Taken(t, t.pending.Keys, c, now)
  {
    var k :| k in t.pending && Live(t, k, now) && t.pending[k].channel == c && t.pending[k].blocks;
    assert k in t.pending.Keys && Coalesces(t, t.pending[k]);
  }
}
