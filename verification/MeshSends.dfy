/** Exactly what the send routine decides and records: the gate, the probe, the turn, the plan, the sample it
    creates or evicts, and how a refused or failed transmission is retried. */
module MeshSends {
  import opened MeshFrame
  import opened Ordered
  import opened TurnRing
  import opened MeshTables
  import MeshInvariant

  // ---------------------------------------------------------------- before a sequence is allocated

  ghost predicate SlotHolds(t: Tables, after: Tables, channel: nat, offer: Offer) {
    after == t.(latest := after.latest) && after.latest == t.latest[channel := offer]
  }

  ghost predicate SlotCleared(t: Tables, after: Tables, channel: nat) {
    && after == t.(latest := after.latest)
    && (forall c :: c in after.latest <==> c in t.latest && c != channel)
    && (forall c | c in after.latest :: after.latest[c] == t.latest[c])
  }

  /** A value goes on to planning exactly when the node is ready, the bridge reliable and coordinated, the payload a
      bridge frame, no sample of the channel blocks it, and it is not a resumed value that a newer one replaced. */
  ghost predicate Gated(t: Tables, offer: Offer, resumed: bool, ready: bool, coordinated: bool, after: Tables, result: GateResult) {
    var channel := ChannelOf(offer.bridge);
    var replaced := resumed && channel in t.latest;
    var blocked := exists k | k in t.pending :: t.pending[k].channel == channel && t.pending[k].blocks;
    var reliable := offer.bridge.reliable && coordinated;
    && (result == Proceed <==> ready && !replaced && reliable && IsBridgeFrame(offer.payload) && !blocked)
    && (result == Direct <==> ready && !replaced && !reliable)
    && (result == Rejected <==> ready && !replaced && reliable && !IsBridgeFrame(offer.payload))
    && (result == Superseded <==> ready && replaced)
    && (if replaced then after == t
        else if result == Stored then SlotHolds(t, after, channel, offer)
        else SlotCleared(t, after, channel))
  }

  lemma GatedExactly(t: Tables, offer: Offer, resumed: bool, ready: bool, coordinated: bool)
    ensures var r := Gate(t, offer, resumed, ready, coordinated); Gated(t, offer, resumed, ready, coordinated, r.0, r.1)
  {
    var channel := ChannelOf(offer.bridge);
    assert (t.latest - {channel})[channel := offer] == t.latest[channel := offer];
    if resumed && channel !in t.latest { assert t.latest - {channel} == t.latest; }
  }

  // ---------------------------------------------------------------- the probe

  predicate Pausing(t: Tables, peer: nat, now: Time) { PeerOf(t.peers, peer).retryAfter > now }

  function Candidate(t: Tables, probes: seq<nat>, offset: nat): nat
    requires probes != []
  { probes[(t.probeCursor + offset) % |probes|] }

  lemma {:induction false} FoundProbe(t: Tables, probes: seq<nat>, now: Time, offset: nat)
    requires probes != [] && offset <= |probes|
    ensures match FindProbe(t, probes, now, offset)
            case None => forall o: nat | offset <= o < |probes| :: Pausing(t, Candidate(t, probes, o), now)
            case Some(index) => FirstDue(t, probes, now, offset, index)
    decreases |probes| - offset
  {
    if offset < |probes| && Pausing(t, Candidate(t, probes, offset), now) {
      FoundProbe(t, probes, now, offset + 1);
      match FindProbe(t, probes, now, offset + 1)
      case None =>
      case Some(index) =>
        var o: nat :| offset + 1 <= o < |probes| && FirstDueAt(t, probes, now, offset + 1, o, index);
        assert FirstDueAt(t, probes, now, offset, o, index);
    } else if offset < |probes| {
      assert FirstDueAt(t, probes, now, offset, offset, (t.probeCursor + offset) % |probes|);
    }
  }

  ghost predicate FirstDueAt(t: Tables, probes: seq<nat>, now: Time, from: nat, o: nat, index: nat)
    requires probes != []
  {
    && index == (t.probeCursor + o) % |probes| && !Pausing(t, probes[index], now)
    && forall e: nat | from <= e < o :: Pausing(t, Candidate(t, probes, e), now)
  }

  /** `index` is the first candidate from the cursor on, wrapping around, whose peer does not back off. */
  ghost predicate FirstDue(t: Tables, probes: seq<nat>, now: Time, from: nat, index: nat)
    requires probes != []
  {
    exists o: nat :: from <= o < |probes| && FirstDueAt(t, probes, now, from, o, index)
  }

  /** Every candidate is visited once within one turn of the cursor. */
  lemma CandidateAt(t: Tables, probes: seq<nat>, j: nat) returns (o: nat)
    requires j < |probes|
    ensures o < |probes| && Candidate(t, probes, o) == probes[j]
  {
    var n := |probes|;
    var c := t.probeCursor % n;
    o := if j >= c then j - c else j + n - c;
    Cyclic(t.probeCursor, o, n);
  }

  lemma Cyclic(x: nat, o: nat, n: nat)
    requires o < n
    ensures (x + o) % n == if x % n + o < n then x % n + o else x % n + o - n
  {
    var q, r := x / n, x % n;
    if r + o < n { Quotient(x + o, q, r + o, n); } else { Quotient(x + o, q + 1, r + o - n, n); }
  }

  lemma Quotient(x: nat, q: nat, r: nat, n: nat)
    requires r < n && x == q * n + r
    ensures x % n == r
  {
    var d := x / n - q;
    assert x == n * (x / n) + x % n;
    assert n * d == r - x % n;
    Multiple(n, d);
  }

  lemma Multiple(n: nat, d: int)
    ensures d >= 1 ==> n * d >= n
    ensures d <= -1 ==> n * d <= -(n as int)
  {}

  /** One unheard peer is probed when the period has passed: the first in cyclic order from the cursor that does not
      back off, none exactly when all of them do. The cursor then stands behind it. */
  ghost predicate Probed(t: Tables, env: PlanEnv, after: Tables, probed: seq<nat>) {
    if env.probes == [] || env.now < t.nextProbeAt || forall p | p in env.probes :: Pausing(t, p, env.now)
    then after == t && probed == []
    else
      exists index: nat :: index < |env.probes| && FirstDue(t, env.probes, env.now, 0, index)
        && probed == [env.probes[index]]
        && after == t.(probeCursor := index + 1, nextProbeAt := env.now + 10_000)
  }

  lemma ProbedExactly(t: Tables, env: PlanEnv)
    ensures Probed(t, env, Probe(t, env).0, Probe(t, env).1)
  {
    if env.probes != [] && env.now >= t.nextProbeAt {
      FoundProbe(t, env.probes, env.now, 0);
      match FindProbe(t, env.probes, env.now, 0)
      case None =>
        forall p | p in env.probes ensures Pausing(t, p, env.now) {
          var j :| 0 <= j < |env.probes| && env.probes[j] == p;
          var o := CandidateAt(t, env.probes, j);
        }
      case Some(index) =>
    }
  }

  // ---------------------------------------------------------------- the turn and the plan

  /** The channel has no turn record of this node yet. */
  predicate FirstUse(turns: map<nat, Turn>, channel: nat) { channel !in turns || !turns[channel].initialized }

  /** This node may send: it was permitted, or it is the lowest member and either uses the channel for the first time
      or the turn has been silent past its deadline. */
  predicate MaySend(turns: map<nat, Turn>, channel: nat, members: seq<nat>, local: nat, now: Time)
    requires members != []
  {
    if FirstUse(turns, channel) then members[0] == local
    else turns[channel].permitted || (members[0] == local && now >= turns[channel].reclaimAt)
  }

  lemma TurnExactly(turns: map<nat, Turn>, channel: nat, members: seq<nat>, local: nat, now: Time)
    requires members != []
    ensures var turn := TurnAt(turns, channel, members, local, now);
            && (turn.permitted <==> MaySend(turns, channel, members, local, now))
            && turn.initialized && turn.members == members
            && turn.reclaimAt == (if FirstUse(turns, channel) then now + 12_000 else turns[channel].reclaimAt)
  {}

  /** The counter moves to the first free sequence after it. */
  ghost predicate NextFree(t: Tables, counter: nat) {
    exists k: nat :: MeshInvariant.FirstFree(t.nextSequence, t.pending.Keys, k)
      && counter == MeshInvariant.CounterAfter(t.nextSequence, k)
  }

  /** With a known ring the channel's turn is refreshed; other channels are not touched. */
  ghost predicate TurnsAfter(t: Tables, channel: nat, env: PlanEnv, after: Tables) {
    && (forall c | c in t.turns && c != channel :: c in after.turns && after.turns[c] == t.turns[c])
    && (if env.peers != [] && env.local != 0
        then channel in after.turns
             && (after.turns[channel].permitted <==> MaySend(t.turns, channel, TurnMembers(env.local, env.peers), env.local, env.now))
        else after.turns == t.turns)
  }

  ghost predicate PlanIs(t: Tables, env: PlanEnv, probed: seq<nat>, after: Tables, plan: Plan) {
    && StrictlySorted(plan.targets) && (forall a :: a in plan.targets <==> a in env.peers || a in probed)
    && plan.sequence == after.nextSequence % 0x1_0000 && NextFree(t, after.nextSequence)
    && (plan.consumes <==> env.peers != [] && env.local != 0)
    && plan.successor == (if plan.consumes then Successor(TurnMembers(env.local, env.peers), env.local) else 0)
  }

  /** A plan is made exactly when somebody can be addressed and, with a known ring, this node may send; otherwise
      the value is stored. The targets are the live peers and the probed one. */
  ghost predicate Planned(t: Tables, offer: Offer, resumed: bool, env: PlanEnv, probed: seq<nat>, after: Tables, plan: Option<Plan>) {
    var channel := ChannelOf(offer.bridge);
    var ring := env.peers != [] && env.local != 0;
    && (plan.Some? <==>
          ((env.peers != [] || probed != [])
           && (ring ==> MaySend(t.turns, channel, TurnMembers(env.local, env.peers), env.local, env.now))))
    && (plan.Some? ==> PlanIs(t, env, probed, after, plan.value))
    && after.latest == (if plan.Some? || (resumed && channel in t.latest) then t.latest else t.latest[channel := offer])
    && TurnsAfter(t, channel, env, after)
    && after == t.(latest := after.latest, turns := after.turns, nextSequence := after.nextSequence,
                   nextProbeAt := after.nextProbeAt, probeCursor := after.probeCursor)
  }

  lemma RingExactly(t: Tables, offer: Offer, resumed: bool, env: PlanEnv, sequence: nat, targets: seq<nat>)
    ensures var r := PlanRing(t, offer, resumed, env, sequence, targets); var channel := ChannelOf(offer.bridge);
            var ring := env.peers != [] && env.local != 0;
            && (r.1.Some? <==> (ring ==> MaySend(t.turns, channel, TurnMembers(env.local, env.peers), env.local, env.now)))
            && (r.1.Some? ==>
                  r.1.value == Plan(sequence, targets, if ring then Successor(TurnMembers(env.local, env.peers), env.local) else 0, ring))
            && r.0.latest == (if r.1.Some? || (resumed && channel in t.latest) then t.latest else t.latest[channel := offer])
            && TurnsAfter(t, channel, env, r.0)
  {
    TurnExactly(t.turns, ChannelOf(offer.bridge), TurnMembers(env.local, env.peers), env.local, env.now);
  }

  lemma TargetsAre(env: PlanEnv, probed: seq<nat>) returns (targets: seq<nat>)
    ensures targets == Ascending(set a | a in env.peers + probed) && StrictlySorted(targets)
    ensures forall a :: a in targets <==> a in env.peers || a in probed
    ensures targets == [] <==> env.peers == [] && probed == []
  {
    targets := Ascending(set a | a in env.peers + probed);
    if env.peers != [] { assert env.peers[0] in targets; }
    if probed != [] { assert probed[0] in targets; }
  }

  lemma PlannedExactly(t: Tables, offer: Offer, resumed: bool, env: PlanEnv)
    requires |t.pending| <= MAX_PENDING_SAMPLES
    ensures var r := PlanSend(t, offer, resumed, env);
            Planned(t, offer, resumed, env, Probe(t, env).1, r.0, r.1)
  {
    var (t1, probed) := Probe(t, env);
    var targets := TargetsAre(env, probed);
    if targets != [] {
      var k := MeshInvariant.AllocateIsFirstFree(t1.nextSequence, t1.pending.Keys);
      var counter := Allocate(t1.nextSequence, t1.pending.Keys);
      assert NextFree(t, counter);
      RingExactly(t1.(nextSequence := counter), offer, resumed, env, counter % 0x1_0000, targets);
    }
  }

  // ---------------------------------------------------------------- the sample

  /** Sample `k` is evicted: the oldest one, the lowest sequence among equally old ones. */
  ghost predicate Evicts(t: Tables, k: nat) {
    && k in t.pending
    && forall j | j in t.pending :: t.pending[k].created < t.pending[j].created || (t.pending[k].created == t.pending[j].created && k <= j)
  }

  lemma {:induction false} OldestIsFirst(pending: map<nat, Pending>, keys: seq<nat>)
    requires keys != [] && StrictlySorted(keys) && forall k | k in keys :: k in pending
    ensures var k := OldestIn(pending, keys);
            forall j | j in keys :: pending[k].created < pending[j].created || (pending[k].created == pending[j].created && k <= j)
  {
    if |keys| > 1 {
      OldestIsFirst(pending, keys[1..]);
      assert forall j :: j in keys <==> j == keys[0] || j in keys[1..];
    }
  }

  /** Every target starts without a transfer, is asked for its receipt after 2 s and repaired after 5 s. */
  ghost predicate Fresh(offer: Offer, plan: Plan, swarm: nat, sample: nat, now: Time, p: Pending) {
    && (forall a :: a in p.awaiting <==> a in plan.targets)
    && (forall a | a in p.awaiting :: p.awaiting[a] == Target(0, None, now + 5_000, now + 2_000, now))
    && p.primary == None && p.blocks && p.created == now
    && p.channel == ChannelOf(offer.bridge) && p.appKey == offer.bridge.appKey && p.element == offer.bridge.element
    && p.segmented == offer.bridge.segmented && p.successor == plan.successor
    && (p.nativeReleases <==> |plan.targets| == 1)
    && IsDataFrame(p.data) && p.data[3] == 0xd4 && p.sample == sample && p.age == offer.age
    && (plan.sequence < 0x1_0000 && swarm < 0x1_0000 ==>
          Sequence(p.data) == plan.sequence && SwarmId(p.data) == swarm && Reconstruct(p.data) == offer.payload)
  }

  ghost predicate EvictedFor(t: Tables, k: nat, sequence: nat, after: Tables) {
    && Evicts(t, k) && after.cancellations == t.cancellations + SampleHandles(t.pending[k])
    && after.pending - {sequence} == t.pending - {k}
  }

  /** A full table first loses its oldest sample, whose handles are queued; then the new sample is entered. */
  ghost predicate Enqueued(t: Tables, offer: Offer, plan: Plan, swarm: nat, sample: nat, now: Time, after: Tables) {
    && after == t.(pending := after.pending, cancellations := after.cancellations)
    && plan.sequence in after.pending && Fresh(offer, plan, swarm, sample, now, after.pending[plan.sequence])
    && (if |t.pending| >= 32
        then exists k :: EvictedFor(t, k, plan.sequence, after)
        else after.cancellations == t.cancellations && after.pending - {plan.sequence} == t.pending)
  }

  lemma OldestEvicted(t: Tables)
    requires t.pending != map[]
    ensures Evicts(t, OldestIn(t.pending, Ascending(t.pending.Keys)))
  {
    OldestIsFirst(t.pending, Ascending(t.pending.Keys));
  }

  lemma RoomIsMade(t: Tables, sequence: nat, p: Pending)
    requires sequence !in t.pending
    ensures var r := MakeRoom(t); var after := r.(pending := r.pending[sequence := p]);
            if |t.pending| >= 32 then exists k :: EvictedFor(t, k, sequence, after)
            else after.cancellations == t.cancellations && after.pending - {sequence} == t.pending
  {
    var r := MakeRoom(t);
    var after := r.(pending := r.pending[sequence := p]);
    assert after.pending - {sequence} == r.pending;
    if |t.pending| >= 32 {
      OldestEvicted(t);
      assert EvictedFor(t, OldestIn(t.pending, Ascending(t.pending.Keys)), sequence, after);
    }
  }

  lemma EnqueuedExactly(t: Tables, offer: Offer, plan: Plan, swarm: nat, sample: nat, now: Time)
    requires IsBridgeFrame(offer.payload) && plan.sequence !in t.pending
    ensures Enqueued(t, offer, plan, swarm, sample, now, EnqueueSample(t, offer, plan, swarm, sample, now))
  {
    FreshSample(offer, plan, swarm, sample, now);
    RoomIsMade(t, plan.sequence, NewSample(offer, plan, swarm, sample, now));
    assert plan.sequence !in MakeRoom(t).pending;
  }

  lemma FreshSample(offer: Offer, plan: Plan, swarm: nat, sample: nat, now: Time)
    requires IsBridgeFrame(offer.payload)
    ensures Fresh(offer, plan, swarm, sample, now, NewSample(offer, plan, swarm, sample, now))
  {
    if plan.sequence < 0x1_0000 && swarm < 0x1_0000 {
      var wire := WrapData(offer.payload, plan.sequence, swarm);
      WrapRoundTrip(offer.payload, plan.sequence, swarm, false);
      assert Marked(wire, false) == wire;
    }
  }

  // ---------------------------------------------------------------- what a daemon answer does

  /** Only the record of one awaited peer changes, and the flags of its sample as stated. */
  ghost predicate OnlyTarget(t: Tables, k: nat, peer: nat, x: Target, blocks: bool, after: Tables)
    requires k in t.pending && peer in t.pending[k].awaiting
  {
    && after.pending.Keys == t.pending.Keys && (forall j | j in t.pending && j != k :: after.pending[j] == t.pending[j])
    && after.pending[k] == t.pending[k].(awaiting := after.pending[k].awaiting, blocks := blocks)
    && after.pending[k].awaiting.Keys == t.pending[k].awaiting.Keys && after.pending[k].awaiting[peer] == x
    && forall a | a in t.pending[k].awaiting && a != peer :: after.pending[k].awaiting[a] == t.pending[k].awaiting[a]
  }

  ghost predicate AwaitedAt(t: Tables, k: nat, peer: nat) { k in t.pending && peer in t.pending[k].awaiting }

  ghost predicate OnlyBusy(t: Tables, peer: nat, until: Time, after: Tables) {
    forall p :: PeerOf(after.peers, p) == if p == peer then PeerOf(t.peers, p).(busyUntil := until) else PeerOf(t.peers, p)
  }

  /** A refused frame of a tick is retried after 250 ms and its attempt given back; the peer is marked busy. */
  lemma RefusedExactly(t: Tables, item: Outbound, now: Time)
    ensures var after, k, peer := OutboundRefused(t, item, now), Sequence(item.data), item.destination;
            && after == t.(pending := after.pending, peers := after.peers) && OnlyBusy(t, peer, now + 250, after)
            && (if AwaitedAt(t, k, peer)
                then var x := t.pending[k].awaiting[peer];
                     OnlyTarget(t, k, peer, x.(attempts := if x.attempts == 0 then 0 else x.attempts - 1, retryAt := now + 250),
                                t.pending[k].blocks, after)
                else after.pending == t.pending)
  {}

  /** A first copy that was refused or failed is retried after 250 ms; only a refusal marks the peer busy. */
  lemma FailedExactly(t: Tables, k: nat, peer: nat, refused: bool, now: Time)
    ensures var after := FirstSendFailed(t, k, peer, refused, now);
            && after == t.(pending := after.pending, peers := after.peers)
            && (if refused then OnlyBusy(t, peer, now + 250, after) else after.peers == t.peers)
            && (if AwaitedAt(t, k, peer)
                then OnlyTarget(t, k, peer, t.pending[k].awaiting[peer].(retryAt := now + 250), t.pending[k].blocks, after)
                else after.pending == t.pending)
  {}

  /** A recorded transfer of an awaited peer blocks the channel and is checked after 100 ms. */
  lemma RememberedExactly(t: Tables, k: nat, peer: nat, h: Handle, now: Time)
    ensures var after := RememberTransfer(t, k, peer, h, now);
            && after == t.(pending := after.pending, cancellations := after.cancellations)
            && (h.transfer == 0 ==> after == t)
            && (h.transfer != 0 && AwaitedAt(t, k, peer) ==>
                  after.cancellations == t.cancellations
                  && OnlyTarget(t, k, peer, t.pending[k].awaiting[peer].(transfer := Some(h), checkAt := now + 100), true, after))
            && (h.transfer != 0 && k !in t.pending ==>
                  after.pending == t.pending && after.cancellations == t.cancellations + multiset{h})
            && (h.transfer != 0 && k in t.pending && peer !in t.pending[k].awaiting ==>
                  after.cancellations == t.cancellations
                  && after.pending == t.pending[k := t.pending[k].(primary := Some(h))])
  {}

  /** A transfer the daemon finished releases its channel exactly when its target still holds that very handle. */
  lemma CheckedExactly(t: Tables, c: Check)
    ensures var after, k, peer := TransferFinished(t, c), c.sequence, c.destination;
            && after == t.(pending := after.pending)
            && (if AwaitedAt(t, k, peer) && t.pending[k].awaiting[peer].transfer == Some(c.handle)
                then OnlyTarget(t, k, peer, t.pending[k].awaiting[peer].(transfer := None), false, after)
                else after == t)
  {}

  /** A receipt whose send threw is queued again, in front, if there is room; any other frame is not. */
  lemma RequeuedExactly(t: Tables, item: Outbound)
    ensures var after := RequeueAck(t, item);
            && after == t.(acks := after.acks)
            && (if item.acknowledgement && |t.acks| < 128
                then |after.acks| == |t.acks| + 1 && after.acks[1..] == t.acks && after.acks[0].destination == item.destination
                     && after.acks[0].appKey == item.appKey && after.acks[0].data == item.data
                else after.acks == t.acks)
  {}

  /** No copy was admitted: the sample goes, the value waits again unless a newer one does, and a spent turn returns. */
  lemma WithdrawnExactly(t: Tables, offer: Offer, resumed: bool, plan: Plan)
    ensures var after, channel := WithdrawSample(t, offer, resumed, plan), ChannelOf(offer.bridge);
            && after == t.(pending := after.pending, latest := after.latest, turns := after.turns)
            && (forall k :: k in after.pending <==> k in t.pending && k != plan.sequence)
            && (forall k | k in after.pending :: after.pending[k] == t.pending[k])
            && after.latest == (if resumed && channel in t.latest then t.latest else t.latest[channel := offer])
            && (forall c | c in t.turns && c != channel :: c in after.turns && after.turns[c] == t.turns[c])
            && (if plan.consumes
                then channel in after.turns && after.turns[channel].permitted
                     && (channel in t.turns ==> after.turns[channel] == t.turns[channel].(permitted := true))
                else after.turns == t.turns)
  {}

  /** Spending gives the permission up and lets the lowest member reclaim it twelve seconds later. */
  lemma SpentExactly(t: Tables, channel: nat, now: Time)
    ensures var after := ConsumeTurn(t, channel, now);
            && after == t.(turns := after.turns) && after.turns.Keys == t.turns.Keys + {channel}
            && (forall c | c in t.turns && c != channel :: after.turns[c] == t.turns[c])
            && !after.turns[channel].permitted && after.turns[channel].reclaimAt == now + 12_000
            && (channel in t.turns ==> after.turns[channel].members == t.turns[channel].members
                                       && after.turns[channel].initialized == t.turns[channel].initialized)
  {}

  /** A reset forgets everything but the sequence counter, keeps the waiting values exactly when asked to, and
      releases the handle of every sample. */
  lemma ClearedExactly(t: Tables, preserveLatest: bool)
    ensures var after := ClearState(t, preserveLatest);
            && after.pending.Keys == {} && after.seen.Keys == {} && after.peers.Keys == {} && after.turns.Keys == {} && after.acks == []
            && (forall c :: c in after.latest <==> preserveLatest && c in t.latest)
            && (forall c | c in after.latest :: after.latest[c] == t.latest[c])
            && after.nextSequence == t.nextSequence && after.nextProbeAt == 0 && after.probeCursor == 0
    ensures forall k, h | k in t.pending && t.pending[k].primary == Some(h) :: h in ClearState(t, preserveLatest).cancellations
    ensures forall k, a, h | k in t.pending && a in t.pending[k].awaiting && t.pending[k].awaiting[a].transfer == Some(h) ::
              h in ClearState(t, preserveLatest).cancellations
  {
    forall k | k in t.pending ensures SampleHandles(t.pending[k]) <= PendingHandles(t.pending) { HeldBySample(t.pending, k); }
    forall k, a | k in t.pending && a in t.pending[k].awaiting
      ensures AsSet(t.pending[k].awaiting[a].transfer) <= SampleHandles(t.pending[k])
    {
      HeldByTarget(t.pending[k].awaiting, a);
    }
  }

  lemma {:induction false} HeldByTarget(awaiting: map<nat, Target>, a: nat)
    requires a in awaiting
    ensures AsSet(awaiting[a].transfer) <= TargetHandles(awaiting)
    decreases |awaiting|
  {
    var k := Min(awaiting.Keys);
    if a != k { HeldByTarget(awaiting - {k}, a); }
  }

  lemma {:induction false} HeldBySample(pending: map<nat, Pending>, a: nat)
    requires a in pending
    ensures SampleHandles(pending[a]) <= PendingHandles(pending)
    decreases |pending|
  {
    var k := Min(pending.Keys);
    if a != k { HeldBySample(pending - {k}, a); }
  }
}
