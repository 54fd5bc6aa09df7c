/** The reliability state of one node as the service keeps it: mutable tables, updated in place by one
    method per critical section. Each method is proved to compute the table transition the protocol
    theorems are about. */
module MeshNode {
  import opened MeshFrame
  import opened Ordered
  import opened TurnRing
  import opened MeshTables
  import opened MeshEffects
  import opened MeshInvariant

  class ReliableState {
    var pending: map<nat, Pending>
    var latest: map<nat, Offer>
    var seen: map<SeenKey, Seen>
    var acks: seq<Ack>
    var cancellations: seq<Handle>
    var peers: map<nat, PeerState>
    var turns: map<nat, Turn>
    var nextSequence: nat
    var nextProbeAt: Time
    var probeCursor: nat

    function State(): Tables
      reads this
    {
      Tables(pending, latest, seen, acks, multiset(cancellations), peers, turns, nextSequence, nextProbeAt, probeCursor)
    }

    constructor ()
      ensures State() == EMPTY_TABLES && cancellations == []
    {
      pending, latest, seen, acks, cancellations := map[], map[], map[], [], [];
      peers, turns, nextSequence, nextProbeAt, probeCursor := map[], map[], 0, 0, 0;
    }

    // -------------------------------------------------------------- native transfers

    method RememberTransfer(sequence: nat, destination: nat, h: Handle, now: Time)
      modifies `pending, `cancellations
      ensures State() == MeshTables.RememberTransfer(old(State()), sequence, destination, h, now)
    {
      if h.transfer == 0 { return; }
      if sequence in pending {
        var sample := pending[sequence];
        if destination in sample.awaiting {
          var target := sample.awaiting[destination].(transfer := Some(h), checkAt := now + TRANSFER_CHECK_PERIOD);
          pending := pending[sequence := sample.(awaiting := sample.awaiting[destination := target], blocks := true)];
          return;
        }
        pending := pending[sequence := sample.(primary := Some(h))];
        return;
      }
      cancellations := cancellations + [h];
    }

    /** Swap out the queue, cancel front to back, and put back what a throwing daemon call left over; without
        an application (`attached` false) the swapped batch is discarded. `throwsAt` is the position of the
        call that throws, if any. */
    method FlushCancellations(attached: bool, throwsAt: Option<nat>) returns (cancelled: seq<Handle>)
      modifies `cancellations
      ensures attached ==> cancelled + cancellations == old(cancellations)
      ensures attached ==>
        |cancelled| == (if throwsAt.Some? && throwsAt.value < |old(cancellations)| then throwsAt.value else |old(cancellations)|)
      ensures !attached ==> cancelled == [] && cancellations == []
    {
      var batch := cancellations;
      cancellations := [];
      cancelled := [];
      if !attached { return; }
      while batch != []
        invariant cancelled + batch == old(cancellations) && cancellations == []
        invariant throwsAt.Some? ==> |cancelled| <= throwsAt.value || throwsAt.value >= |old(cancellations)|
        decreases |batch|
      {
        if throwsAt == Some(|cancelled|) {
          cancellations := cancellations + batch;
          return;
        }
        cancelled, batch := cancelled + [batch[0]], batch[1..];
      }
    }

    method CancelTransfer(h: Option<Handle>)
      modifies `cancellations
      ensures multiset(cancellations) == old(multiset(cancellations)) + AsSet(h)
    {
      if h.Some? { cancellations := cancellations + [h.value]; }
    }

    method CancelTargets(awaiting: map<nat, Target>)
      modifies `cancellations
      ensures multiset(cancellations) == old(multiset(cancellations)) + TargetHandles(awaiting)
    {
      var rest := awaiting;
      while rest != map[]
        invariant multiset(cancellations) + TargetHandles(rest) == old(multiset(cancellations)) + TargetHandles(awaiting)
        decreases |rest|
      {
        var peer := Min(rest.Keys);
        CancelTransfer(rest[peer].transfer);
        assert |(rest - {peer}).Keys| < |rest.Keys| by { assert rest.Keys == (rest - {peer}).Keys + {peer}; }
        rest := rest - {peer};
      }
    }

    method CancelSample(sample: Pending)
      modifies `cancellations
      ensures multiset(cancellations) == old(multiset(cancellations)) + SampleHandles(sample)
    {
      CancelTransfer(sample.primary);
      CancelTargets(sample.awaiting);
    }

    /** Release every handle of one sample and forget it. */
    method DropSample(sequence: nat)
      requires sequence in pending
      modifies `pending, `cancellations
      ensures State() == MeshTables.DropSample(old(State()), sequence)
    {
      CancelSample(pending[sequence]);
      pending := pending - {sequence};
    }

    method CancelAllSamples()
      modifies `cancellations
      ensures multiset(cancellations) == old(multiset(cancellations)) + PendingHandles(pending)
    {
      var rest := pending;
      while rest != map[]
        invariant multiset(cancellations) + PendingHandles(rest) == old(multiset(cancellations)) + PendingHandles(pending)
        decreases |rest|
      {
        var sequence := Min(rest.Keys);
        CancelSample(rest[sequence]);
        assert |(rest - {sequence}).Keys| < |rest.Keys| by { assert rest.Keys == (rest - {sequence}).Keys + {sequence}; }
        rest := rest - {sequence};
      }
    }

    method ForgetTables(preserveLatest: bool)
      modifies `pending, `latest, `seen, `acks, `peers, `turns, `nextProbeAt, `probeCursor
      ensures pending == map[] && latest == if preserveLatest then old(latest) else map[]
      ensures seen == map[] && acks == [] && peers == map[] && turns == map[] && nextProbeAt == 0 && probeCursor == 0
    {
      pending := map[];
      if !preserveLatest { latest := map[]; }
      seen, acks, peers, turns := map[], [], map[], map[];
      nextProbeAt, probeCursor := 0, 0;
    }

    /** Release every handle and forget all reliability state, keeping the waiting values if asked; then flush.
        What the flush did not cancel is still queued. */
    method Clear(preserveLatest: bool, attached: bool, throwsAt: Option<nat>) returns (cancelled: seq<Handle>)
      modifies this
      ensures State() == ClearState(old(State()), preserveLatest).(cancellations := State().cancellations)
      ensures attached ==> multiset(cancelled) + State().cancellations == ClearState(old(State()), preserveLatest).cancellations
      ensures attached && throwsAt == None ==> State().cancellations == multiset{}
      ensures !attached ==> cancelled == [] && State().cancellations == multiset{}
    {
      CancelAllSamples();
      ForgetTables(preserveLatest);
      ghost var queued := cancellations;
      cancelled := FlushCancellations(attached, throwsAt);
      assert attached ==> multiset(queued) == multiset(cancelled + cancellations);
    }

    // -------------------------------------------------------------- the periodic worker

    method PurgeSeen(now: Time)
      modifies `seen
      ensures seen == MeshTables.PurgeSeen(old(seen), now)
    {
      var rest := seen.Keys;
      while rest != {}
        invariant forall k | k in seen :: k in old(seen) && seen[k] == old(seen)[k]
        invariant forall k | k in old(seen) && k !in seen :: now - old(seen)[k].last > SEEN_RETENTION
        invariant forall k | k in seen && k !in rest :: now - seen[k].last <= SEEN_RETENTION
        invariant rest <= old(seen).Keys && forall k | k in rest :: k in seen
        decreases |rest|
      {
        var k :| k in rest;
        if now - seen[k].last > SEEN_RETENTION { seen := seen - {k}; }
        rest := rest - {k};
      }
    }

    method TakeAcks() returns (outbound: seq<Outbound>)
      modifies `acks
      ensures outbound == AckItems(old(acks)[..AckCount(old(State()))]) && acks == old(acks)[AckCount(old(State()))..]
    {
      outbound := [];
      var count := 0;
      while count < MAX_ACKS_PER_TICK && acks != []
        invariant 0 <= count <= AckCount(old(State())) && acks == old(acks)[count..]
        invariant outbound + AckItems(old(acks)[count..AckCount(old(State()))]) == AckItems(old(acks)[..AckCount(old(State()))])
      {
        var ack := acks[0];
        ghost var rest := old(acks)[count..AckCount(old(State()))];
        assert rest[0] == ack && rest[1..] == old(acks)[count + 1..AckCount(old(State()))];
        outbound := outbound + [Outbound(ack.destination, ack.appKey, 0, false, true, ack.data, None, 0)];
        acks := acks[1..];
        count := count + 1;
      }
      assert count == AckCount(old(State()));
    }
 
    /** Back off from every peer the expired sample still awaited. */
    method ExpirePeers(failed: seq<nat>, now: Time)
      modifies `peers
      ensures peers == Expire(old(peers), failed, now)
    {
      var i := 0;
      while i < |failed|
        invariant 0 <= i <= |failed| && Expire(peers, failed[i..], now) == Expire(old(peers), failed, now)
      {
        var before := PeerOf(peers, failed[i]);
        var expiries := if before.expiries + 1 < MAX_EXPIRIES then before.expiries + 1 else MAX_EXPIRIES;
        var backoff := if 5_000 * expiries < 30_000 then 5_000 * expiries else 30_000;
        peers := peers[failed[i] := before.(expiries := expiries, retryAfter := now + backoff)];
        assert failed[i..][1..] == failed[i + 1..];
        i := i + 1;
      }
    }

    method CoalesceLatest(sequence: nat)
      requires sequence in pending
      modifies `pending, `latest
      ensures State() == Coalesce(old(State()), sequence)
    {
      var sample := pending[sequence];
      if sample.channel in latest && |latest[sample.channel].payload| >= VENDOR_PREFIX_BYTES + BRIDGE_FRAME_PREFIX_BYTES {
        var newest := latest[sample.channel];
        var wrapped := MakeReliableData(newest.payload, sequence, SwarmId(sample.data));
        pending := pending[sequence := sample.(data := wrapped, age := newest.age)];
        latest := latest - {sample.channel};
      }
    }

    method ScheduleCheck(sequence: nat, peer: nat, now: Time, a: Pass) returns (r: Pass)
      requires a.t == State() && sequence in pending && peer in pending[sequence].awaiting
      modifies `pending
      ensures r == CheckTarget(a, sequence, peer, now) && r.t == State()
    {
      var sample := pending[sequence];
      var target := sample.awaiting[peer];
      r := a;
      if sample.nativeReleases && target.transfer.Some? && target.checkAt <= now {
        var checked := target.(checkAt := now + TRANSFER_CHECK_PERIOD);
        pending := pending[sequence := sample.(awaiting := sample.awaiting[peer := checked])];
        r := a.(t := State(), checks := a.checks + [Check(sequence, peer, target.transfer.value)]);
      }
    }

    method BuildFrame(sequence: nat, peer: nat, now: Time, a: Pass) returns (r: Pass)
      requires a.t == State() && sequence in pending && peer in pending[sequence].awaiting
      modifies `pending
      ensures r == QueryOrRepair(a, sequence, peer, now) && r.t == State()
    {
      var sample := pending[sequence];
      var target := sample.awaiting[peer];
      r := a;
      if target.queryAt <= now && target.retryAt > now {
        pending := pending[sequence := sample.(awaiting := sample.awaiting[peer := Queried(target, now)])];
        r := a.(t := State(), outbound := a.outbound + [QueryItem(sample, peer)]);
        return;
      }
      if target.retryAt > now || target.attempts >= MAX_ATTEMPTS || peer in a.scheduled || PeerOf(peers, peer).retryAfter > now { return; }
      pending := pending[sequence := sample.(awaiting := sample.awaiting[peer := Repaired(target, now)])];
      r := a.(t := State(), outbound := a.outbound + [RepairItem(sample, peer)], scheduled := a.scheduled + {peer});
    }

    /** One awaited peer: a transfer check, then a receipt query or a repair. */
    method ServeTarget(sequence: nat, peer: nat, now: Time, a: Pass) returns (r: Pass)
      requires a.t == State()
      modifies `pending
      ensures r == TargetStep(a, sequence, peer, now) && r.t == State()
    {
      if |a.outbound| >= MAX_OUTBOUND || sequence !in pending || peer !in pending[sequence].awaiting { return a; }
      r := ScheduleCheck(sequence, peer, now, a);
      CheckTargetEffect(a, sequence, peer, now);
      r := BuildFrame(sequence, peer, now, r);
    }

    method ServeTargets(sequence: nat, now: Time, a: Pass) returns (r: Pass)
      requires a.t == State() && sequence in pending
      modifies `pending
      ensures r == TargetsPass(a, sequence, Ascending(old(pending)[sequence].awaiting.Keys), now) && r.t == State()
    {
      var order := Ascending(pending[sequence].awaiting.Keys);
      r := a;
      var i := 0;
      while i < |order|
        invariant 0 <= i <= |order| && r.t == State()
        invariant TargetsPass(r, sequence, order[i..], now) == TargetsPass(a, sequence, order, now)
      {
        assert order[i..][0] == order[i] && order[i..][1..] == order[i + 1..];
        r := ServeTarget(sequence, order[i], now, r);
        i := i + 1;
      }
    }

    /** Drop a sample that ran out of time and back off from every peer it still awaited. */
    method ExpireSample(sequence: nat, now: Time)
      requires sequence in pending
      modifies `pending, `cancellations, `peers
      ensures State() == MeshTables.ExpireSample(old(State()), sequence, now)
    {
      var failed := Ascending(pending[sequence].awaiting.Keys);
      DropSample(sequence);
      ExpirePeers(failed, now);
    }

    /** Coalesce the waiting value into the sample, then serve its awaited peers. */
    method KeepSample(sequence: nat, now: Time, a: Pass) returns (r: Pass)
      requires a.t == State() && sequence in pending
      modifies `pending, `latest
      ensures r == TargetsPass(a.(t := Coalesce(a.t, sequence)), sequence, Ascending(old(pending)[sequence].awaiting.Keys), now)
      ensures r.t == State()
    {
      CoalesceLatest(sequence);
      CoalesceEffect(a.t, sequence);
      r := ServeTargets(sequence, now, a.(t := State()));
    }

    method ServeSample(sequence: nat, now: Time, a: Pass) returns (r: Pass)
      requires a.t == State()
      modifies `pending, `latest, `cancellations, `peers
      ensures r == SampleStep(a, sequence, now) && r.t == State()
    {
      if sequence !in pending { return a; }
      var sample := pending[sequence];
      if sample.awaiting == map[] {
        StepCompletes(a, sequence, now);
        DropSample(sequence);
        r := a.(t := State());
      } else if Expired(sample, now) {
        StepExpires(a, sequence, now);
        ExpireSample(sequence, now);
        r := a.(t := State(), expired := a.expired + 1);
      } else {
        StepKeeps(a, sequence, now);
        r := KeepSample(sequence, now, a);
      }
    }

    /** `any_of` over the pending samples. */
    method AnyBlocking(channel: nat) returns (busy: bool)
      ensures busy == Busy(pending, channel)
    {
      var rest := pending.Keys;
      busy := false;
      while rest != {} && !busy
        invariant rest <= pending.Keys
        invariant busy ==> Busy(pending, channel)
        invariant forall k | k in pending && pending[k].channel == channel && pending[k].blocks && k !in rest :: busy
        decreases |rest|
      {
        var k :| k in rest;
        busy := pending[k].channel == channel && pending[k].blocks;
        rest := rest - {k};
      }
    }

    /** Move the value of one channel into the ready list, if it waits and its channel is free. */
    method ReleaseOne(channel: nat, ready: seq<Offer>) returns (more: seq<Offer>)
      modifies `latest
      ensures Releases(old(State()), ready, channel, State(), more)
    {
      more := ready;
      if channel in latest {
        var busy := AnyBlocking(channel);
        if !busy {
          more := ready + [latest[channel]];
          latest := latest - {channel};
        }
      }
    }

    /** Move every waiting value whose channel is free into the ready list. */
    method ReleaseReady() returns (ready: seq<Offer>)
      modifies `latest
      ensures State() == ReadyPass(old(State()), [], Ascending(old(latest).Keys)).0
      ensures ready == ReadyPass(old(State()), [], Ascending(old(latest).Keys)).1
    {
      var channels := Ascending(latest.Keys);
      ready := [];
      ghost var end := ReadyPass(State(), [], channels);
      ghost var rest := channels;
      var i := 0;
      while i < |channels|
        invariant 0 <= i <= |channels| && rest == channels[i..] && ReadyPass(State(), ready, rest) == end
      {
        ghost var t, before := State(), ready;
        ready := ReleaseOne(channels[i], ready);
        ReadyStep(t, before, rest, State(), ready);
        rest := rest[1..];
        i := i + 1;
      }
    }

    method StartTick(now: Time) returns (a: Pass)
      modifies `seen, `acks
      ensures a == TickStart(old(State()), now) && a.t == State()
    {
      PurgeSeen(now);
      var acknowledgements := TakeAcks();
      a := Pass(State(), acknowledgements, [], {}, 0);
    }

    /** The loop over the pending samples, in sequence order. */
    method ServeSamples(now: Time, start: Pass) returns (a: Pass)
      requires start.t == State()
      modifies `pending, `latest, `cancellations, `peers
      ensures a == SamplesPass(start, Ascending(old(pending).Keys), now) && a.t == State()
    {
      var order := Ascending(pending.Keys);
      a := start;
      var i := 0;
      while i < |order|
        invariant 0 <= i <= |order| && a.t == State()
        invariant SamplesPass(a, order[i..], now) == SamplesPass(start, order, now)
      {
        assert order[i..][0] == order[i] && order[i..][1..] == order[i + 1..];
        a := ServeSample(order[i], now, a);
        i := i + 1;
      }
    }

    /** The locked part of the periodic worker. */
    method MaintainLocked(now: Time) returns (tick: Tick)
      modifies this
      ensures tick == TickLocked(old(State()), now) && State() == tick.t
    {
      var a := StartTick(now);
      a := ServeSamples(now, a);
      var ready := ReleaseReady();
      tick := Tick(State(), a.outbound, a.checks, ready, a.expired);
    }

    /** The daemon no longer knows a checked transfer. */
    method TransferFinished(c: Check)
      modifies `pending
      ensures State() == MeshTables.TransferFinished(old(State()), c)
    {
      if c.sequence !in pending { return; }
      var sample := pending[c.sequence];
      if c.destination !in sample.awaiting || sample.awaiting[c.destination].transfer != Some(c.handle) { return; }
      var target := sample.awaiting[c.destination].(transfer := None);
      pending := pending[c.sequence := sample.(awaiting := sample.awaiting[c.destination := target], blocks := false)];
    }

    /** The destination is still busy: defer, and refund the repair attempt. */
    method OutboundRefused(item: Outbound, now: Time)
      modifies `pending, `peers
      ensures State() == MeshTables.OutboundRefused(old(State()), item, now)
    {
      peers := peers[item.destination := PeerOf(peers, item.destination).(busyUntil := now + QUEUE_RETRY_DELAY)];
      var sequence := Sequence(item.data);
      if sequence in pending && item.destination in pending[sequence].awaiting {
        var sample := pending[sequence];
        var target := Deferred(sample.awaiting[item.destination], now);
        pending := pending[sequence := sample.(awaiting := sample.awaiting[item.destination := target])];
      }
    }

    method RequeueAck(item: Outbound)
      modifies `acks
      ensures State() == MeshTables.RequeueAck(old(State()), item)
    {
      if item.acknowledgement && |acks| < MAX_QUEUED_ACKS {
        acks := [Ack(item.destination, item.appKey, item.data)] + acks;
      }
    }

    // -------------------------------------------------------------- sending

    method StoreLatest(offer: Offer, resumed: bool)
      modifies `latest
      ensures State() == MeshTables.StoreLatest(old(State()), offer, resumed)
    {
      var channel := ChannelOf(offer.bridge);
      if !(resumed && channel in latest) { latest := latest[channel := offer]; }
    }

    method PassGate(offer: Offer, resumed: bool, ready: bool, coordinated: bool) returns (result: GateResult)
      modifies `latest
      ensures (State(), result) == Gate(old(State()), offer, resumed, ready, coordinated)
    {
      var channel := ChannelOf(offer.bridge);
      if !ready {
        StoreLatest(offer, resumed);
        return Stored;
      }
      if resumed && channel in latest { return Superseded; }
      if !resumed { latest := latest - {channel}; }
      if !(offer.bridge.reliable && coordinated) { return Direct; }
      if !IsBridgeFrame(offer.payload) { return Rejected; }
      var busy := AnyBlocking(channel);
      if busy {
        StoreLatest(offer, resumed);
        return Stored;
      }
      return Proceed;
    }

    /** Probe one configured, unheard peer at a time, round robin, skipping peers that back off. */
    method ProbeNext(env: PlanEnv) returns (probed: seq<nat>)
      modifies `nextProbeAt, `probeCursor
      ensures (State(), probed) == Probe(old(State()), env)
    {
      probed := [];
      if env.probes == [] || env.now < nextProbeAt { return; }
      var offset := 0;
      while offset < |env.probes|
        invariant 0 <= offset <= |env.probes| && State() == old(State())
        invariant FindProbe(State(), env.probes, env.now, offset) == FindProbe(State(), env.probes, env.now, 0)
      {
        var index := (probeCursor + offset) % |env.probes|;
        if PeerOf(peers, env.probes[index]).retryAfter <= env.now {
          probed := [env.probes[index]];
          probeCursor := index + 1;
          nextProbeAt := env.now + PROBE_PERIOD;
          return;
        }
        offset := offset + 1;
      }
    }

    /** Refresh the turn of the channel and report whether this node may send. */
    method UpdateTurn(channel: nat, env: PlanEnv) returns (permitted: bool)
      modifies `turns
      ensures turns == old(turns)[channel := TurnAt(old(turns), channel, TurnMembers(env.local, env.peers), env.local, env.now)]
      ensures permitted == turns[channel].permitted
    {
      var members := TurnMembers(env.local, env.peers);
      var turn := TurnBefore(turns, channel);
      if !turn.initialized {
        turn := Turn(members, true, members[0] == env.local, env.now + TURN_RECOVERY);
      } else if turn.members != members {
        turn := turn.(members := members);
      }
      if !turn.permitted && members[0] == env.local && env.now >= turn.reclaimAt {
        turn := turn.(permitted := true);
      }
      turns := turns[channel := turn];
      permitted := turn.permitted;
    }

    method PlanSend(offer: Offer, resumed: bool, env: PlanEnv) returns (plan: Option<Plan>)
      requires |pending.Keys| < 0xffff
      modifies `latest, `turns, `nextSequence, `nextProbeAt, `probeCursor
      ensures (State(), plan) == MeshTables.PlanSend(old(State()), offer, resumed, env)
    {
      var probed := ProbeNext(env);
      var targets := Ascending(set a | a in env.peers + probed);
      if targets == [] {
        StoreLatest(offer, resumed);
        return None;
      }
      var sequence, increments;
      nextSequence, sequence, increments := AllocateSequence(nextSequence, pending.Keys);
      if env.peers == [] || env.local == 0 { return Some(Plan(sequence, targets, 0, false)); }
      var permitted := UpdateTurn(ChannelOf(offer.bridge), env);
      if !permitted {
        StoreLatest(offer, resumed);
        return None;
      }
      return Some(Plan(sequence, targets, Successor(TurnMembers(env.local, env.peers), env.local), true));
    }

    /** `min_element` by creation time: the first of the oldest. */
    method OldestAmong(order: seq<nat>) returns (oldest: nat)
      requires order != [] && forall k | k in order :: k in pending
      ensures oldest == OldestIn(pending, order)
    {
      oldest := order[0];
      var i := 1;
      assert order[..1] == [order[0]];
      while i < |order|
        invariant 1 <= i <= |order| && oldest in pending && oldest == OldestIn(pending, order[..i])
      {
        assert order[..i + 1] == order[..i] + [order[i]];
        OldestAppend(pending, order[..i], order[i]);
        if pending[order[i]].created < pending[oldest].created { oldest := order[i]; }
        i := i + 1;
      }
      assert order[..i] == order;
    }

    method Enqueue(offer: Offer, plan: Plan, swarm: nat, sample: nat, now: Time)
      requires IsBridgeFrame(offer.payload)
      modifies `pending, `cancellations
      ensures State() == EnqueueSample(old(State()), offer, plan, swarm, sample, now)
    {
      if |pending| >= MAX_PENDING_SAMPLES {
        assert pending.Keys != {};
        var oldest := OldestAmong(Ascending(pending.Keys));
        DropSample(oldest);
      }
      if plan.sequence !in pending {
        var wrapped := MakeReliableData(offer.payload, plan.sequence, swarm);
        var created := NewSample(offer, plan, swarm, sample, now);
        assert created.data == wrapped;
        pending := pending[plan.sequence := created];
      }
    }

    method ConsumeTurn(channel: nat, now: Time)
      modifies `turns
      ensures State() == MeshTables.ConsumeTurn(old(State()), channel, now)
    {
      turns := turns[channel := TurnBefore(turns, channel).(permitted := false, reclaimAt := now + TURN_RECOVERY)];
    }

    method FirstSendFailed(sequence: nat, destination: nat, refused: bool, now: Time)
      modifies `pending, `peers
      ensures State() == MeshTables.FirstSendFailed(old(State()), sequence, destination, refused, now)
    {
      var retryAt := now + QUEUE_RETRY_DELAY;
      if refused { peers := peers[destination := PeerOf(peers, destination).(busyUntil := retryAt)]; }
      if sequence in pending && destination in pending[sequence].awaiting {
        var sample := pending[sequence];
        var target := sample.awaiting[destination].(retryAt := retryAt);
        pending := pending[sequence := sample.(awaiting := sample.awaiting[destination := target])];
      }
    }

    method Withdraw(offer: Offer, resumed: bool, plan: Plan)
      modifies `pending, `latest, `turns
      ensures State() == WithdrawSample(old(State()), offer, resumed, plan)
    {
      pending := pending - {plan.sequence};
      StoreLatest(offer, resumed);
      if plan.consumes {
        var channel := ChannelOf(offer.bridge);
        turns := turns[channel := TurnBefore(turns, channel).(permitted := true)];
      }
    }

    // -------------------------------------------------------------- receiving

    method AckReceived(source: nat, appKey: nat, data: ReliableFrame)
      modifies `pending, `peers, `cancellations
      ensures State() == MeshTables.AckReceived(old(State()), source, appKey, data)
    {
      var sequence := Sequence(data);
      if sequence !in pending { return; }
      var sample := pending[sequence];
      if sample.appKey != appKey || data[..VENDOR_PREFIX_BYTES] != sample.data[..VENDOR_PREFIX_BYTES] || SwarmId(data) != SwarmId(sample.data) {
        return;
      }
      if source in sample.awaiting {
        CancelTransfer(sample.awaiting[source].transfer);
        pending := pending[sequence := sample.(awaiting := sample.awaiting - {source})];
      }
      peers := peers[source := PeerState(0, 0, 0)];
    }

    /** Build and queue one bounded receipt, unless the same receipt is queued already. */
    method QueueAck(source: nat, appKey: nat, data: ReliableFrame)
      modifies `acks
      ensures State() == MeshTables.QueueAck(old(State()), source, appKey, data)
    {
      if |acks| >= MAX_QUEUED_ACKS { return; }
      var acknowledgement := AckFor(data);
      var queued := false;
      var i := 0;
      while i < |acks| && !queued
        invariant 0 <= i <= |acks|
        invariant queued <==> Ack(source, appKey, acknowledgement) in acks[..i]
      {
        queued := acks[i].destination == source && acks[i].appKey == appKey && acks[i].data == acknowledgement;
        assert acks[..i + 1] == acks[..i] + [acks[i]];
        i := i + 1;
      }
      if !queued {
        assert acks[..i] == acks;
        acks := acks + [Ack(source, appKey, acknowledgement)];
      }
    }

    method FrameReceived(source: nat, appKey: nat, data: ReliableFrame, now: Time) returns (shouldDecode: bool)
      modifies `seen, `acks
      ensures (State(), shouldDecode) == MeshTables.FrameReceived(old(State()), source, appKey, data, now)
    {
      var key := KeyOf(source, appKey, data);
      shouldDecode := false;
      if IsQuery(data) {
        if key in seen && seen[key].delivered { QueueAck(source, appKey, data); }
      } else {
        if key !in seen {
          seen := seen[key := Seen(now, false)];
          shouldDecode := true;
        } else if seen[key].delivered {
          QueueAck(source, appKey, data);
        }
      }
    }

    method DecodeFinished(source: nat, appKey: nat, element: u8, data: DataFrame, delivered: bool,
                          local: nat, members: seq<nat>, now: Time)
      modifies `seen, `acks, `turns
      ensures State() == MeshTables.DecodeFinished(old(State()), source, appKey, element, data, delivered, local, members, now)
    {
      var key := KeyOf(source, appKey, data);
      if key !in seen { return; }
      if !delivered {
        seen := seen - {key};
        return;
      }
      seen := seen[key := Seen(now, true)];
      QueueAck(source, appKey, data);
      if local != 0 {
        turns := turns[Channel(element, appKey, ChannelId(data)) :=
          Turn(members, true, data[3] == RELIABLE_DATA, now + TURN_RECOVERY)];
      }
    }
  }

  lemma StepCompletes(a: Pass, k: nat, now: Time)
    requires k in a.t.pending && a.t.pending[k].awaiting == map[]
    ensures SampleStep(a, k, now) == a.(t := DropSample(a.t, k))
  {}

  lemma StepExpires(a: Pass, k: nat, now: Time)
    requires k in a.t.pending && a.t.pending[k].awaiting != map[] && Expired(a.t.pending[k], now)
    ensures SampleStep(a, k, now) == a.(t := ExpireSample(a.t, k, now), expired := a.expired + 1)
  {}

  lemma StepKeeps(a: Pass, k: nat, now: Time)
    requires k in a.t.pending && a.t.pending[k].awaiting != map[] && !Expired(a.t.pending[k], now)
    ensures SampleStep(a, k, now) == TargetsPass(a.(t := Coalesce(a.t, k)), k, Ascending(a.t.pending[k].awaiting.Keys), now)
  {}

  /** The value of `channel` is released if it waits and its channel is free; otherwise nothing happens. */
  ghost predicate Releases(t: Tables, ready: seq<Offer>, channel: nat, after: Tables, more: seq<Offer>) {
    if channel !in t.latest || Busy(t.pending, channel) then after == t && more == ready
    else after == t.(latest := t.latest - {channel}) && more == ready + [t.latest[channel]]
  }

  lemma ReadyStep(t: Tables, ready: seq<Offer>, channels: seq<nat>, after: Tables, more: seq<Offer>)
    requires channels != [] && Releases(t, ready, channels[0], after, more)
    ensures ReadyPass(after, more, channels[1..]) == ReadyPass(t, ready, channels)
  {}

  /** Appending a key only matters if it is strictly older. */
  lemma {:induction false} OldestAppend(pending: map<nat, Pending>, keys: seq<nat>, k: nat)
    requires keys != [] && k in pending && forall j | j in keys :: j in pending
    ensures OldestIn(pending, keys + [k])
            == if pending[k].created < pending[OldestIn(pending, keys)].created then k else OldestIn(pending, keys)
  {
    if |keys| > 1 {
      assert (keys + [k])[1..] == keys[1..] + [k];
      OldestAppend(pending, keys[1..], k);
    }
  }
}
