/** Every step keeps the agreement between what nodes hold, what is on the air, and the logs. */
module MeshLogs {
  import opened MeshFrame
  import opened Ordered
  import opened MeshTables
  import opened MeshWorker
  import opened MeshEffects
  import opened MeshInvariant
  import opened MeshNetwork

  // ---------------------------------------------------------------- logs only grow

  ghost predicate Grows(samples: map<nat, Sample>, more: map<nat, Sample>) {
    forall i | i in samples :: i in more && more[i] == samples[i]
  }

  lemma SamplesGrow(opcodes: map<nat, nat>, samples: map<nat, Sample>, framed: set<(nat, Bytes)>, a: nat, n: Node,
                    more: map<nat, Sample>, framedMore: set<(nat, Bytes)>)
    requires SamplesLogged(opcodes, samples, framed, a, n) && Grows(samples, more) && framed <= framedMore
    ensures SamplesLogged(opcodes, more, framedMore, a, n)
  {}

  // ---------------------------------------------------------------- samples keep their identity

  /** The sample named by a receipt is unchanged, except for fewer peers awaited. */
  ghost predicate SameIdentityAs(p: Pending, q: Pending) {
    && q.sample == p.sample && q.appKey == p.appKey && q.data == p.data && q.channel == p.channel
    && q.element == p.element && q.successor == p.successor && q.awaiting.Keys <= p.awaiting.Keys
  }

  ghost predicate SamplesShrink(t: Tables, after: Tables) {
    forall k | k in after.pending :: k in t.pending && SameIdentityAs(t.pending[k], after.pending[k])
  }

  lemma ShrinkLogged(opcodes: map<nat, nat>, samples: map<nat, Sample>, framed: set<(nat, Bytes)>, a: nat, n: Node, after: Node)
    requires SamplesLogged(opcodes, samples, framed, a, n) && SamplesShrink(n.t, after.t)
    requires forall item | item in after.work.outbound :: item in n.work.outbound
    requires after.work.job.Some? ==> JobLogged(samples, framed, a, after.work.job.value)
    requires forall x | x in after.t.acks :: IsAck(x.data)
    ensures SamplesLogged(opcodes, samples, framed, a, after)
  {}

  lemma RefusedShrinks(t: Tables, item: Outbound, now: Time)
    ensures SamplesShrink(t, OutboundRefused(t, item, now)) && OutboundRefused(t, item, now).acks == t.acks
  {}

  lemma FailedShrinks(t: Tables, sequence: nat, destination: nat, refused: bool, now: Time)
    ensures SamplesShrink(t, FirstSendFailed(t, sequence, destination, refused, now))
    ensures FirstSendFailed(t, sequence, destination, refused, now).acks == t.acks
  {}

  lemma UpdateShrinks(t: Tables, k: nat, p: Pending)
    requires k in t.pending && SameIdentityAs(t.pending[k], p)
    ensures SamplesShrink(t, t.(pending := t.pending[k := p]))
  {}

  lemma RememberShrinks(t: Tables, c: Check, now: Time)
    ensures SamplesShrink(t, RememberTransfer(t, c.sequence, c.destination, c.handle, now))
    ensures RememberTransfer(t, c.sequence, c.destination, c.handle, now).acks == t.acks
  {
    var after := RememberTransfer(t, c.sequence, c.destination, c.handle, now);
    if c.handle.transfer != 0 && c.sequence in t.pending {
      UpdateShrinks(t, c.sequence, after.pending[c.sequence]);
    }
  }

  lemma CheckShrinks(t: Tables, c: Check)
    ensures SamplesShrink(t, TransferFinished(t, c)) && TransferFinished(t, c).acks == t.acks
  {}

  lemma AckShrinks(t: Tables, source: nat, appKey: nat, data: ReliableFrame)
    ensures SamplesShrink(t, AckReceived(t, source, appKey, data)) && AckReceived(t, source, appKey, data).acks == t.acks
  {}

  lemma RequeuedAcks(t: Tables, item: Outbound)
    requires forall x | x in t.acks :: IsAck(x.data)
    requires item.acknowledgement ==> IsAck(item.data)
    ensures forall x | x in RequeueAck(t, item).acks :: IsAck(x.data)
  {}

  lemma QueuedAcks(t: Tables, source: nat, appKey: nat, data: ReliableFrame)
    requires forall x | x in t.acks :: IsAck(x.data)
    ensures forall x | x in QueueAck(t, source, appKey, data).acks :: IsAck(x.data)
  {
    ControlFramesKeepIdentity(data);
  }

  // ---------------------------------------------------------------- the tick

  /** Marking a stored frame for transmission changes no field of its identity. */
  lemma MarkedSame(data: DataFrame, turn: bool)
    requires IsDataMarker(data)
    ensures var w: ReliableFrame := Marked(data, turn);
            && IsDataFrame(w) && (w[3] == RELIABLE_DATA <==> turn) && Sequence(w) == Sequence(data) && SwarmId(w) == SwarmId(data)
            && VendorOpcode(w) == VendorOpcode(data) && ChannelId(w) == ChannelId(data) && Reconstruct(w) == Reconstruct(data)
  {
    var w := Marked(data, turn);
    assert w[..3] == data[..3] && w[10..] == data[10..];
  }

  lemma ItemCopyOk(opcodes: map<nat, nat>, samples: map<nat, Sample>, framed: set<(nat, Bytes)>, a: nat, k: nat, p: Pending, item: Outbound)
    requires PendingOk(opcodes, samples, framed, a, k, p) && ItemFor(p, item)
    ensures CopyOk(samples, framed, ItemWire(a, item))
  {
    MarkedSame(p.data, item.destination == p.successor);
  }

  /** The header of the offer wrapped under sequence `k` reads back as written. */
  ghost predicate ReadsBack(opcodes: map<nat, nat>, o: Offer, k: nat, swarm: nat)
    requires Configured(opcodes, o)
  {
    var data := WrapData(o.payload, k, swarm);
    && |data| >= RELIABLE_DATA_HEADER_BYTES && IsDataMarker(data)
    && Sequence(data) == k && SwarmId(data) == swarm && ChannelId(data) == o.bridge.channel
    && VendorOpcode(data) == opcodes[ChannelOf(o.bridge)] && Reconstruct(data) == o.payload
  }

  /** Wrapping a configured offer of the sample's channel keeps the receipt key. */
  lemma WrapKeepsKey(opcodes: map<nat, nat>, o: Offer, k: nat, swarm: nat)
    requires Configured(opcodes, o) && k < 0x1_0000 && swarm < 0x1_0000
    ensures ReadsBack(opcodes, o, k, swarm)
  {
    WrapRoundTrip(o.payload, k, swarm, false);
    var data := WrapData(o.payload, k, swarm);
    assert Marked(data, false) == data;
  }

  /** Offer `o` can renew sample `p`: same bridge, and its header reads back. */
  ghost predicate Renews(opcodes: map<nat, nat>, o: Offer, k: nat, p: Pending) {
    && Configured(opcodes, o) && ReadsBack(opcodes, o, k, SwarmId(p.data))
    && o.bridge.element == p.element && o.bridge.appKey == p.appKey && o.bridge.channel == ChannelId(p.data)
  }

  /** The same value under the same sequence. */
  lemma KeptOk(opcodes: map<nat, nat>, samples: map<nat, Sample>, framed: set<(nat, Bytes)>, a: nat, k: nat, p: Pending, q: Pending,
               framedMore: set<(nat, Bytes)>)
    requires PendingOk(opcodes, samples, framed, a, k, p) && Retried(p.(age := q.age), q)
    requires (q.sample, Reconstruct(q.data)) in framedMore
    ensures PendingOk(opcodes, samples, framedMore, a, k, q)
  {}

  /** A waiting value of the channel, rewrapped under the sample's sequence. */
  lemma RenewedOk(opcodes: map<nat, nat>, samples: map<nat, Sample>, framed: set<(nat, Bytes)>, a: nat, latest: map<nat, Offer>,
                  k: nat, p: Pending, q: Pending, framedMore: set<(nat, Bytes)>)
    requires PendingOk(opcodes, samples, framed, a, k, p) && p.channel in latest && Renews(opcodes, latest[p.channel], k, p)
    requires q.data == WrapData(latest[p.channel].payload, k, SwarmId(p.data)) && Retried(p.(data := q.data, age := q.age), q)
    requires (q.sample, Reconstruct(q.data)) in framedMore
    ensures PendingOk(opcodes, samples, framedMore, a, k, q)
  {}

  lemma ChannelInjective(e: u8, k: nat, c: nat, e': u8, k': nat, c': nat)
    requires k < 0x1_0000 && k' < 0x1_0000 && c < 0x1_0000 && c' < 0x1_0000
    requires Channel(e, k, c) == Channel(e', k', c')
    ensures e == e' && k == k' && c == c'
  {}

  /** The header of the waiting value rewrapped for sample `p` reads back. */
  ghost predicate Readable(opcodes: map<nat, nat>, o: Offer, k: nat, p: Pending) {
    Configured(opcodes, o) && |p.data| >= RELIABLE_DATA_HEADER_BYTES && ReadsBack(opcodes, o, k, SwarmId(p.data))
  }

  lemma TickSampleOk(opcodes: map<nat, nat>, samples: map<nat, Sample>, framed: set<(nat, Bytes)>, offered: set<(nat, Bytes)>,
                     a: nat, n: Node, k: nat, q: Pending, more: set<(nat, Bytes)>)
    requires SamplesLogged(opcodes, samples, framed, a, n) && SlotsLogged(opcodes, offered, a, n)
    requires k in n.t.pending && Renewed(n.t.latest, k, n.t.pending[k], q) && (q.sample, Reconstruct(q.data)) in more
    requires var p := n.t.pending[k]; q.data != p.data ==> Readable(opcodes, n.t.latest[p.channel], k, p)
    ensures PendingOk(opcodes, samples, more, a, k, q)
  {
    var p := n.t.pending[k];
    assert PendingOk(opcodes, samples, framed, a, k, p);
    if q.data == p.data {
      KeptOk(opcodes, samples, framed, a, k, p, q, more);
    } else {
      var o := n.t.latest[p.channel];
      ChannelInjective(p.element, p.appKey, ChannelId(p.data), o.bridge.element, o.bridge.appKey, o.bridge.channel);
      RenewedOk(opcodes, samples, framed, a, n.t.latest, k, p, q, more);
    }
  }

  lemma TickItemOk(opcodes: map<nat, nat>, samples: map<nat, Sample>, framed: set<(nat, Bytes)>, a: nat, t: Tables, item: Outbound)
    requires forall k | k in t.pending :: PendingOk(opcodes, samples, framed, a, k, t.pending[k])
    requires SampleItem(t, item)
    ensures CopyOk(samples, framed, ItemWire(a, item)) && (item.acknowledgement ==> IsAck(item.data))
  {
    var k :| k in t.pending && Source(t, item, k);
    ItemCopyOk(opcodes, samples, framed, a, k, t.pending[k], item);
  }

  lemma TickSlots(opcodes: map<nat, nat>, offered: set<(nat, Bytes)>, a: nat, n: Node, now: Time)
    requires SlotsLogged(opcodes, offered, a, n) && Enabled(n, StartTick(now))
    ensures SlotsLogged(opcodes, offered, a, Next(n, StartTick(now)))
  {
    var after := Next(n, StartTick(now));
    TickEffect(n.t, now);
    forall o | o in after.work.ready ensures OfferOk(opcodes, offered, a, o) { assert Emptied(n.t, after.t, o); }
  }

  lemma TickSamplesOk(opcodes: map<nat, nat>, samples: map<nat, Sample>, framed: set<(nat, Bytes)>, offered: set<(nat, Bytes)>,
                      a: nat, n: Node, now: Time, tick: Tick)
    requires SamplesLogged(opcodes, samples, framed, a, n) && SlotsLogged(opcodes, offered, a, n) && tick == TickLocked(n.t, now)
    ensures forall k | k in tick.t.pending :: PendingOk(opcodes, samples, framed + Framings(tick.t), a, k, tick.t.pending[k])
  {
    var more := framed + Framings(tick.t);
    TickEffect(n.t, now);
    forall k | k in tick.t.pending ensures PendingOk(opcodes, samples, more, a, k, tick.t.pending[k]) {
      assert Fate(n.t, k, tick.t, now);
      var p := n.t.pending[k];
      assert PendingOk(opcodes, samples, framed, a, k, p);
      if tick.t.pending[k].data != p.data { WrapKeepsKey(opcodes, n.t.latest[p.channel], k, SwarmId(p.data)); }
      TickSampleOk(opcodes, samples, framed, offered, a, n, k, tick.t.pending[k], more);
    }
  }

  lemma TickItemsOk(opcodes: map<nat, nat>, samples: map<nat, Sample>, framed: set<(nat, Bytes)>, a: nat, t: Tables, now: Time, tick: Tick)
    requires tick == TickLocked(t, now) && forall k | k in tick.t.pending :: PendingOk(opcodes, samples, framed, a, k, tick.t.pending[k])
    requires forall x | x in t.acks :: IsAck(x.data)
    ensures forall item | item in tick.outbound :: CopyOk(samples, framed, ItemWire(a, item)) && (item.acknowledgement ==> IsAck(item.data))
    ensures forall x | x in tick.t.acks :: IsAck(x.data)
  {
    TickEffect(t, now);
    forall item | item in tick.outbound
      ensures CopyOk(samples, framed, ItemWire(a, item)) && (item.acknowledgement ==> IsAck(item.data))
    {
      if SampleItem(tick.t, item) { TickItemOk(opcodes, samples, framed, a, tick.t, item); }
    }
  }

  lemma TickLogged(opcodes: map<nat, nat>, samples: map<nat, Sample>, framed: set<(nat, Bytes)>, offered: set<(nat, Bytes)>,
                   a: nat, n: Node, now: Time)
    requires SamplesLogged(opcodes, samples, framed, a, n) && SlotsLogged(opcodes, offered, a, n) && Enabled(n, StartTick(now))
    ensures var after := Next(n, StartTick(now));
            SamplesLogged(opcodes, samples, framed + Framings(after.t), a, after) && SlotsLogged(opcodes, offered, a, after)
  {
    var tick := TickLocked(n.t, now);
    TickSamplesOk(opcodes, samples, framed, offered, a, n, now, tick);
    TickItemsOk(opcodes, samples, framed + Framings(tick.t), a, n.t, now, tick);
    TickSlots(opcodes, offered, a, n, now);
  }

  // ---------------------------------------------------------------- the send routine

  lemma GateLogged(opcodes: map<nat, nat>, samples: map<nat, Sample>, framed: set<(nat, Bytes)>, offered: set<(nat, Bytes)>,
                   a: nat, n: Node, o: Offer, resumed: bool, ready: bool)
    requires SamplesLogged(opcodes, samples, framed, a, n) && SlotsLogged(opcodes, offered, a, n) && OfferOk(opcodes, offered, a, o)
    ensures var after := AfterGate(n, o, resumed, ready, true);
            SamplesLogged(opcodes, samples, framed, a, after) && SlotsLogged(opcodes, offered, a, after)
  {
    var after := AfterGate(n, o, resumed, ready, true);
    assert after.t == n.t.(latest := after.t.latest);
  }

  lemma PlanLogged(opcodes: map<nat, nat>, samples: map<nat, Sample>, framed: set<(nat, Bytes)>, offered: set<(nat, Bytes)>,
                   a: nat, n: Node, env: PlanEnv)
    requires SamplesLogged(opcodes, samples, framed, a, n) && SlotsLogged(opcodes, offered, a, n)
    requires Enabled(n, MakePlan(env)) && Proper(opcodes, a, MakePlan(env))
    ensures var after := AfterPlan(n, env);
            SamplesLogged(opcodes, samples, framed, a, after) && SlotsLogged(opcodes, offered, a, after)
  {
    var job := n.work.job.value;
    var r := PlanSend(n.t, job.offer, job.resumed, env);
    PlanShape(n.t, job.offer, job.resumed, env);
    PlanSlots(n.t, job.offer, job.resumed, env);
  }

  lemma RingShape(t: Tables, o: Offer, resumed: bool, env: PlanEnv, sequence: nat, targets: seq<nat>)
    ensures var r := PlanRing(t, o, resumed, env, sequence, targets).1;
            r.Some? ==> r.value.targets == targets && (!r.value.consumes ==> r.value.successor == 0)
  {}

  lemma ProbesListed(t: Tables, env: PlanEnv)
    ensures forall a | a in Probe(t, env).1 :: a in env.probes
  {}

  lemma PlanShape(t: Tables, o: Offer, resumed: bool, env: PlanEnv)
    requires 0 !in env.peers && 0 !in env.probes
    ensures var r := PlanSend(t, o, resumed, env);
            r.1.Some? ==> 0 !in r.1.value.targets && (!r.1.value.consumes ==> r.1.value.successor == 0)
  {
    var (t1, probed) := Probe(t, env);
    ProbesListed(t, env);
    var targets := Ascending(set a | a in env.peers + probed);
    if targets != [] {
      var counter := Allocate(t1.nextSequence, t1.pending.Keys);
      RingShape(t1.(nextSequence := counter), o, resumed, env, counter % 0x1_0000, targets);
    }
  }

  lemma PlanSlots(t: Tables, o: Offer, resumed: bool, env: PlanEnv)
    ensures PlanSend(t, o, resumed, env).0.latest in {t.latest, StoreLatest(t, o, resumed).latest}
  {
    var (t1, probed) := Probe(t, env);
    StoreSlots(t, t1, o, resumed);
    var targets := Ascending(set a | a in env.peers + probed);
    if targets != [] {
      var counter := Allocate(t1.nextSequence, t1.pending.Keys);
      var t2 := t1.(nextSequence := counter);
      StoreSlots(t, t2, o, resumed);
      RingSlots(t2, o, resumed, env, counter % 0x1_0000, targets);
    }
  }

  lemma StoreSlots(t: Tables, other: Tables, o: Offer, resumed: bool)
    requires other.latest == t.latest
    ensures StoreLatest(other, o, resumed).latest == StoreLatest(t, o, resumed).latest
  {}

  lemma RingSlots(t: Tables, o: Offer, resumed: bool, env: PlanEnv, sequence: nat, targets: seq<nat>)
    ensures PlanRing(t, o, resumed, env, sequence, targets).0.latest in {t.latest, StoreLatest(t, o, resumed).latest}
  {}

  /** The sample an enqueue creates; the others stay as they are. */
  lemma EnqueueAdds(n: Node, swarm: nat, tag: nat, now: Time)
    requires NodeOk(n) && Enabled(n, Enqueue(swarm, tag, now))
    ensures var after := AfterEnqueue(n, swarm, tag, now); var job := n.work.job.value; var q := job.phase.plan.sequence;
            && q !in n.t.pending && q in after.t.pending
            && after.t.pending[q] == NewSample(job.offer, job.phase.plan, swarm, tag, now)
            && (forall k | k in after.t.pending && k != q :: k in n.t.pending && after.t.pending[k] == n.t.pending[k])
            && after.t.latest == n.t.latest && after.t.acks == n.t.acks
  {
    EnqueueKeeps(n, swarm, tag, now);
  }

  lemma NewSampleOk(opcodes: map<nat, nat>, samples: map<nat, Sample>, framed: set<(nat, Bytes)>, a: nat, n: Node, swarm: nat, tag: nat, now: Time)
    requires NodeOk(n) && Enabled(n, Enqueue(swarm, tag, now)) && JobLogged(samples, framed, a, n.work.job.value)
    requires Configured(opcodes, n.work.job.value.offer)
    requires ReadsBack(opcodes, n.work.job.value.offer, n.work.job.value.phase.plan.sequence, swarm)
    requires (tag, n.work.job.value.offer.payload) in framed && tag in samples
    requires samples[tag] == NewSamples(a, n, Enqueue(swarm, tag, now))[tag]
    ensures var job := n.work.job.value; var plan := job.phase.plan;
            PendingOk(opcodes, samples, framed, a, plan.sequence, NewSample(job.offer, plan, swarm, tag, now))
    ensures JobLogged(samples, framed, a, AfterEnqueue(n, swarm, tag, now).work.job.value)
  {}

  lemma EnqueueLogged(opcodes: map<nat, nat>, samples: map<nat, Sample>, framed: set<(nat, Bytes)>, offered: set<(nat, Bytes)>,
                      a: nat, n: Node, swarm: nat, tag: nat, now: Time)
    requires SamplesLogged(opcodes, samples, framed, a, n) && SlotsLogged(opcodes, offered, a, n) && NodeOk(n)
    requires Enabled(n, Enqueue(swarm, tag, now)) && swarm < 0x1_0000 && tag !in samples
    ensures var after := AfterEnqueue(n, swarm, tag, now);
            && SamplesLogged(opcodes, samples + NewSamples(a, n, Enqueue(swarm, tag, now)), framed + Framings(after.t), a, after)
            && SlotsLogged(opcodes, offered, a, after)
  {
    var job := n.work.job.value;
    var q := job.phase.plan.sequence;
    var after := AfterEnqueue(n, swarm, tag, now);
    var more := samples + NewSamples(a, n, Enqueue(swarm, tag, now));
    var framedMore := framed + Framings(after.t);
    EnqueueAdds(n, swarm, tag, now);
    WrapKeepsKey(opcodes, job.offer, q, swarm);
    assert (after.t.pending[q].sample, Reconstruct(after.t.pending[q].data)) in Framings(after.t);
    SamplesGrow(opcodes, samples, framed, a, n, more, framedMore);
    NewSampleOk(opcodes, more, framedMore, a, n, swarm, tag, now);
    OneSampleMore(opcodes, more, framedMore, a, n, q, after);
    EnqueueSlots(opcodes, offered, a, n, swarm, tag, now);
  }

  lemma EnqueueSlots(opcodes: map<nat, nat>, offered: set<(nat, Bytes)>, a: nat, n: Node, swarm: nat, tag: nat, now: Time)
    requires SlotsLogged(opcodes, offered, a, n) && Enabled(n, Enqueue(swarm, tag, now))
    ensures SlotsLogged(opcodes, offered, a, AfterEnqueue(n, swarm, tag, now))
  {}

  lemma OneSampleMore(opcodes: map<nat, nat>, samples: map<nat, Sample>, framed: set<(nat, Bytes)>, a: nat, n: Node, q: nat, after: Node)
    requires SamplesLogged(opcodes, samples, framed, a, n)
    requires q in after.t.pending && PendingOk(opcodes, samples, framed, a, q, after.t.pending[q])
    requires forall k | k in after.t.pending && k != q :: k in n.t.pending && after.t.pending[k] == n.t.pending[k]
    requires after.work.outbound == n.work.outbound && after.t.acks == n.t.acks
    requires after.work.job.Some? ==> JobLogged(samples, framed, a, after.work.job.value)
    ensures SamplesLogged(opcodes, samples, framed, a, after)
  {}

  lemma EnqueueFramings(opcodes: map<nat, nat>, samples: map<nat, Sample>, framed: set<(nat, Bytes)>, offered: set<(nat, Bytes)>,
                        a: nat, n: Node, swarm: nat, tag: nat, now: Time)
    requires SamplesLogged(opcodes, samples, framed, a, n) && SlotsLogged(opcodes, offered, a, n) && NodeOk(n)
    requires Enabled(n, Enqueue(swarm, tag, now)) && swarm < 0x1_0000
    ensures Framings(AfterEnqueue(n, swarm, tag, now).t) <= framed + {(tag, n.work.job.value.offer.payload)}
  {
    var job := n.work.job.value;
    EnqueueAdds(n, swarm, tag, now);
    WrapKeepsKey(opcodes, job.offer, job.phase.plan.sequence, swarm);
    OneFramingMore(opcodes, samples, framed, a, n, job.phase.plan.sequence, AfterEnqueue(n, swarm, tag, now).t, (tag, job.offer.payload));
  }

  lemma OneFramingMore(opcodes: map<nat, nat>, samples: map<nat, Sample>, framed: set<(nat, Bytes)>, a: nat, n: Node, q: nat, after: Tables,
                       x: (nat, Bytes))
    requires SamplesLogged(opcodes, samples, framed, a, n)
    requires q in after.pending && x == (after.pending[q].sample, Reconstruct(after.pending[q].data))
    requires forall k | k in after.pending && k != q :: k in n.t.pending && after.pending[k] == n.t.pending[k]
    ensures Framings(after) <= framed + {x}
  {
    forall y | y in Framings(after) ensures y in framed + {x} {
      var k :| k in after.pending && y == (after.pending[k].sample, Reconstruct(after.pending[k].data));
      if k != q { assert PendingOk(opcodes, samples, framed, a, k, n.t.pending[k]); }
    }
  }

  /** Local events that leave every pending frame and offer as it was. */
  predicate Quiet(e: Event) {
    e.Reset? || e.CheckAnswered? || e.OutboundAnswered? || e.OutboundStillNative? || e.Remember? || e.SpendTurn?
    || e.FirstSendAnswered? || e.FinishSend? || e.TakeCancellations? || e.CancelAnswered?
  }

  lemma OutboundQuiet(n: Node, e: Event)
    requires Enabled(n, e) && e.OutboundAnswered?
    ensures SamplesShrink(n.t, Next(n, e).t)
  {
    RefusedShrinks(n.t, n.work.outbound[0], e.now);
  }

  lemma OutboundAcks(n: Node, e: Event)
    requires Enabled(n, e) && e.OutboundAnswered?
    requires forall x | x in n.t.acks :: IsAck(x.data)
    requires n.work.outbound[0].acknowledgement ==> IsAck(n.work.outbound[0].data)
    ensures forall x | x in Next(n, e).t.acks :: IsAck(x.data)
  {
    RequeuedAcks(n.t, n.work.outbound[0]);
  }

  lemma FirstSendQuiet(n: Node, e: Event)
    requires Enabled(n, e) && e.FirstSendAnswered?
    ensures SamplesShrink(n.t, Next(n, e).t) && Next(n, e).t.acks == n.t.acks
  {
    var phase := n.work.job.value.phase;
    FailedShrinks(n.t, phase.plan.sequence, phase.plan.targets[phase.next], e.answer.Refused?, e.now);
  }

  lemma FinishShrinks(n: Node)
    requires Enabled(n, FinishSend)
    ensures SamplesShrink(n.t, AfterFinish(n).t) && AfterFinish(n).t.acks == n.t.acks
  {}

  lemma ClearShrinks(t: Tables, preserveLatest: bool)
    ensures SamplesShrink(t, ClearState(t, preserveLatest)) && ClearState(t, preserveLatest).acks == []
  {}

  lemma IdleShrinks(n: Node, e: Event)
    requires Enabled(n, e) && (e.OutboundStillNative? || e.SpendTurn? || e.TakeCancellations? || e.CancelAnswered?)
    ensures SamplesShrink(n.t, Next(n, e).t) && Next(n, e).t.acks == n.t.acks
  {
    assert Next(n, e).t.pending == n.t.pending;
  }

  lemma QuietShrinks(n: Node, e: Event)
    requires Enabled(n, e) && Quiet(e)
    requires forall x | x in n.t.acks :: IsAck(x.data)
    requires forall item | item in n.work.outbound :: item.acknowledgement ==> IsAck(item.data)
    ensures SamplesShrink(n.t, Next(n, e).t) && forall x | x in Next(n, e).t.acks :: IsAck(x.data)
  {
    match e
    case CheckAnswered(_) => CheckShrinks(n.t, n.work.checks[0]);
    case OutboundAnswered(_, _) =>
      OutboundQuiet(n, e);
      OutboundAcks(n, e);
    case Remember(now) => RememberShrinks(n.t, n.work.held.value, now);
    case FirstSendAnswered(_, _) => FirstSendQuiet(n, e);
    case Reset(preserveLatest) => ClearShrinks(n.t, preserveLatest);
    case FinishSend => FinishShrinks(n);
    case _ => IdleShrinks(n, e);
  }

  lemma QuietWork(samples: map<nat, Sample>, framed: set<(nat, Bytes)>, a: nat, n: Node, e: Event)
    requires Enabled(n, e) && Quiet(e) && (n.work.job.Some? ==> JobLogged(samples, framed, a, n.work.job.value))
    ensures forall item | item in Next(n, e).work.outbound :: item in n.work.outbound
    ensures Next(n, e).work.job.Some? ==> JobLogged(samples, framed, a, Next(n, e).work.job.value)
  {}

  lemma QuietLatest(n: Node, e: Event)
    requires Enabled(n, e) && Quiet(e) && !e.FinishSend?
    ensures SubMap(Next(n, e).t.latest, n.t.latest)
  {
    match e
    case Reset(_) =>
    case CheckAnswered(_) =>
    case OutboundAnswered(_, _) =>
    case OutboundStillNative =>
    case Remember(_) =>
    case SpendTurn(_) =>
    case FirstSendAnswered(_, _) =>
    case TakeCancellations(_) =>
    case CancelAnswered(_) =>
  }

  lemma QuietOffers(n: Node, e: Event)
    requires Enabled(n, e) && Quiet(e)
    ensures Next(n, e).work.ready == n.work.ready
    ensures Next(n, e).work.job.Some? ==> n.work.job.Some? && Next(n, e).work.job.value.offer == n.work.job.value.offer
  {}

  lemma FewerSlots(opcodes: map<nat, nat>, offered: set<(nat, Bytes)>, a: nat, n: Node, after: Node)
    requires SlotsLogged(opcodes, offered, a, n) && SubMap(after.t.latest, n.t.latest) && after.work.ready == n.work.ready
    requires after.work.job.Some? ==> n.work.job.Some? && after.work.job.value.offer == n.work.job.value.offer
    ensures SlotsLogged(opcodes, offered, a, after)
  {}

  lemma FinishSlots(opcodes: map<nat, nat>, offered: set<(nat, Bytes)>, a: nat, n: Node)
    requires Enabled(n, FinishSend) && SlotsLogged(opcodes, offered, a, n)
    ensures SlotsLogged(opcodes, offered, a, AfterFinish(n))
  {}

  lemma QuietSlots(opcodes: map<nat, nat>, offered: set<(nat, Bytes)>, a: nat, n: Node, e: Event)
    requires Enabled(n, e) && Quiet(e) && SlotsLogged(opcodes, offered, a, n)
    ensures SlotsLogged(opcodes, offered, a, Next(n, e))
  {
    if e.FinishSend? {
      FinishSlots(opcodes, offered, a, n);
    } else {
      QuietOffers(n, e);
      QuietLatest(n, e);
      FewerSlots(opcodes, offered, a, n, Next(n, e));
    }
  }

  lemma QuietLogged(opcodes: map<nat, nat>, samples: map<nat, Sample>, framed: set<(nat, Bytes)>, offered: set<(nat, Bytes)>,
                    a: nat, n: Node, e: Event)
    requires SamplesLogged(opcodes, samples, framed, a, n) && SlotsLogged(opcodes, offered, a, n) && Enabled(n, e) && Quiet(e)
    ensures SamplesLogged(opcodes, samples, framed, a, Next(n, e)) && SlotsLogged(opcodes, offered, a, Next(n, e))
  {
    QuietShrinks(n, e);
    QuietWork(samples, framed, a, n, e);
    QuietSlots(opcodes, offered, a, n, e);
    ShrinkLogged(opcodes, samples, framed, a, n, Next(n, e));
  }

  // ---------------------------------------------------------------- receiving

  lemma ReceiveLogged(opcodes: map<nat, nat>, samples: map<nat, Sample>, framed: set<(nat, Bytes)>, offered: set<(nat, Bytes)>,
                      a: nat, n: Node, e: Event)
    requires SamplesLogged(opcodes, samples, framed, a, n) && SlotsLogged(opcodes, offered, a, n)
    requires Enabled(n, e) && !IsLocal(e)
    ensures SamplesLogged(opcodes, samples, framed, a, Next(n, e)) && SlotsLogged(opcodes, offered, a, Next(n, e))
  {
    ReceiveAcks(n, e);
    ReceiveShrinks(n, e);
    ShrinkLogged(opcodes, samples, framed, a, n, Next(n, e));
  }

  lemma ReceiveShrinks(n: Node, e: Event)
    requires Enabled(n, e) && !IsLocal(e)
    ensures SamplesShrink(n.t, Next(n, e).t) && Next(n, e).work == n.work && Next(n, e).t.latest == n.t.latest
  {
    match e
    case ReceiveAck(m) => AckShrinks(n.t, m.source, m.appKey, m.data);
    case ReceiveFrame(_, _) => assert Next(n, e).t.pending == n.t.pending;
    case DecodeDone(_, _, _, _, _) => assert Next(n, e).t.pending == n.t.pending;
  }

  lemma ReceiveAcks(n: Node, e: Event)
    requires Enabled(n, e) && !IsLocal(e) && forall x | x in n.t.acks :: IsAck(x.data)
    ensures forall x | x in Next(n, e).t.acks :: IsAck(x.data)
  {
    match e
    case ReceiveFrame(m, now) => QueuedAcks(n.t, m.source, m.appKey, m.data);
    case DecodeDone(m, delivered, local, members, now) =>
      QueuedAcks(n.t.(seen := n.t.seen[KeyOf(m.source, m.appKey, m.data) := Seen(now, true)]), m.source, m.appKey, m.data);
    case ReceiveAck(m) => AckShrinks(n.t, m.source, m.appKey, m.data);
  }

  /** Local events add nothing to the receive table and change no entry of it. */
  lemma LocalSeen(n: Node, e: Event)
    requires Enabled(n, e) && IsLocal(e)
    ensures forall k | k in Next(n, e).t.seen :: k in n.t.seen && Next(n, e).t.seen[k] == n.t.seen[k]
  {
    if e.StartTick? {
      TickEffect(n.t, e.now);
    } else if !e.Reset? {
      LocalSameSeen(n, e);
    }
  }

  lemma LocalSameSeen(n: Node, e: Event)
    requires Enabled(n, e) && IsLocal(e) && !e.StartTick? && !e.Reset?
    ensures Next(n, e).t.seen == n.t.seen
  {
    if !Quiet(e) {
      match e
      case MakePlan(env) =>
      case OfferValue(_, _, _) =>
      case ResumeNext(_, _) =>
      case Enqueue(_, _, _) =>
    } else {
      QuietSeen(n, e);
    }
  }

  lemma QuietSeen(n: Node, e: Event)
    requires Enabled(n, e) && Quiet(e) && !e.Reset?
    ensures Next(n, e).t.seen == n.t.seen
  {
    match e
    case SpendTurn(_) =>
    case FinishSend =>
    case CheckAnswered(_) =>
    case OutboundAnswered(_, _) =>
    case OutboundStillNative =>
    case Remember(_) =>
    case FirstSendAnswered(_, _) =>
    case TakeCancellations(_) =>
    case CancelAnswered(_) =>
  }

  // ---------------------------------------------------------------- the whole network

  ghost predicate NodeLogged(opcodes: map<nat, nat>, samples: map<nat, Sample>, framed: set<(nat, Bytes)>,
                             offered: set<(nat, Bytes)>, a: nat, n: Node) {
    NodeOk(n) && SamplesLogged(opcodes, samples, framed, a, n) && SlotsLogged(opcodes, offered, a, n)
  }

  ghost predicate NodesLogged(opcodes: map<nat, nat>, s: Net) {
    forall a | a in s.nodes :: NodeLogged(opcodes, s.samples, s.framed, s.offered, a, s.nodes[a])
  }

  ghost predicate AirLogged(s: Net) {
    && (forall w | w in s.air :: CopyOk(s.samples, s.framed, w))
    && (forall x | x in s.decoding :: x.0 == s.decoding[x].dst && x.1 == WireKey(s.decoding[x])
          && IsDataFrame(s.decoding[x].data) && CopyOk(s.samples, s.framed, s.decoding[x]))
  }

  /** Nothing is ever framed that its source was not offered. */
  ghost predicate FramedOffered(s: Net) {
    forall x | x in s.framed :: x.0 in s.samples && (s.samples[x.0].source, x.1) in s.offered
  }

  /** Nothing is ever published that was not framed for that very sample. */
  ghost predicate PublishedFramed(s: Net) {
    forall x | x in s.published :: x.1 in s.samples && (x.1, s.published[x]) in s.framed
  }

  ghost predicate Logged(opcodes: map<nat, nat>, s: Net) {
    NodesLogged(opcodes, s) && AirLogged(s) && FramedOffered(s) && PublishedFramed(s)
  }

  ghost predicate ProperLabel(opcodes: map<nat, nat>, l: Label) { l.Local? ==> Proper(opcodes, l.a, l.e) }

  /** The logs after a local event, and its node measured against them. */
  ghost predicate LocalOk(opcodes: map<nat, nat>, samples: map<nat, Sample>, framed: set<(nat, Bytes)>,
                          offered: set<(nat, Bytes)>, a: nat, n: Node, e: Event)
    requires Enabled(n, e)
  {
    NodeLogged(opcodes, samples + NewSamples(a, n, e), framed + Framings(Next(n, e).t), offered + NewOffers(a, e), a, Next(n, e))
  }

  lemma Widen(opcodes: map<nat, nat>, samples: map<nat, Sample>, framed: set<(nat, Bytes)>, offered: set<(nat, Bytes)>,
              a: nat, n: Node, e: Event, after: Node, framedSome: set<(nat, Bytes)>)
    requires Enabled(n, e) && !e.Enqueue? && after == Next(n, e) && NodeOk(after) && framedSome <= framed + Framings(after.t)
    requires SamplesLogged(opcodes, samples, framedSome, a, after) && SlotsLogged(opcodes, offered + NewOffers(a, e), a, after)
    ensures LocalOk(opcodes, samples, framed, offered, a, n, e)
  {
    SamplesGrow(opcodes, samples, framedSome, a, after, samples + NewSamples(a, n, e), framed + Framings(after.t));
  }

  lemma SameOffers(offered: set<(nat, Bytes)>, a: nat, e: Event)
    requires !e.OfferValue?
    ensures offered + NewOffers(a, e) == offered
  {}

  lemma OfferLogged(opcodes: map<nat, nat>, samples: map<nat, Sample>, framed: set<(nat, Bytes)>, offered: set<(nat, Bytes)>,
              a: nat, n: Node, e: Event)
    requires NodeLogged(opcodes, samples, framed, offered, a, n) && Enabled(n, e) && Proper(opcodes, a, e)
    requires e.OfferValue? && NodeOk(Next(n, e))
    ensures LocalOk(opcodes, samples, framed, offered, a, n, e)
  {
    GateLogged(opcodes, samples, framed, offered + NewOffers(a, e), a, n, e.offer, false, e.ready);
    Widen(opcodes, samples, framed, offered, a, n, e, AfterGate(n, e.offer, false, e.ready, true), framed);
  }

  lemma ResumeLogged(opcodes: map<nat, nat>, samples: map<nat, Sample>, framed: set<(nat, Bytes)>, offered: set<(nat, Bytes)>,
              a: nat, n: Node, e: Event)
    requires NodeLogged(opcodes, samples, framed, offered, a, n) && Enabled(n, e) && Proper(opcodes, a, e)
    requires e.ResumeNext? && NodeOk(Next(n, e))
    ensures LocalOk(opcodes, samples, framed, offered, a, n, e)
  {
    var rest := n.(work := n.work.(ready := n.work.ready[1..]));
    GateLogged(opcodes, samples, framed, offered, a, rest, n.work.ready[0], true, e.isReady);
    SameOffers(offered, a, e);
    Widen(opcodes, samples, framed, offered, a, n, e, AfterGate(rest, n.work.ready[0], true, e.isReady, true), framed);
  }

  lemma TickStepLogged(opcodes: map<nat, nat>, samples: map<nat, Sample>, framed: set<(nat, Bytes)>, offered: set<(nat, Bytes)>,
              a: nat, n: Node, e: Event)
    requires NodeLogged(opcodes, samples, framed, offered, a, n) && Enabled(n, e) && Proper(opcodes, a, e)
    requires e.StartTick? && NodeOk(Next(n, e))
    ensures LocalOk(opcodes, samples, framed, offered, a, n, e)
  {
    TickLogged(opcodes, samples, framed, offered, a, n, e.now);
    SameOffers(offered, a, e);
    var after := Next(n, e);
    Widen(opcodes, samples, framed, offered, a, n, e, after, framed + Framings(after.t));
  }

  lemma PlanStepLogged(opcodes: map<nat, nat>, samples: map<nat, Sample>, framed: set<(nat, Bytes)>, offered: set<(nat, Bytes)>,
              a: nat, n: Node, e: Event)
    requires NodeLogged(opcodes, samples, framed, offered, a, n) && Enabled(n, e) && Proper(opcodes, a, e)
    requires e.MakePlan? && NodeOk(Next(n, e))
    ensures LocalOk(opcodes, samples, framed, offered, a, n, e)
  {
    PlanLogged(opcodes, samples, framed, offered, a, n, e.env);
    SameOffers(offered, a, e);
    Widen(opcodes, samples, framed, offered, a, n, e, AfterPlan(n, e.env), framed);
  }

  lemma EnqueueStepLogged(opcodes: map<nat, nat>, samples: map<nat, Sample>, framed: set<(nat, Bytes)>, offered: set<(nat, Bytes)>,
              a: nat, n: Node, e: Event)
    requires NodeLogged(opcodes, samples, framed, offered, a, n) && Enabled(n, e) && Proper(opcodes, a, e)
    requires e.Enqueue? && e.tag !in samples && NodeOk(Next(n, e))
    ensures LocalOk(opcodes, samples, framed, offered, a, n, e)
  {
    EnqueueLogged(opcodes, samples, framed, offered, a, n, e.swarm, e.tag, e.now);
    SameOffers(offered, a, e);
  }

  lemma QuietStepLogged(opcodes: map<nat, nat>, samples: map<nat, Sample>, framed: set<(nat, Bytes)>, offered: set<(nat, Bytes)>,
              a: nat, n: Node, e: Event)
    requires NodeLogged(opcodes, samples, framed, offered, a, n) && Enabled(n, e) && Proper(opcodes, a, e)
    requires Quiet(e) && NodeOk(Next(n, e))
    ensures LocalOk(opcodes, samples, framed, offered, a, n, e)
  {
    QuietLogged(opcodes, samples, framed, offered, a, n, e);
    SameOffers(offered, a, e);
    Widen(opcodes, samples, framed, offered, a, n, e, Next(n, e), framed);
  }

  /** Local events, whichever they are. */
  lemma LocalLogged(opcodes: map<nat, nat>, samples: map<nat, Sample>, framed: set<(nat, Bytes)>, offered: set<(nat, Bytes)>,
                    a: nat, n: Node, e: Event)
    requires NodeLogged(opcodes, samples, framed, offered, a, n) && Enabled(n, e) && Proper(opcodes, a, e)
    requires IsLocal(e) && (e.Enqueue? ==> e.tag !in samples)
    ensures LocalOk(opcodes, samples, framed, offered, a, n, e)
  {
    EventKeeps(n, e);
    if Quiet(e) {
      QuietStepLogged(opcodes, samples, framed, offered, a, n, e);
    } else {
      match e
      case OfferValue(_, _, _) => OfferLogged(opcodes, samples, framed, offered, a, n, e);
      case ResumeNext(_, _) => ResumeLogged(opcodes, samples, framed, offered, a, n, e);
      case StartTick(_) => TickStepLogged(opcodes, samples, framed, offered, a, n, e);
      case MakePlan(_) => PlanStepLogged(opcodes, samples, framed, offered, a, n, e);
      case Enqueue(_, _, _) => EnqueueStepLogged(opcodes, samples, framed, offered, a, n, e);
    }
  }

  // ---------------------------------------------------------------- what a step frames and puts on the air

  lemma FirstWireOk(opcodes: map<nat, nat>, s: Net, a: nat, e: Event)
    requires NodesLogged(opcodes, s) && CanStep(s, Local(a, e)) && e.FirstSendAnswered?
    ensures CopyOk(s.samples, s.framed, FirstWire(a, s.nodes[a].work.job.value))
  {
    var job := s.nodes[a].work.job.value;
    var destination := job.phase.plan.targets[job.phase.next];
    MarkedSame(job.phase.wrapped, destination == job.phase.plan.successor);
    assert destination in job.phase.plan.targets;
  }

  lemma NewWireIs(a: nat, n: Node, e: Event, w: Wire)
    requires Enabled(n, e) && w in NewWires(a, n, e)
    ensures (e.FirstSendAnswered? && w == FirstWire(a, n.work.job.value)) || (e.OutboundAnswered? && w == ItemWire(a, n.work.outbound[0]))
  {}

  lemma WaitingOk(opcodes: map<nat, nat>, s: Net, a: nat, item: Outbound)
    requires NodesLogged(opcodes, s) && a in s.nodes && item in s.nodes[a].work.outbound
    ensures CopyOk(s.samples, s.framed, ItemWire(a, item))
  {
    assert NodeLogged(opcodes, s.samples, s.framed, s.offered, a, s.nodes[a]);
  }

  lemma NewWiresOk(opcodes: map<nat, nat>, s: Net, a: nat, e: Event)
    requires NodesLogged(opcodes, s) && CanStep(s, Local(a, e))
    ensures forall w | w in NewWires(a, s.nodes[a], e) :: CopyOk(s.samples, s.framed, w)
  {
    forall w | w in NewWires(a, s.nodes[a], e) ensures CopyOk(s.samples, s.framed, w) {
      NewWireIs(a, s.nodes[a], e, w);
      if e.FirstSendAnswered? {
        FirstWireOk(opcodes, s, a, e);
      } else {
        WaitingOk(opcodes, s, a, s.nodes[a].work.outbound[0]);
      }
    }
  }

  /** Frames of a shrunken table were framed before. */
  lemma OldFramings(opcodes: map<nat, nat>, samples: map<nat, Sample>, framed: set<(nat, Bytes)>, a: nat, n: Node, after: Tables)
    requires SamplesLogged(opcodes, samples, framed, a, n) && SamplesShrink(n.t, after)
    ensures Framings(after) <= framed
  {
    forall x | x in Framings(after) ensures x in framed {
      var k :| k in after.pending && x == (after.pending[k].sample, Reconstruct(after.pending[k].data));
      assert PendingOk(opcodes, samples, framed, a, k, n.t.pending[k]);
    }
  }

  /** The tick frames nothing but waiting offers of the same source, for samples it already had. */
  lemma TickFramings(opcodes: map<nat, nat>, s: Net, a: nat, now: Time)
    requires NodesLogged(opcodes, s) && FramedOffered(s) && a in s.nodes
    ensures forall x | x in Framings(TickLocked(s.nodes[a].t, now).t) ::
              x.0 in s.samples && (s.samples[x.0].source, x.1) in s.offered
  {
    var n := s.nodes[a];
    var tick := TickLocked(n.t, now);
    TickEffect(n.t, now);
    forall x | x in Framings(tick.t) ensures x.0 in s.samples && (s.samples[x.0].source, x.1) in s.offered {
      var k :| k in tick.t.pending && x == (tick.t.pending[k].sample, Reconstruct(tick.t.pending[k].data));
      assert Fate(n.t, k, tick.t, now);
      RenewedFraming(opcodes, s, a, k, tick.t.pending[k]);
    }
  }

  lemma RenewedFraming(opcodes: map<nat, nat>, s: Net, a: nat, k: nat, q: Pending)
    requires NodesLogged(opcodes, s) && FramedOffered(s) && a in s.nodes && k in s.nodes[a].t.pending
    requires Renewed(s.nodes[a].t.latest, k, s.nodes[a].t.pending[k], q)
    ensures q.sample in s.samples && (s.samples[q.sample].source, Reconstruct(q.data)) in s.offered
  {
    var n := s.nodes[a];
    var p := n.t.pending[k];
    assert PendingOk(opcodes, s.samples, s.framed, a, k, p);
    if q.data != p.data {
      WrapKeepsKey(opcodes, n.t.latest[p.channel], k, SwarmId(p.data));
    }
  }

  /** Logs that grow only by offered framings. */
  lemma FramedStep(s: Net, s': Net)
    requires FramedOffered(s) && Grows(s.samples, s'.samples) && s.offered <= s'.offered
    requires forall x | x in s'.framed && x !in s.framed :: x.0 in s'.samples && (s'.samples[x.0].source, x.1) in s'.offered
    ensures FramedOffered(s')
  {}

  lemma EnqueueFramed(opcodes: map<nat, nat>, s: Net, a: nat, e: Event)
    requires NodesLogged(opcodes, s) && CanStep(s, Local(a, e)) && Proper(opcodes, a, e) && e.Enqueue?
    ensures forall x | x in Framings(Next(s.nodes[a], e).t) && x !in s.framed ::
              x.0 in NewSamples(a, s.nodes[a], e) && (NewSamples(a, s.nodes[a], e)[x.0].source, x.1) in s.offered
  {
    var n := s.nodes[a];
    assert NodeLogged(opcodes, s.samples, s.framed, s.offered, a, n);
    EnqueueFramings(opcodes, s.samples, s.framed, s.offered, a, n, e.swarm, e.tag, e.now);
  }

  lemma PlainShrinks(n: Node, e: Event)
    requires Enabled(n, e) && (e.OfferValue? || e.ResumeNext? || e.MakePlan?)
    ensures SamplesShrink(n.t, Next(n, e).t)
  {
    assert Next(n, e).t.pending == n.t.pending;
  }

  lemma QuietFramed(opcodes: map<nat, nat>, s: Net, a: nat, e: Event)
    requires NodesLogged(opcodes, s) && FramedOffered(s) && CanStep(s, Local(a, e)) && !e.Enqueue? && !e.StartTick?
    ensures Framings(Next(s.nodes[a], e).t) <= s.framed
  {
    var n := s.nodes[a];
    if Quiet(e) { QuietShrinks(n, e); } else { PlainShrinks(n, e); }
    OldFramings(opcodes, s.samples, s.framed, a, n, Next(n, e).t);
  }

  lemma StepFramed(opcodes: map<nat, nat>, s: Net, a: nat, e: Event, s': Net)
    requires NodesLogged(opcodes, s) && FramedOffered(s) && CanStep(s, Local(a, e)) && Proper(opcodes, a, e)
    requires LogsAfter(s, a, e, s')
    ensures FramedOffered(s')
  {
    if e.Enqueue? {
      EnqueueFramed(opcodes, s, a, e);
    } else if e.StartTick? {
      TickFramings(opcodes, s, a, e.now);
    } else {
      QuietFramed(opcodes, s, a, e);
    }
    FramedStep(s, s');
  }

  // ---------------------------------------------------------------- steps

  /** What a local step does, field by field. */
  ghost predicate LogsAfter(s: Net, a: nat, e: Event, s': Net)
    requires CanStep(s, Local(a, e))
  {
    && s'.nodes == s.nodes[a := Next(s.nodes[a], e)]
    && s'.samples == s.samples + NewSamples(a, s.nodes[a], e) && Grows(s.samples, s'.samples)
    && s'.framed == s.framed + Framings(Next(s.nodes[a], e).t) && s'.offered == s.offered + NewOffers(a, e)
    && s'.air == s.air + NewWires(a, s.nodes[a], e) && s'.decoding == s.decoding && s'.published == s.published
  }

  lemma SlotsGrow(opcodes: map<nat, nat>, offered: set<(nat, Bytes)>, a: nat, n: Node, more: set<(nat, Bytes)>)
    requires SlotsLogged(opcodes, offered, a, n) && offered <= more
    ensures SlotsLogged(opcodes, more, a, n)
  {}

  lemma NodeGrows(opcodes: map<nat, nat>, samples: map<nat, Sample>, framed: set<(nat, Bytes)>, offered: set<(nat, Bytes)>, a: nat, n: Node,
                  more: map<nat, Sample>, framedMore: set<(nat, Bytes)>, offeredMore: set<(nat, Bytes)>)
    requires NodeLogged(opcodes, samples, framed, offered, a, n)
    requires Grows(samples, more) && framed <= framedMore && offered <= offeredMore
    ensures NodeLogged(opcodes, more, framedMore, offeredMore, a, n)
  {
    SamplesGrow(opcodes, samples, framed, a, n, more, framedMore);
    SlotsGrow(opcodes, offered, a, n, offeredMore);
  }

  /** Node `a` changed, the logs grew; everybody else is as before. */
  lemma NodesStep(opcodes: map<nat, nat>, s: Net, s': Net, a: nat)
    requires NodesLogged(opcodes, s) && s'.nodes.Keys == s.nodes.Keys && a in s.nodes
    requires forall b | b in s.nodes && b != a :: s'.nodes[b] == s.nodes[b]
    requires Grows(s.samples, s'.samples) && s.framed <= s'.framed && s.offered <= s'.offered
    requires NodeLogged(opcodes, s'.samples, s'.framed, s'.offered, a, s'.nodes[a])
    ensures NodesLogged(opcodes, s')
  {
    forall b | b in s'.nodes ensures NodeLogged(opcodes, s'.samples, s'.framed, s'.offered, b, s'.nodes[b]) {
      if b != a {
        assert NodeLogged(opcodes, s.samples, s.framed, s.offered, b, s.nodes[b]);
        NodeGrows(opcodes, s.samples, s.framed, s.offered, b, s.nodes[b], s'.samples, s'.framed, s'.offered);
      }
    }
  }

  lemma AirStep(s: Net, s': Net, added: set<Wire>)
    requires AirLogged(s) && s'.air <= s.air + added && s'.decoding == s.decoding
    requires Grows(s.samples, s'.samples) && s.framed <= s'.framed
    requires forall w | w in added :: CopyOk(s.samples, s.framed, w)
    ensures AirLogged(s')
  {}

  lemma GrownNodes(opcodes: map<nat, nat>, s: Net, s': Net, a: nat, n: Node, samples: map<nat, Sample>, framed: set<(nat, Bytes)>,
                   offered: set<(nat, Bytes)>)
    requires NodesLogged(opcodes, s) && a in s.nodes && s'.nodes == s.nodes[a := n]
    requires s'.samples == samples && Grows(s.samples, samples) && s'.framed == framed && s.framed <= framed
    requires s'.offered == offered && s.offered <= offered && NodeLogged(opcodes, samples, framed, offered, a, n)
    ensures NodesLogged(opcodes, s')
  {
    NodesStep(opcodes, s, s', a);
  }

  lemma LocalNodesLogged(opcodes: map<nat, nat>, s: Net, a: nat, e: Event, s': Net)
    requires NodesLogged(opcodes, s) && CanStep(s, Local(a, e)) && Proper(opcodes, a, e) && LogsAfter(s, a, e, s')
    ensures NodesLogged(opcodes, s')
  {
    var n := s.nodes[a];
    LocalLogged(opcodes, s.samples, s.framed, s.offered, a, n, e);
    GrownNodes(opcodes, s, s', a, Next(n, e), s.samples + NewSamples(a, n, e), s.framed + Framings(Next(n, e).t), s.offered + NewOffers(a, e));
  }

  lemma LocalStepLogged(opcodes: map<nat, nat>, s: Net, a: nat, e: Event, s': Net)
    requires Logged(opcodes, s) && CanStep(s, Local(a, e)) && Proper(opcodes, a, e) && LogsAfter(s, a, e, s')
    ensures Logged(opcodes, s')
  {
    LocalNodesLogged(opcodes, s, a, e, s');
    NewWiresOk(opcodes, s, a, e);
    AirStep(s, s', NewWires(a, s.nodes[a], e));
    StepFramed(opcodes, s, a, e, s');
  }

  /** What a receive step does: one node handles one event, at most the frame starts or stops decoding. */
  ghost predicate ReceiveAfter(s: Net, a: nat, e: Event, s': Net)
    requires a in s.nodes && Enabled(s.nodes[a], e)
  {
    && s' == s.(nodes := s.nodes[a := Next(s.nodes[a], e)], decoding := s'.decoding, published := s'.published)
  }

  lemma ReceiveNodeLogged(opcodes: map<nat, nat>, samples: map<nat, Sample>, framed: set<(nat, Bytes)>, offered: set<(nat, Bytes)>,
                          a: nat, n: Node, e: Event)
    requires NodeLogged(opcodes, samples, framed, offered, a, n) && Enabled(n, e) && !IsLocal(e)
    ensures NodeLogged(opcodes, samples, framed, offered, a, Next(n, e))
  {
    EventKeeps(n, e);
    ReceiveLogged(opcodes, samples, framed, offered, a, n, e);
  }

  lemma OneNodeStep(opcodes: map<nat, nat>, s: Net, a: nat, n: Node, s': Net)
    requires NodesLogged(opcodes, s) && a in s.nodes && NodeLogged(opcodes, s.samples, s.framed, s.offered, a, n)
    requires s' == s.(nodes := s.nodes[a := n], decoding := s'.decoding, published := s'.published)
    ensures NodesLogged(opcodes, s')
  {}

  lemma ReceiveStepLogged(opcodes: map<nat, nat>, s: Net, a: nat, e: Event, s': Net)
    requires NodesLogged(opcodes, s) && a in s.nodes && Enabled(s.nodes[a], e) && !IsLocal(e) && ReceiveAfter(s, a, e, s')
    ensures NodesLogged(opcodes, s')
  {
    ReceiveNodeLogged(opcodes, s.samples, s.framed, s.offered, a, s.nodes[a], e);
    OneNodeStep(opcodes, s, a, Next(s.nodes[a], e), s');
  }

  /** Starting to decode a frame from the air keeps the rest of the network as logged. */
  lemma DecodingLogged(s: Net, a: nat, w: Wire, s': Net)
    requires AirLogged(s) && FramedOffered(s) && PublishedFramed(s) && w in s.air && w.dst == a
    requires s' == s.(nodes := s'.nodes, decoding := s'.decoding)
    requires s'.decoding == s.decoding || (IsDataFrame(w.data) && s'.decoding == s.decoding[(a, WireKey(w)) := w])
    ensures AirLogged(s') && FramedOffered(s') && PublishedFramed(s')
  {}

  lemma DecodeStepLogged(opcodes: map<nat, nat>, s: Net, a: nat, w: Wire, e: Event, s': Net)
    requires Logged(opcodes, s) && a in s.nodes && (a, WireKey(w)) in s.decoding && s.decoding[(a, WireKey(w))] == w && IsDataFrame(w.data)
    requires e.DecodeDone? && Enabled(s.nodes[a], e) && ReceiveAfter(s, a, e, s') && s'.decoding == s.decoding - {(a, WireKey(w))}
    requires s'.published == s.published || s'.published == s.published[(a, w.sample) := Reconstruct(w.data)]
    ensures Logged(opcodes, s')
  {
    ReceiveStepLogged(opcodes, s, a, e, s');
  }

  lemma DecodesData(t: Tables, w: Wire, now: Time)
    requires !IsAck(w.data) && (IsDataFrame(w.data) || IsQuery(w.data)) && FrameReceived(t, w.src, w.appKey, w.data, now).1
    ensures IsDataFrame(w.data)
  {}

  lemma StepShape(s: Net, l: Label)
    requires CanStep(s, l)
    ensures l.Local? ==> LogsAfter(s, l.a, l.e, Step(s, l))
    ensures l.Deliver? ==> ReceiveAfter(s, l.a, ReceiveEvent(l.w, l.at), Step(s, l)) && Step(s, l).published == s.published
    ensures l.Deliver? ==> Step(s, l).decoding == if Decodes(s, l.a, l.w, l.at) then s.decoding[(l.a, WireKey(l.w)) := l.w] else s.decoding
    ensures l.Decode? ==> ReceiveAfter(s, l.a, DecodeDone(Message(l.w), l.delivered, l.local, l.members, l.when), Step(s, l))
    ensures l.Decode? ==> Step(s, l).decoding == s.decoding - {(l.a, WireKey(l.w))}
    ensures l.Decode? ==>
      Step(s, l).published == if l.delivered then s.published[(l.a, l.w.sample) := Reconstruct(l.w.data)] else s.published
    ensures l.Drop? ==> Step(s, l) == s.(air := s.air - {l.w})
  {}

  /** Every step of the network keeps the nodes and the air in agreement with the logs; in particular
      whatever a node publishes was framed for that sample, and only offered payloads are framed. */
  lemma StepLogged(opcodes: map<nat, nat>, s: Net, l: Label)
    requires Logged(opcodes, s) && CanStep(s, l) && ProperLabel(opcodes, l)
    ensures Logged(opcodes, Step(s, l))
  {
    StepShape(s, l);
    match l
    case Local(a, e) => LocalStepLogged(opcodes, s, a, e, Step(s, l));
    case Deliver(a, w, now) =>
      if Decodes(s, a, w, now) { DecodesData(s.nodes[a].t, w, now); }
      ReceiveStepLogged(opcodes, s, a, ReceiveEvent(w, now), Step(s, l));
      DecodingLogged(s, a, w, Step(s, l));
    case Decode(a, w, delivered, local, members, now) =>
      DecodeStepLogged(opcodes, s, a, w, DecodeDone(Message(w), delivered, local, members, now), Step(s, l));
    case Drop(_) =>
  }

  lemma InitialLogged(opcodes: map<nat, nat>, s: Net)
    requires Initial(s)
    ensures Logged(opcodes, s)
  {}
}
