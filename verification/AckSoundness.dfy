/** End-to-end meaning of a receipt on a network that loses, duplicates and reorders: the sender strikes
    a peer off a sample only if that peer's bridge published a payload framed for that very sample. */
module AckSoundness {
  import opened MeshFrame
  import opened MeshTables
  import opened MeshWorker
  import opened MeshEffects
  import opened MeshInvariant
  import opened MeshNetwork
  import opened MeshLogs

  ghost predicate Keeps(n: Node, i: nat) { exists k | k in n.t.pending :: n.t.pending[k].sample == i }

  /** Sample `i` still awaits receipts at its source. */
  ghost predicate IsPending(s: Net, i: nat) {
    i in s.samples && s.samples[i].source in s.nodes && Keeps(s.nodes[s.samples[i].source], i)
  }

  /** A receipt with key `key` from node `p` tells the truth about the sample it would be matched with. */
  ghost predicate ReceiptOk(s: Net, p: nat, key: SeenKey) {
    forall i | IsPending(s, i) && s.samples[i].key == key :: (p, i) in s.published
  }

  /** A data copy with key `key` belongs to sample `tag` if that key is pending at all. */
  ghost predicate DataOk(s: Net, key: SeenKey, tag: nat) {
    forall i | IsPending(s, i) && s.samples[i].key == key :: i == tag
  }

  function AckKey(x: Ack): SeenKey { KeyOf(x.destination, x.appKey, x.data) }
  function ItemKey(item: Outbound): SeenKey { KeyOf(item.destination, item.appKey, item.data) }

  ghost predicate NodeReceiptsOk(s: Net, p: nat, n: Node) {
    && (forall x | x in n.t.acks :: ReceiptOk(s, p, AckKey(x)))
    && (forall k | k in n.t.seen && n.t.seen[k].delivered :: ReceiptOk(s, p, k))
    && (forall item | item in n.work.outbound && IsAck(item.data) :: ReceiptOk(s, p, ItemKey(item)))
    && (forall item | item in n.work.outbound && IsDataFrame(item.data) :: DataOk(s, KeyOf(p, item.appKey, item.data), item.sample))
  }

  ghost predicate AirReceiptsOk(s: Net) {
    && (forall w | w in s.air && IsAck(w.data) :: ReceiptOk(s, w.src, KeyOf(w.dst, w.appKey, w.data)))
    && (forall w | w in s.air && IsDataFrame(w.data) :: DataOk(s, WireKey(w), w.sample))
    && (forall x | x in s.decoding :: DataOk(s, x.1, s.decoding[x].sample))
  }

  ghost predicate ReceiptsOk(s: Net) {
    (forall p | p in s.nodes :: NodeReceiptsOk(s, p, s.nodes[p])) && AirReceiptsOk(s)
  }

  /** No frame or receipt of an earlier sample with this key is in flight or queued, and no receiver
      remembers it. */
  ghost predicate KeyUnused(s: Net, key: SeenKey) {
    && (forall w | w in s.air && IsDataFrame(w.data) :: WireKey(w) != key)
    && (forall w | w in s.air && IsAck(w.data) :: KeyOf(w.dst, w.appKey, w.data) != key)
    && (forall x | x in s.decoding :: x.1 != key)
    && (forall p | p in s.nodes :: key !in s.nodes[p].t.seen)
    && (forall p, x | p in s.nodes && x in s.nodes[p].t.acks :: AckKey(x) != key)
    && (forall p, item | p in s.nodes && item in s.nodes[p].work.outbound && IsAck(item.data) :: ItemKey(item) != key)
    && (forall p, item | p in s.nodes && item in s.nodes[p].work.outbound && IsDataFrame(item.data) ::
          KeyOf(p, item.appKey, item.data) != key)
  }

  /** The sequence of a new sample is not reused too early. */
  ghost predicate FreshSequence(s: Net, l: Label)
    requires CanStep(s, l)
  {
    l.Local? && l.e.Enqueue? ==> KeyUnused(s, NewSamples(l.a, s.nodes[l.a], l.e)[l.e.tag].key)
  }

  // ---------------------------------------------------------------- samples end but never come back

  ghost predicate Fades(n: Node, after: Node, born: set<nat>) { forall i | i !in born && Keeps(after, i) :: Keeps(n, i) }

  lemma ShrinkKeeps(n: Node, after: Node)
    requires SamplesShrink(n.t, after.t)
    ensures Fades(n, after, {})
  {
    forall i | Keeps(after, i) ensures Keeps(n, i) {
      var k :| k in after.t.pending && after.t.pending[k].sample == i;
      assert SameIdentityAs(n.t.pending[k], after.t.pending[k]);
    }
  }

  lemma TickKeeps(n: Node, now: Time)
    ensures forall i | Keeps(Node(TickLocked(n.t, now).t, n.work), i) :: Keeps(n, i)
  {
    var after := TickLocked(n.t, now).t;
    TickEffect(n.t, now);
    forall i | Keeps(Node(after, n.work), i) ensures Keeps(n, i) {
      var k :| k in after.pending && after.pending[k].sample == i;
      assert Fate(n.t, k, after, now);
    }
  }

  lemma EnqueueKept(n: Node, e: Event)
    requires NodeOk(n) && Enabled(n, e) && e.Enqueue?
    ensures Fades(n, Next(n, e), {e.tag})
  {
    EnqueueKeeps(n, e.swarm, e.tag, e.now);
    var after := AfterEnqueue(n, e.swarm, e.tag, e.now);
    forall i | i != e.tag && Keeps(after, i) ensures Keeps(n, i) {
      var k :| k in after.t.pending && after.t.pending[k].sample == i;
      assert k in n.t.pending && n.t.pending[k] == after.t.pending[k];
    }
  }

  function BornTags(e: Event): set<nat> { if e.Enqueue? then {e.tag} else {} }

  lemma EventFades(n: Node, e: Event)
    requires NodeOk(n) && Enabled(n, e)
    requires forall x | x in n.t.acks :: IsAck(x.data)
    requires forall item | item in n.work.outbound :: item.acknowledgement ==> IsAck(item.data)
    ensures Fades(n, Next(n, e), BornTags(e))
  {
    if !IsLocal(e) {
      ReceiveShrinks(n, e);
      ShrinkKeeps(n, Next(n, e));
    } else if Quiet(e) {
      QuietShrinks(n, e);
      ShrinkKeeps(n, Next(n, e));
    } else {
      match e
      case OfferValue(_, _, _) => PlainKeeps(n, e);
      case ResumeNext(_, _) => PlainKeeps(n, e);
      case MakePlan(_) => PlainKeeps(n, e);
      case StartTick(now) => TickKeeps(n, now);
      case Enqueue(_, _, _) => EnqueueKept(n, e);
    }
  }

  lemma PlainKeeps(n: Node, e: Event)
    requires Enabled(n, e) && (e.OfferValue? || e.ResumeNext? || e.MakePlan?)
    ensures Fades(n, Next(n, e), {})
  {
    PlainShrinks(n, e);
    ShrinkKeeps(n, Next(n, e));
  }

  /** Nothing but `born` may be pending that was not; publications and samples only grow. */
  ghost predicate Ages(s: Net, s': Net, born: set<nat>) {
    && Grows(s.samples, s'.samples) && (forall x | x in s.published :: x in s'.published)
    && (forall i | i in s'.samples && i !in born :: i in s.samples)
    && (forall i | IsPending(s', i) && i !in born :: IsPending(s, i))
  }

  lemma StepAges(s: Net, s': Net, a: nat, n: Node, born: set<nat>)
    requires a in s.nodes && s'.nodes == s.nodes[a := n] && Fades(s.nodes[a], n, born) && Grows(s.samples, s'.samples)
    requires forall i | i in s'.samples && i !in born :: i in s.samples
    requires forall x | x in s.published :: x in s'.published
    ensures Ages(s, s', born)
  {}

  lemma ReceiptAges(s: Net, s': Net, born: set<nat>, p: nat, key: SeenKey)
    requires ReceiptOk(s, p, key) && Ages(s, s', born) && forall i | i in born && i in s'.samples :: s'.samples[i].key != key
    ensures ReceiptOk(s', p, key)
  {}

  lemma DataAges(s: Net, s': Net, born: set<nat>, key: SeenKey, tag: nat)
    requires DataOk(s, key, tag) && Ages(s, s', born) && forall i | i in born && i in s'.samples :: s'.samples[i].key != key
    ensures DataOk(s', key, tag)
  {}

  ghost predicate BornUnused(s: Net, s': Net, born: set<nat>) {
    forall i | i in born && i in s'.samples :: KeyUnused(s, s'.samples[i].key)
  }

  /** Receipts and copies that existed before keep their meaning. */
  lemma NodeAges(s: Net, s': Net, born: set<nat>, p: nat)
    requires p in s.nodes && NodeReceiptsOk(s, p, s.nodes[p]) && Ages(s, s', born) && BornUnused(s, s', born)
    ensures NodeReceiptsOk(s', p, s.nodes[p])
  {
    var n := s.nodes[p];
    forall x | x in n.t.acks ensures ReceiptOk(s', p, AckKey(x)) { ReceiptAges(s, s', born, p, AckKey(x)); }
    forall k | k in n.t.seen && n.t.seen[k].delivered ensures ReceiptOk(s', p, k) { ReceiptAges(s, s', born, p, k); }
    forall item | item in n.work.outbound && IsAck(item.data) ensures ReceiptOk(s', p, ItemKey(item)) {
      ReceiptAges(s, s', born, p, ItemKey(item));
    }
    forall item | item in n.work.outbound && IsDataFrame(item.data) ensures DataOk(s', KeyOf(p, item.appKey, item.data), item.sample) {
      DataAges(s, s', born, KeyOf(p, item.appKey, item.data), item.sample);
    }
  }

  lemma AirAges(s: Net, s': Net, born: set<nat>)
    requires AirReceiptsOk(s) && Ages(s, s', born) && BornUnused(s, s', born)
    ensures forall w | w in s.air && IsAck(w.data) :: ReceiptOk(s', w.src, KeyOf(w.dst, w.appKey, w.data))
    ensures forall w | w in s.air && IsDataFrame(w.data) :: DataOk(s', WireKey(w), w.sample)
    ensures forall x | x in s.decoding :: DataOk(s', x.1, s.decoding[x].sample)
  {
    forall w | w in s.air && IsAck(w.data) ensures ReceiptOk(s', w.src, KeyOf(w.dst, w.appKey, w.data)) {
      ReceiptAges(s, s', born, w.src, KeyOf(w.dst, w.appKey, w.data));
    }
    forall w | w in s.air && IsDataFrame(w.data) ensures DataOk(s', WireKey(w), w.sample) {
      DataAges(s, s', born, WireKey(w), w.sample);
    }
    forall x | x in s.decoding ensures DataOk(s', x.1, s.decoding[x].sample) {
      DataAges(s, s', born, x.1, s.decoding[x].sample);
    }
  }

  // ---------------------------------------------------------------- what local events add

  /** Each pending key names one sample. */
  lemma PendingUnique(opcodes: map<nat, nat>, s: Net, a: nat, k: nat, i: nat)
    requires NodesLogged(opcodes, s) && a in s.nodes && k in s.nodes[a].t.pending && IsPending(s, i)
    requires PendingOk(opcodes, s.samples, s.framed, a, k, s.nodes[a].t.pending[k])
    requires s.samples[i].key == s.samples[s.nodes[a].t.pending[k].sample].key
    ensures i == s.nodes[a].t.pending[k].sample
  {
    var b := s.samples[i].source;
    assert NodeLogged(opcodes, s.samples, s.framed, s.offered, b, s.nodes[b]);
    var j :| j in s.nodes[b].t.pending && s.nodes[b].t.pending[j].sample == i;
    assert PendingOk(opcodes, s.samples, s.framed, b, j, s.nodes[b].t.pending[j]);
  }

  /** A copy built for a pending sample is a copy of what its key names. */
  lemma PendingData(opcodes: map<nat, nat>, s: Net, a: nat, k: nat, key: SeenKey)
    requires NodesLogged(opcodes, s) && a in s.nodes && k in s.nodes[a].t.pending
    requires s.nodes[a].t.pending[k].sample in s.samples && s.samples[s.nodes[a].t.pending[k].sample].key == key
    ensures DataOk(s, key, s.nodes[a].t.pending[k].sample)
  {
    assert NodeLogged(opcodes, s.samples, s.framed, s.offered, a, s.nodes[a]);
    assert PendingOk(opcodes, s.samples, s.framed, a, k, s.nodes[a].t.pending[k]);
    forall i | IsPending(s, i) && s.samples[i].key == key ensures i == s.nodes[a].t.pending[k].sample {
      PendingUnique(opcodes, s, a, k, i);
    }
  }

  lemma TickReceipts(opcodes: map<nat, nat>, s: Net, a: nat, n: Node, now: Time)
    requires NodesLogged(opcodes, s) && a in s.nodes && Enabled(n, StartTick(now)) && s.nodes[a] == Next(n, StartTick(now))
    requires NodeReceiptsOk(s, a, n)
    ensures NodeReceiptsOk(s, a, s.nodes[a])
  {
    var after := s.nodes[a];
    var tick := TickLocked(n.t, now);
    TickEffect(n.t, now);
    LocalSeen(n, StartTick(now));
    forall item | item in after.work.outbound && IsAck(item.data) ensures ReceiptOk(s, a, ItemKey(item)) {
      TickAckItem(n.t, tick, item);
    }
    forall item | item in after.work.outbound && IsDataFrame(item.data) ensures DataOk(s, KeyOf(a, item.appKey, item.data), item.sample) {
      TickDataItem(opcodes, s, a, item);
    }
  }

  lemma TickAckItem(t: Tables, tick: Tick, item: Outbound)
    requires AckItem(t, item) || SampleItem(tick.t, item)
    requires IsAck(item.data)
    ensures exists x | x in t.acks :: AckKey(x) == ItemKey(item)
  {
    if AckItem(t, item) {
      var i :| 0 <= i < AckCount(t) && item == Outbound(t.acks[i].destination, t.acks[i].appKey, 0, false, true, t.acks[i].data, None, 0);
      assert t.acks[i] in t.acks && AckKey(t.acks[i]) == ItemKey(item);
    }
  }

  lemma TickDataItem(opcodes: map<nat, nat>, s: Net, a: nat, item: Outbound)
    requires NodesLogged(opcodes, s) && a in s.nodes && item in s.nodes[a].work.outbound && IsDataFrame(item.data)
    requires SampleItem(s.nodes[a].t, item)
    ensures DataOk(s, KeyOf(a, item.appKey, item.data), item.sample)
  {
    var k :| k in s.nodes[a].t.pending && Source(s.nodes[a].t, item, k);
    assert NodeLogged(opcodes, s.samples, s.framed, s.offered, a, s.nodes[a]);
    assert CopyOk(s.samples, s.framed, ItemWire(a, item));
    PendingData(opcodes, s, a, k, KeyOf(a, item.appKey, item.data));
  }

  /** Local events other than the tick queue no receipt and build no frame. */
  lemma LocalQueues(n: Node, e: Event)
    requires NodeOk(n) && Enabled(n, e) && IsLocal(e) && !e.StartTick?
    requires forall item | item in n.work.outbound :: item.acknowledgement ==> IsAck(item.data)
    ensures forall x | x in Next(n, e).t.acks :: x in n.t.acks
              || exists item | item in n.work.outbound && IsAck(item.data) :: ItemKey(item) == AckKey(x)
    ensures forall item | item in Next(n, e).work.outbound :: item in n.work.outbound
  {
    if e.OutboundAnswered? {
      OutboundQueues(n, e);
    } else if Quiet(e) {
      QuietQueues(n, e);
    } else {
      match e
      case OfferValue(_, _, _) => PlainQueues(n, e);
      case ResumeNext(_, _) => PlainQueues(n, e);
      case MakePlan(_) => PlainQueues(n, e);
      case Enqueue(_, _, _) => PlainQueues(n, e);
    }
  }

  lemma OutboundQueues(n: Node, e: Event)
    requires Enabled(n, e) && e.OutboundAnswered?
    requires n.work.outbound[0].acknowledgement ==> IsAck(n.work.outbound[0].data)
    ensures forall x | x in Next(n, e).t.acks :: x in n.t.acks
              || (n.work.outbound[0] in n.work.outbound && IsAck(n.work.outbound[0].data) && ItemKey(n.work.outbound[0]) == AckKey(x))
    ensures forall item | item in Next(n, e).work.outbound :: item in n.work.outbound
  {}

  lemma QuietQueues(n: Node, e: Event)
    requires Enabled(n, e) && Quiet(e) && !e.OutboundAnswered?
    ensures forall x | x in Next(n, e).t.acks :: x in n.t.acks
    ensures forall item | item in Next(n, e).work.outbound :: item in n.work.outbound
  {
    match e
    case SpendTurn(_) =>
    case FinishSend =>
    case CheckAnswered(_) =>
    case Reset(_) =>
    case OutboundStillNative =>
    case Remember(_) =>
    case FirstSendAnswered(_, _) =>
    case TakeCancellations(_) =>
    case CancelAnswered(_) =>
  }

  lemma PlainQueues(n: Node, e: Event)
    requires Enabled(n, e) && (e.OfferValue? || e.ResumeNext? || e.MakePlan? || e.Enqueue?)
    ensures Next(n, e).t.acks == n.t.acks && Next(n, e).work.outbound == n.work.outbound
  {}

  lemma LocalReceipts(opcodes: map<nat, nat>, s: Net, a: nat, n: Node, e: Event)
    requires NodesLogged(opcodes, s) && a in s.nodes && NodeOk(n) && Enabled(n, e) && IsLocal(e) && s.nodes[a] == Next(n, e)
    requires NodeReceiptsOk(s, a, n) && forall item | item in n.work.outbound :: item.acknowledgement ==> IsAck(item.data)
    ensures NodeReceiptsOk(s, a, s.nodes[a])
  {
    if e.StartTick? {
      TickReceipts(opcodes, s, a, n, e.now);
    } else {
      LocalQueues(n, e);
      LocalSeen(n, e);
    }
  }

  lemma FirstWireData(opcodes: map<nat, nat>, s: Net, a: nat, n: Node, w: Wire)
    requires NodesLogged(opcodes, s) && a in s.nodes && n.work.job.Some? && n.work.job.value.phase.Sending? && NodeOk(n)
    requires n.work.job.value.phase.next < |n.work.job.value.phase.plan.targets| && w == FirstWire(a, n.work.job.value)
    requires JobLogged(s.samples, s.framed, a, n.work.job.value)
    requires forall k | k in s.nodes[a].t.pending :: k in n.t.pending && s.nodes[a].t.pending[k].sample == n.t.pending[k].sample
    ensures IsDataFrame(w.data) && DataOk(s, WireKey(w), w.sample)
  {
    var job := n.work.job.value;
    MarkedSame(job.phase.wrapped, w.dst == job.phase.plan.successor);
    forall i | IsPending(s, i) && s.samples[i].key == WireKey(w) ensures i == w.sample {
      var b := s.samples[i].source;
      assert NodeLogged(opcodes, s.samples, s.framed, s.offered, b, s.nodes[b]);
      var j :| j in s.nodes[b].t.pending && s.nodes[b].t.pending[j].sample == i;
      assert PendingOk(opcodes, s.samples, s.framed, b, j, s.nodes[b].t.pending[j]);
    }
  }

  // ---------------------------------------------------------------- local steps

  lemma NodeFacts(opcodes: map<nat, nat>, s: Net, a: nat)
    requires NodesLogged(opcodes, s) && a in s.nodes
    ensures NodeOk(s.nodes[a]) && forall x | x in s.nodes[a].t.acks :: IsAck(x.data)
    ensures forall item | item in s.nodes[a].work.outbound :: item.acknowledgement ==> IsAck(item.data)
  {
    assert NodeLogged(opcodes, s.samples, s.framed, s.offered, a, s.nodes[a]);
  }

  lemma LoggedAges(s: Net, a: nat, e: Event, s': Net)
    requires CanStep(s, Local(a, e)) && LogsAfter(s, a, e, s') && Fades(s.nodes[a], Next(s.nodes[a], e), BornTags(e))
    ensures Ages(s, s', BornTags(e))
  {
    StepAges(s, s', a, Next(s.nodes[a], e), BornTags(e));
  }

  lemma BornFresh(s: Net, a: nat, e: Event, s': Net)
    requires CanStep(s, Local(a, e)) && LogsAfter(s, a, e, s') && FreshSequence(s, Local(a, e))
    ensures BornUnused(s, s', BornTags(e))
  {}

  lemma LocalAges(opcodes: map<nat, nat>, s: Net, a: nat, e: Event, s': Net)
    requires NodesLogged(opcodes, s) && CanStep(s, Local(a, e)) && LogsAfter(s, a, e, s') && FreshSequence(s, Local(a, e))
    ensures Ages(s, s', BornTags(e)) && BornUnused(s, s', BornTags(e))
  {
    NodeFacts(opcodes, s, a);
    EventFades(s.nodes[a], e);
    LoggedAges(s, a, e, s');
    BornFresh(s, a, e, s');
  }

  lemma NewItemReceipts(s: Net, a: nat, n: Node, e: Event)
    requires Enabled(n, e) && e.OutboundAnswered? && NodeReceiptsOk(s, a, n)
    ensures var w := ItemWire(a, n.work.outbound[0]);
            && (IsAck(w.data) ==> ReceiptOk(s, w.src, KeyOf(w.dst, w.appKey, w.data)))
            && (IsDataFrame(w.data) ==> DataOk(s, WireKey(w), w.sample))
  {
    assert n.work.outbound[0] in n.work.outbound;
  }

  lemma JobGrown(opcodes: map<nat, nat>, s: Net, a: nat, e: Event, s': Net)
    requires NodesLogged(opcodes, s) && a in s.nodes && s.nodes[a].work.job.Some?
    requires Grows(s.samples, s'.samples) && s.framed <= s'.framed
    ensures JobLogged(s'.samples, s'.framed, a, s.nodes[a].work.job.value)
  {
    assert NodeLogged(opcodes, s.samples, s.framed, s.offered, a, s.nodes[a]);
  }

  lemma NewFirstWire(opcodes: map<nat, nat>, s: Net, a: nat, e: Event, s': Net)
    requires NodesLogged(opcodes, s) && CanStep(s, Local(a, e)) && LogsAfter(s, a, e, s') && NodesLogged(opcodes, s')
    requires e.FirstSendAnswered?
    ensures var w := FirstWire(a, s.nodes[a].work.job.value); IsDataFrame(w.data) && DataOk(s', WireKey(w), w.sample)
  {
    NodeFacts(opcodes, s, a);
    JobGrown(opcodes, s, a, e, s');
    FirstSendQuiet(s.nodes[a], e);
    FirstWireData(opcodes, s', a, s.nodes[a], FirstWire(a, s.nodes[a].work.job.value));
  }

  lemma NewWireReceipts(opcodes: map<nat, nat>, s: Net, a: nat, e: Event, s': Net, w: Wire)
    requires NodesLogged(opcodes, s) && CanStep(s, Local(a, e)) && LogsAfter(s, a, e, s') && NodesLogged(opcodes, s')
    requires NodeReceiptsOk(s', a, s.nodes[a]) && w in NewWires(a, s.nodes[a], e)
    ensures IsAck(w.data) ==> ReceiptOk(s', w.src, KeyOf(w.dst, w.appKey, w.data))
    ensures IsDataFrame(w.data) ==> DataOk(s', WireKey(w), w.sample)
  {
    NewWireIs(a, s.nodes[a], e, w);
    if e.OutboundAnswered? { NewItemReceipts(s', a, s.nodes[a], e); } else { NewFirstWire(opcodes, s, a, e, s'); }
  }

  lemma OldReceipts(opcodes: map<nat, nat>, s: Net, a: nat, e: Event, s': Net)
    requires NodesLogged(opcodes, s) && ReceiptsOk(s) && CanStep(s, Local(a, e)) && LogsAfter(s, a, e, s')
    requires FreshSequence(s, Local(a, e))
    ensures forall p | p in s.nodes :: NodeReceiptsOk(s', p, s.nodes[p])
  {
    LocalAges(opcodes, s, a, e, s');
    forall p | p in s.nodes ensures NodeReceiptsOk(s', p, s.nodes[p]) { NodeAges(s, s', BornTags(e), p); }
  }

  lemma OwnReceipts(opcodes: map<nat, nat>, s: Net, a: nat, e: Event, s': Net)
    requires NodesLogged(opcodes, s) && CanStep(s, Local(a, e)) && s'.nodes == s.nodes[a := Next(s.nodes[a], e)]
    requires NodesLogged(opcodes, s') && NodeReceiptsOk(s', a, s.nodes[a])
    ensures NodeReceiptsOk(s', a, s'.nodes[a])
  {
    NodeFacts(opcodes, s, a);
    LocalReceipts(opcodes, s', a, s.nodes[a], e);
  }

  lemma AllReceipts(s: Net, s': Net, a: nat, n: Node)
    requires a in s.nodes && s'.nodes == s.nodes[a := n] && NodeReceiptsOk(s', a, n)
    requires forall p | p in s.nodes :: NodeReceiptsOk(s', p, s.nodes[p])
    ensures forall p | p in s.nodes :: NodeReceiptsOk(s', p, s.nodes[p]) && NodeReceiptsOk(s', p, s'.nodes[p])
  {}

  lemma LocalNodes(opcodes: map<nat, nat>, s: Net, a: nat, e: Event, s': Net)
    requires NodesLogged(opcodes, s) && ReceiptsOk(s) && CanStep(s, Local(a, e)) && LogsAfter(s, a, e, s')
    requires FreshSequence(s, Local(a, e)) && NodesLogged(opcodes, s')
    ensures forall p | p in s.nodes :: NodeReceiptsOk(s', p, s.nodes[p]) && NodeReceiptsOk(s', p, s'.nodes[p])
  {
    OldReceipts(opcodes, s, a, e, s');
    OwnReceipts(opcodes, s, a, e, s');
    AllReceipts(s, s', a, Next(s.nodes[a], e));
  }
  lemma LocalReceiptsOk(opcodes: map<nat, nat>, s: Net, a: nat, e: Event, s': Net)
    requires NodesLogged(opcodes, s) && ReceiptsOk(s) && CanStep(s, Local(a, e)) && LogsAfter(s, a, e, s')
    requires FreshSequence(s, Local(a, e)) && NodesLogged(opcodes, s')
    ensures ReceiptsOk(s')
  {
    LocalNodes(opcodes, s, a, e, s');
    LocalAges(opcodes, s, a, e, s');
    AirAges(s, s', BornTags(e));
    forall w | w in NewWires(a, s.nodes[a], e)
      ensures IsAck(w.data) ==> ReceiptOk(s', w.src, KeyOf(w.dst, w.appKey, w.data))
      ensures IsDataFrame(w.data) ==> DataOk(s', WireKey(w), w.sample)
    {
      NewWireReceipts(opcodes, s, a, e, s', w);
    }
  }

  // ---------------------------------------------------------------- receive steps

  lemma ReceiveAges(s: Net, a: nat, e: Event, s': Net)
    requires a in s.nodes && Enabled(s.nodes[a], e) && !IsLocal(e) && ReceiveAfter(s, a, e, s')
    requires forall x | x in s.published :: x in s'.published
    ensures Ages(s, s', {}) && BornUnused(s, s', {})
  {
    ReceiveShrinks(s.nodes[a], e);
    ShrinkKeeps(s.nodes[a], Next(s.nodes[a], e));
    StepAges(s, s', a, Next(s.nodes[a], e), {});
  }

  lemma AckForKey(source: nat, appKey: nat, data: ReliableFrame)
    ensures KeyOf(source, appKey, AckFor(data)) == KeyOf(source, appKey, data)
  {
    ControlFramesKeepIdentity(data);
  }

  lemma FrameQueuesDelivered(t: Tables, m: Received, now: Time, x: Ack)
    requires IsDataFrame(m.data) || IsQuery(m.data)
    requires x in FrameReceived(t, m.source, m.appKey, m.data, now).0.acks && x !in t.acks
    ensures AckKey(x) in t.seen && t.seen[AckKey(x)].delivered
    ensures FrameReceived(t, m.source, m.appKey, m.data, now).0.seen == t.seen
  {
    AckForKey(m.source, m.appKey, m.data);
  }

  lemma DecodeQueuesDelivered(t: Tables, e: Event, x: Ack)
    requires e.DecodeDone? && IsDataFrame(e.message.data)
    requires var after := DecodeFinished(t, e.message.source, e.message.appKey, e.message.element, e.message.data, e.delivered, e.local, e.members, e.now);
             x in after.acks && x !in t.acks
    ensures var after := DecodeFinished(t, e.message.source, e.message.appKey, e.message.element, e.message.data, e.delivered, e.local, e.members, e.now);
            AckKey(x) in after.seen && after.seen[AckKey(x)].delivered
  {
    AckForKey(e.message.source, e.message.appKey, e.message.data);
  }

  /** A receipt is queued, by a duplicate, a query or a publication, only for a delivered key. */
  lemma QueuesOnlyDelivered(n: Node, e: Event, x: Ack)
    requires Enabled(n, e) && !IsLocal(e) && x in Next(n, e).t.acks && x !in n.t.acks
    ensures AckKey(x) in Next(n, e).t.seen && Next(n, e).t.seen[AckKey(x)].delivered
  {
    if e.ReceiveFrame? {
      FrameQueuesDelivered(n.t, e.message, e.now, x);
    } else if e.DecodeDone? {
      DecodeQueuesDelivered(n.t, e, x);
    }
  }

  lemma ReceiveReceipts(s: Net, a: nat, n: Node, e: Event)
    requires a in s.nodes && Enabled(n, e) && !IsLocal(e) && s.nodes[a] == Next(n, e) && NodeReceiptsOk(s, a, n)
    requires forall k | k in Next(n, e).t.seen && Next(n, e).t.seen[k].delivered :: ReceiptOk(s, a, k)
    ensures NodeReceiptsOk(s, a, s.nodes[a])
  {
    ReceiveShrinks(n, e);
    forall x | x in s.nodes[a].t.acks ensures ReceiptOk(s, a, AckKey(x)) {
      if x !in n.t.acks { QueuesOnlyDelivered(n, e, x); }
    }
  }

  lemma ReceiveNodes(s: Net, a: nat, e: Event, s': Net)
    requires ReceiptsOk(s) && a in s.nodes && Enabled(s.nodes[a], e) && !IsLocal(e) && ReceiveAfter(s, a, e, s')
    requires forall x | x in s.published :: x in s'.published
    requires forall k | k in Next(s.nodes[a], e).t.seen && Next(s.nodes[a], e).t.seen[k].delivered :: ReceiptOk(s', a, k)
    ensures forall p | p in s'.nodes :: NodeReceiptsOk(s', p, s'.nodes[p])
  {
    ReceiveAges(s, a, e, s');
    forall p | p in s'.nodes ensures NodeReceiptsOk(s', p, s'.nodes[p]) {
      NodeAges(s, s', {}, p);
      if p == a { ReceiveReceipts(s', a, s.nodes[a], e); }
    }
  }

  lemma DeliverSeenSame(n: Node, w: Wire, now: Time, k: SeenKey)
    requires (IsAck(w.data) || IsDataFrame(w.data) || IsQuery(w.data)) && Enabled(n, ReceiveEvent(w, now))
    requires k in Next(n, ReceiveEvent(w, now)).t.seen && Next(n, ReceiveEvent(w, now)).t.seen[k].delivered
    ensures k in n.t.seen && n.t.seen[k].delivered
  {}

  lemma KnownReceipts(s: Net, a: nat, n: Node, w: Wire, now: Time)
    requires (IsAck(w.data) || IsDataFrame(w.data) || IsQuery(w.data)) && Enabled(n, ReceiveEvent(w, now)) && NodeReceiptsOk(s, a, n)
    ensures var seen := Next(n, ReceiveEvent(w, now)).t.seen; forall k | k in seen && seen[k].delivered :: ReceiptOk(s, a, k)
  {
    var seen := Next(n, ReceiveEvent(w, now)).t.seen;
    forall k | k in seen && seen[k].delivered ensures ReceiptOk(s, a, k) { DeliverSeenSame(n, w, now, k); }
  }

  lemma DeliverAir(s: Net, a: nat, w: Wire, now: Time, s': Net)
    requires AirReceiptsOk(s) && Ages(s, s', {}) && CanStep(s, Deliver(a, w, now)) && s'.air == s.air
    requires s'.decoding == if Decodes(s, a, w, now) then s.decoding[(a, WireKey(w)) := w] else s.decoding
    ensures AirReceiptsOk(s')
  {
    AirAges(s, s', {});
    if Decodes(s, a, w, now) { DecodesData(s.nodes[a].t, w, now); }
  }

  lemma DeliverReceiptsOk(s: Net, a: nat, w: Wire, now: Time, s': Net)
    requires ReceiptsOk(s) && CanStep(s, Deliver(a, w, now)) && s' == Step(s, Deliver(a, w, now))
    ensures ReceiptsOk(s')
  {
    var e := ReceiveEvent(w, now);
    StepShape(s, Deliver(a, w, now));
    ReceiveAges(s, a, e, s');
    NodeAges(s, s', {}, a);
    KnownReceipts(s', a, s.nodes[a], w, now);
    ReceiveNodes(s, a, e, s');
    DeliverAir(s, a, w, now, s');
  }

  lemma DecodeSeenSame(n: Node, e: Event, k: SeenKey)
    requires Enabled(n, e) && e.DecodeDone? && k in Next(n, e).t.seen && Next(n, e).t.seen[k].delivered
    ensures (k in n.t.seen && n.t.seen[k].delivered) || (e.delivered && k == KeyOf(e.message.source, e.message.appKey, e.message.data))
  {}

  lemma DecodeReceiptsOk(s: Net, l: Label, s': Net)
    requires ReceiptsOk(s) && CanStep(s, l) && l.Decode? && s' == Step(s, l)
    ensures ReceiptsOk(s')
  {
    var e := DecodeDone(Message(l.w), l.delivered, l.local, l.members, l.when);
    StepShape(s, l);
    ReceiveAges(s, l.a, e, s');
    NodeAges(s, s', {}, l.a);
    AirAges(s, s', {});
    forall k | k in Next(s.nodes[l.a], e).t.seen && Next(s.nodes[l.a], e).t.seen[k].delivered ensures ReceiptOk(s', l.a, k) {
      DecodeSeenSame(s.nodes[l.a], e, k);
      if k == WireKey(l.w) && l.delivered { PublishedReceipt(s', l.a, k, l.w.sample); }
    }
    ReceiveNodes(s, l.a, e, s');
  }

  lemma PublishedReceipt(s: Net, p: nat, key: SeenKey, tag: nat)
    requires DataOk(s, key, tag) && (p, tag) in s.published
    ensures ReceiptOk(s, p, key)
  {}

  /** Every step keeps the truth of all receipts, as long as sequences are not reused too early. */
  lemma StepReceiptsOk(opcodes: map<nat, nat>, s: Net, l: Label)
    requires Logged(opcodes, s) && ReceiptsOk(s) && CanStep(s, l) && ProperLabel(opcodes, l) && FreshSequence(s, l)
    ensures ReceiptsOk(Step(s, l))
  {
    StepLogged(opcodes, s, l);
    match l
    case Local(a, e) =>
      StepShape(s, l);
      LocalReceiptsOk(opcodes, s, a, e, Step(s, l));
    case Deliver(a, w, now) => DeliverReceiptsOk(s, a, w, now, Step(s, l));
    case Decode(_, _, _, _, _, _) => DecodeReceiptsOk(s, l, Step(s, l));
    case Drop(w) => DropReceiptsOk(s, w);
  }

  lemma DropReceiptsOk(s: Net, w: Wire)
    requires ReceiptsOk(s)
    ensures ReceiptsOk(s.(air := s.air - {w}))
  {
    var s' := s.(air := s.air - {w});
    forall p | p in s.nodes ensures NodeReceiptsOk(s', p, s'.nodes[p]) { NodeAges(s, s', {}, p); }
    AirAges(s, s', {});
  }

  // ---------------------------------------------------------------- the theorem

  ghost predicate IsFreshRun(opcodes: map<nat, nat>, trace: seq<Net>, labels: seq<Label>) {
    && |trace| == |labels| + 1 && Initial(trace[0])
    && forall i | 0 <= i < |labels| ::
         && CanStep(trace[i], labels[i]) && ProperLabel(opcodes, labels[i]) && FreshSequence(trace[i], labels[i])
         && trace[i + 1] == Step(trace[i], labels[i])
  }

  lemma {:induction false} RunReceipts(opcodes: map<nat, nat>, trace: seq<Net>, labels: seq<Label>, i: nat)
    requires IsFreshRun(opcodes, trace, labels) && i <= |labels|
    ensures Logged(opcodes, trace[i]) && ReceiptsOk(trace[i])
  {
    if i == 0 {
      InitialLogged(opcodes, trace[0]);
    } else {
      RunReceipts(opcodes, trace, labels, i - 1);
      StepLogged(opcodes, trace[i - 1], labels[i - 1]);
      StepReceiptsOk(opcodes, trace[i - 1], labels[i - 1]);
    }
  }

  lemma SamePrefix(a: ReliableFrame, b: ReliableFrame)
    requires a[..3] == b[..3]
    ensures VendorOpcode(a) == VendorOpcode(b)
  {
    assert a[..3][0] == a[0] && a[..3][1] == a[1] && a[..3][2] == a[2];
    assert b[..3][0] == b[0] && b[..3][1] == b[1] && b[..3][2] == b[2];
  }

  /** A receipt that matches a pending sample carries that sample's key. */
  lemma MatchedKey(opcodes: map<nat, nat>, s: Net, a: nat, w: Wire)
    requires NodesLogged(opcodes, s) && a in s.nodes && w.dst == a && AckMatches(s.nodes[a].t, w.appKey, w.data)
    ensures var i := s.nodes[a].t.pending[Sequence(w.data)].sample;
            IsPending(s, i) && s.samples[i].source == a && s.samples[i].key == KeyOf(w.dst, w.appKey, w.data)
  {
    var q := Sequence(w.data);
    assert NodeLogged(opcodes, s.samples, s.framed, s.offered, a, s.nodes[a]);
    assert PendingOk(opcodes, s.samples, s.framed, a, q, s.nodes[a].t.pending[q]);
    SamePrefix(w.data, s.nodes[a].t.pending[q].data);
  }

  /** End-to-end soundness of receipts. In every run with fresh sequences: when a receipt strikes a peer
      off a sample, that peer's bridge has published, for this very sample, a payload the sender framed,
      and the source offered that payload. */
  lemma ReceiptMeansPublished(opcodes: map<nat, nat>, trace: seq<Net>, labels: seq<Label>, i: nat)
    requires IsFreshRun(opcodes, trace, labels) && i < |labels| && labels[i].Deliver? && IsAck(labels[i].w.data)
    requires var t := trace[i].nodes[labels[i].a].t; var w := labels[i].w;
             AckMatches(t, w.appKey, w.data) && w.src in t.pending[Sequence(w.data)].awaiting
    ensures var s := trace[i]; var a := labels[i].a; var w := labels[i].w;
            var tag := s.nodes[a].t.pending[Sequence(w.data)].sample;
            && w.src !in trace[i + 1].nodes[a].t.pending[Sequence(w.data)].awaiting
            && (w.src, tag) in s.published
            && (tag, s.published[(w.src, tag)]) in s.framed
            && tag in s.samples && (s.samples[tag].source, s.published[(w.src, tag)]) in s.offered && s.samples[tag].source == a
  {
    RunReceipts(opcodes, trace, labels, i);
    MatchedKey(opcodes, trace[i], labels[i].a, labels[i].w);
    DeliveredAck(trace[i], labels[i]);
    AckStrikes(trace[i].nodes[labels[i].a].t, labels[i].w.src, labels[i].w.appKey, labels[i].w.data);
  }

  lemma DeliveredAck(s: Net, l: Label)
    requires CanStep(s, l) && l.Deliver? && IsAck(l.w.data)
    ensures Step(s, l).nodes == s.nodes[l.a := s.nodes[l.a].(t := AckReceived(s.nodes[l.a].t, l.w.src, l.w.appKey, l.w.data))]
  {}

  lemma AckStrikes(t: Tables, source: nat, appKey: nat, data: ReliableFrame)
    requires AckMatches(t, appKey, data)
    ensures var q := Sequence(data); var after := AckReceived(t, source, appKey, data).pending;
            q in after && after[q].awaiting == t.pending[q].awaiting - {source}
  {}
}
