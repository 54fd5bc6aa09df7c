/** Exactly when a receiver decodes, answers and forgets, what a receipt does to the sender, and that a repair
    or query of a published sample is answered by a receipt its sender accepts. */
module MeshReceipts {
  import opened MeshFrame
  import opened MeshTables
  import opened MeshEffects
  import opened MeshTick

  /** The receipt for a frame: to its source, with the identity of the frame under the receipt marker. */
  predicate IsReceiptFor(x: Ack, source: nat, appKey: nat, data: ReliableFrame) {
    && x.destination == source && x.appKey == appKey
    && x.data == data[..3] + [0xd2] + data[4..8]
  }

  /** The receipt is queued, once, unless the queue already held 128. */
  ghost predicate Answered(before: seq<Ack>, after: seq<Ack>, source: nat, appKey: nat, data: ReliableFrame) {
    if |before| >= 128 then after == before
    else && (exists x | x in after :: IsReceiptFor(x, source, appKey, data))
         && (if exists x | x in before :: IsReceiptFor(x, source, appKey, data) then after == before
             else |after| == |before| + 1 && after[..|before|] == before)
  }

  lemma QueuedAnswer(t: Tables, source: nat, appKey: nat, data: ReliableFrame)
    ensures Answered(t.acks, QueueAck(t, source, appKey, data).acks, source, appKey, data)
  {
    var x := Ack(source, appKey, AckFor(data));
    ReceiptBytes(data);
    assert IsReceiptFor(x, source, appKey, data);
    assert forall y :: IsReceiptFor(y, source, appKey, data) <==> y == x;
    assert |t.acks| < 128 ==> x in QueueAck(t, source, appKey, data).acks;
  }

  /** What a received data frame or query does: it is decoded exactly when it is data of an unknown key, which is
      then known and not yet delivered; it is answered exactly when its key is delivered. */
  ghost predicate Received(t: Tables, source: nat, appKey: nat, data: ReliableFrame, now: Time, after: Tables, decode: bool) {
    var key := KeyOf(source, appKey, data);
    && (decode <==> IsDataFrame(data) && key !in t.seen)
    && after == t.(seen := after.seen, acks := after.acks)
    && after.seen == (if decode then t.seen[key := Seen(now, false)] else t.seen)
    && (if key in t.seen && t.seen[key].delivered then Answered(t.acks, after.acks, source, appKey, data)
        else after.acks == t.acks)
  }

  lemma ReceivedExactly(t: Tables, source: nat, appKey: nat, data: ReliableFrame, now: Time)
    requires IsDataFrame(data) || IsQuery(data)
    ensures var r := FrameReceived(t, source, appKey, data, now); Received(t, source, appKey, data, now, r.0, r.1)
  {
    QueuedAnswer(t, source, appKey, data);
  }

  /** What the end of a decode does: a key forgotten meanwhile stays forgotten, a failed decode forgets it so that
      the next copy is decoded again, a publication is remembered and answered, and hands the turn of the channel
      to this node exactly when this copy carried it and the node knows its address. */
  ghost predicate Finished(t: Tables, source: nat, appKey: nat, element: u8, data: DataFrame, delivered: bool,
                           local: nat, members: seq<nat>, now: Time, after: Tables) {
    var key, channel := KeyOf(source, appKey, data), Channel(element, appKey, ChannelId(data));
    && after == t.(seen := after.seen, acks := after.acks, turns := after.turns)
    && (forall k :: k in after.seen <==> k in t.seen && (k == key ==> delivered))
    && (forall k | k in after.seen :: after.seen[k] == if k == key then Seen(now, true) else t.seen[k])
    && (if key in t.seen && delivered then Answered(t.acks, after.acks, source, appKey, data) else after.acks == t.acks)
    && (if key in t.seen && delivered && local != 0
        then && after.turns.Keys == t.turns.Keys + {channel}
             && (forall c | c in t.turns && c != channel :: after.turns[c] == t.turns[c])
             && (after.turns[channel].permitted <==> data[3] == 0xd1)
             && after.turns[channel].initialized && after.turns[channel].members == members
             && after.turns[channel].reclaimAt == now + 12_000
        else after.turns == t.turns)
  }

  lemma FinishedExactly(t: Tables, source: nat, appKey: nat, element: u8, data: DataFrame, delivered: bool,
                        local: nat, members: seq<nat>, now: Time)
    ensures Finished(t, source, appKey, element, data, delivered, local, members, now,
              DecodeFinished(t, source, appKey, element, data, delivered, local, members, now))
  {
    var key := KeyOf(source, appKey, data);
    if key in t.seen && delivered {
      QueuedAnswer(t.(seen := t.seen[key := Seen(now, true)]), source, appKey, data);
    }
  }

  /** The sample a receipt is for: same sequence, key index, vendor prefix and swarm. */
  predicate Acknowledges(t: Tables, appKey: nat, data: ReliableFrame, k: nat) {
    && k in t.pending && k == Sequence(data) && t.pending[k].appKey == appKey
    && t.pending[k].data[..3] == data[..3] && SwarmId(t.pending[k].data) == SwarmId(data)
  }

  /** Sample `k` awaits `source` no longer; nothing else of it changes. */
  ghost predicate StruckOff(p: Pending, source: nat, q: Pending) {
    && q == p.(awaiting := q.awaiting)
    && (forall x :: x in q.awaiting <==> x in p.awaiting && x != source)
    && (forall x | x in q.awaiting :: q.awaiting[x] == p.awaiting[x])
  }

  ghost function Released(p: Pending, source: nat): multiset<Handle> {
    if source in p.awaiting && p.awaiting[source].transfer.Some? then multiset{p.awaiting[source].transfer.value} else multiset{}
  }

  /** A receipt strikes its source off exactly the sample it is for, releases that peer's transfer and clears its
      back-off; any other receipt changes nothing. */
  ghost predicate Struck(t: Tables, source: nat, appKey: nat, data: ReliableFrame, after: Tables) {
    var k := Sequence(data);
    if !Acknowledges(t, appKey, data, k) then after == t
    else
      && after == t.(pending := after.pending, peers := after.peers, cancellations := after.cancellations)
      && after.pending.Keys == t.pending.Keys && (forall j | j in t.pending && j != k :: after.pending[j] == t.pending[j])
      && StruckOff(t.pending[k], source, after.pending[k])
      && after.cancellations == t.cancellations + Released(t.pending[k], source)
      && (forall p :: PeerOf(after.peers, p) == if p == source then PeerState(0, 0, 0) else PeerOf(t.peers, p))
  }

  lemma MatchesIff(t: Tables, appKey: nat, data: ReliableFrame)
    ensures AckMatches(t, appKey, data) <==> Acknowledges(t, appKey, data, Sequence(data))
  {}

  lemma SamplesStruck(t: Tables, source: nat, appKey: nat, data: ReliableFrame)
    requires AckMatches(t, appKey, data)
    ensures var k, after := Sequence(data), AckReceived(t, source, appKey, data);
            && after.pending.Keys == t.pending.Keys && (forall j | j in t.pending && j != k :: after.pending[j] == t.pending[j])
            && StruckOff(t.pending[k], source, after.pending[k])
  {}

  lemma StruckExactly(t: Tables, source: nat, appKey: nat, data: ReliableFrame)
    ensures Struck(t, source, appKey, data, AckReceived(t, source, appKey, data))
  {
    MatchesIff(t, appKey, data);
    if AckMatches(t, appKey, data) { SamplesStruck(t, source, appKey, data); }
  }

  // ---------------------------------------------------------------- a lost receipt is made good

  lemma SameKey(source: nat, appKey: nat, data: DataFrame, wire: ReliableFrame)
    requires wire == QueryFor(data) || (exists turn :: wire == Marked(data, turn))
    ensures KeyOf(source, appKey, wire) == KeyOf(source, appKey, data)
    ensures wire[..3] == data[..3] && Sequence(wire) == Sequence(data) && SwarmId(wire) == SwarmId(data)
  {}

  /** Sender `a` still awaits `peer` for sample `k`, `peer` remembers having published it: the copy or query it
      receives puts a receipt in its queue, and that receipt strikes the peer off at the sender. */
  lemma RepairIsAnswered(sender: Tables, a: nat, k: nat, peer: nat, receiver: Tables, wire: ReliableFrame, now: Time)
    returns (x: Ack)
    requires k in sender.pending && Sequence(sender.pending[k].data) == k && peer in sender.pending[k].awaiting
    requires wire == QueryFor(sender.pending[k].data) || exists turn :: wire == Marked(sender.pending[k].data, turn)
    requires IsDataFrame(wire) || IsQuery(wire)
    requires var key := KeyOf(a, sender.pending[k].appKey, sender.pending[k].data);
             key in receiver.seen && receiver.seen[key].delivered
    requires |receiver.acks| < 128
    ensures x in FrameReceived(receiver, a, sender.pending[k].appKey, wire, now).0.acks && x.destination == a
    ensures var after := AckReceived(sender, peer, x.appKey, x.data);
            k in after.pending && after.pending[k].awaiting.Keys == sender.pending[k].awaiting.Keys - {peer}
  {
    var p := sender.pending[k];
    SameKey(a, p.appKey, p.data, wire);
    ReceivedExactly(receiver, a, p.appKey, wire, now);
    x :| x in FrameReceived(receiver, a, p.appKey, wire, now).0.acks && IsReceiptFor(x, a, p.appKey, wire);
    ReceiptKeeps(wire, x.data);
    StrikesOff(sender, peer, x.appKey, x.data, k);
  }

  lemma StrikesOff(t: Tables, peer: nat, appKey: nat, data: ReliableFrame, k: nat)
    requires Acknowledges(t, appKey, data, k)
    ensures var after := AckReceived(t, peer, appKey, data);
            k in after.pending && after.pending[k].awaiting.Keys == t.pending[k].awaiting.Keys - {peer}
  {
    StruckExactly(t, peer, appKey, data);
  }

  lemma ReceiptKeeps(wire: ReliableFrame, receipt: ReliableFrame)
    requires receipt == wire[..3] + [0xd2] + wire[4..8]
    ensures receipt[..3] == wire[..3] && Sequence(receipt) == Sequence(wire) && SwarmId(receipt) == SwarmId(wire)
  {
    assert receipt[4..8] == wire[4..8];
    assert receipt[4] == wire[4..8][0] && receipt[5] == wire[4..8][1] && receipt[6] == wire[4..8][2] && receipt[7] == wire[4..8][3];
  }

  /** ... and it leaves the queue in order, four receipts with each tick. */
  lemma ReceiptLeaves(t: Tables, i: nat, now: Time)
    requires i < |t.acks|
    ensures var tick := TickLocked(t, now);
            if i < 4 then i < |tick.outbound| && tick.outbound[i].acknowledgement && tick.outbound[i].destination == t.acks[i].destination
                          && tick.outbound[i].appKey == t.acks[i].appKey && tick.outbound[i].data == t.acks[i].data
            else i - 4 < |tick.t.acks| && tick.t.acks[i - 4] == t.acks[i]
  {
    TickEffect(t, now);
    var served := TickServes(t, now);
  }
}
