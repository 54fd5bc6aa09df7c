/** A refused frame is looked up in the sender's own table by its sequence: so a refused receipt may defer
    a sample of the node itself. */
module MeshRefusal {
  import opened MeshFrame
  import opened Ordered
  import opened MeshTables
  import opened MeshWorker
  import opened MeshRuns
  import opened MeshLogs
  import opened TurnWitness

  /** The sample and peer a refused frame is taken for. */
  predicate Touches(t: Tables, item: Outbound) {
    Sequence(item.data) in t.pending && item.destination in t.pending[Sequence(item.data)].awaiting
  }

  /** A refusal, of a receipt too, changes the pending samples exactly when its sequence is pending here and its
      destination awaited, and the attempt can be refunded or the retry moved; then it defers that target alone. */
  lemma RefusalTouchesIff(t: Tables, item: Outbound, now: Time)
    ensures var after := OutboundRefused(t, item, now); var q := Sequence(item.data);
            && (after.pending != t.pending <==>
                  && Touches(t, item)
                  && (t.pending[q].awaiting[item.destination].attempts > 0
                      || t.pending[q].awaiting[item.destination].retryAt != now + QUEUE_RETRY_DELAY))
            && (Touches(t, item) ==>
                  after.pending == t.pending[q := t.pending[q].(awaiting :=
                    t.pending[q].awaiting[item.destination := Deferred(t.pending[q].awaiting[item.destination], now)])])
  {
    var after := OutboundRefused(t, item, now);
    var q := Sequence(item.data);
    if Touches(t, item) {
      var before := t.pending[q].awaiting[item.destination];
      assert after.pending[q].awaiting[item.destination] == Deferred(before, now);
      if Deferred(before, now) == before {
        assert t.pending[q].awaiting[item.destination := before] == t.pending[q].awaiting;
        assert t.pending[q := t.pending[q]] == t.pending;
      }
    }
  }

  // ---------------------------------------------------------------- a run in which a receipt does it

  const SOON: Time := 1_000

  /** A frame of node `b` that happens to carry the sequence of the sample `a` sent to it. */
  function Incoming(c: Scene): Received
    requires IsBridgeFrame(c.offer.payload)
  {
    Received(c.b, c.offer.bridge.appKey, c.offer.bridge.element, Frame(c))
  }

  function Known(c: Scene, delivered: bool): map<SeenKey, Seen>
    requires IsBridgeFrame(c.offer.payload)
  {
    map[KeyOf(c.b, c.offer.bridge.appKey, Frame(c)) := Seen(SOON, delivered)]
  }

  function Receipt(c: Scene): Ack
    requires IsBridgeFrame(c.offer.payload)
  {
    Ack(c.b, c.offer.bridge.appKey, AckFor(Frame(c)))
  }

  function ReceiptItem(c: Scene): Outbound
    requires IsBridgeFrame(c.offer.payload)
  {
    Outbound(c.b, c.offer.bridge.appKey, 0, false, true, AckFor(Frame(c)), None, 0)
  }

  lemma Incomes(opcodes: map<nat, nat>, c: Scene)
    requires Playable(opcodes, c)
    ensures IsDataFrame(Frame(c)) && Sequence(Frame(c)) == 1
  {
    WrapKeepsKey(opcodes, c.offer, 1, c.swarm);
  }

  function Heard(c: Scene): Node
    requires IsBridgeFrame(c.offer.payload)
  {
    Node(Spent(c, Recorded(c)).(seen := Known(c, false)), NO_WORK)
  }

  function Answering(c: Scene): Node
    requires IsBridgeFrame(c.offer.payload)
  {
    Node(Spent(c, Recorded(c)).(seen := Known(c, true), acks := [Receipt(c)]), NO_WORK)
  }

  lemma Hears(c: Scene)
    requires IsBridgeFrame(c.offer.payload) && IsDataFrame(Frame(c))
    ensures Next(Resting(c), ReceiveFrame(Incoming(c), SOON)) == Heard(c)
  {}

  lemma Answers(c: Scene)
    requires IsBridgeFrame(c.offer.payload) && IsDataFrame(Frame(c))
    ensures Next(Heard(c), DecodeDone(Incoming(c), true, 0, [], SOON)) == Answering(c)
  {
    assert Known(c, false)[KeyOf(c.b, c.offer.bridge.appKey, Frame(c)) := Seen(SOON, true)] == Known(c, true);
  }

  /** The tick re-arms the transfer check of the sample and takes the receipt out of its queue. */
  function Checked(c: Scene): Pending
    requires IsBridgeFrame(c.offer.payload)
  {
    Recorded(c).(awaiting := map[c.b :=
      Target(0, Some(c.handle), FIRST_REPAIR_DELAY, RECEIPT_QUERY_PERIOD, SOON + TRANSFER_CHECK_PERIOD)])
  }

  function Ticked(c: Scene): Node
    requires IsBridgeFrame(c.offer.payload)
  {
    Node(Spent(c, Checked(c)).(seen := Known(c, true)), NO_WORK.(checks := [Check(1, c.b, c.handle)], outbound := [ReceiptItem(c)]))
  }

  lemma ServesTarget(c: Scene, t: Tables, outbound: seq<Outbound>)
    requires IsBridgeFrame(c.offer.payload) && t.pending == map[1 := Recorded(c)] && |outbound| == 1
    ensures TargetsPass(Pass(t, outbound, [], {}, 0), 1, [c.b], SOON)
            == Pass(t.(pending := map[1 := Checked(c)]), outbound, [Check(1, c.b, c.handle)], {}, 0)
  {
    var p := Recorded(c);
    var target := p.awaiting[c.b].(checkAt := SOON + TRANSFER_CHECK_PERIOD);
    assert p.awaiting[c.b := target] == map[c.b := target];
    assert map[1 := p][1 := Checked(c)] == map[1 := Checked(c)];
    var a := Pass(t, outbound, [], {}, 0);
    var b := CheckTarget(a, 1, c.b, SOON);
    assert b == Pass(t.(pending := map[1 := Checked(c)]), outbound, [Check(1, c.b, c.handle)], {}, 0);
    assert TargetStep(a, 1, c.b, SOON) == b;
    assert [c.b][1..] == [];
  }

  lemma ServesSample(c: Scene, t: Tables, outbound: seq<Outbound>)
    requires IsBridgeFrame(c.offer.payload) && t.pending == map[1 := Recorded(c)] && t.latest == map[] && |outbound| == 1
    ensures SamplesPass(Pass(t, outbound, [], {}, 0), Ascending({1}), SOON)
            == Pass(t.(pending := map[1 := Checked(c)]), outbound, [Check(1, c.b, c.handle)], {}, 0)
  {
    OneAscending(1);
    OneAscending(c.b);
    assert Recorded(c).awaiting.Keys == {c.b};
    ServesTarget(c, t, outbound);
    var a := Pass(t, outbound, [], {}, 0);
    assert Coalesce(t, 1) == t;
    assert SampleStep(a, 1, SOON) == TargetsPass(a, 1, [c.b], SOON);
    assert [1][1..] == [];
  }

  lemma StartsTick(c: Scene)
    requires IsBridgeFrame(c.offer.payload)
    ensures TickStart(Answering(c).t, SOON) == Pass(Answering(c).t.(acks := []), [ReceiptItem(c)], [], {}, 0)
  {
    var t := Answering(c).t;
    assert PurgeSeen(t.seen, SOON) == t.seen;
    assert t.acks[..1] == [Receipt(c)] && t.acks[1..] == [];
    assert AckItems([Receipt(c)]) == [ReceiptItem(c)] + AckItems([]);
  }

  lemma TicksSoon(c: Scene)
    requires IsBridgeFrame(c.offer.payload)
    ensures Next(Answering(c), StartTick(SOON)) == Ticked(c)
  {
    var t := Answering(c).t.(acks := []);
    StartsTick(c);
    assert t.pending.Keys == {1};
    ServesSample(c, t, [ReceiptItem(c)]);
    assert Ascending({}) == [];
  }

  lemma Begins(c: Scene)
    requires IsBridgeFrame(c.offer.payload) && c.offer.bridge.reliable && 0 < c.a < c.b
    ensures RunsTo(Permitting(c))
  {
    RunsAtFirst();
    Offers(c, EMPTY_TABLES);
    RunsOn(FRESH_NODE, OfferValue(c.offer, true, true), Offering(c));
    FirstPlan(c);
    RunsOn(Offering(c), MakePlan(Env(c, 0)), Permitting(c));
  }

  lemma Transmits(c: Scene)
    requires IsBridgeFrame(c.offer.payload) && RunsTo(Permitting(c))
    ensures RunsTo(Unsending(c))
  {
    Enqueues(c);
    RunsOn(Permitting(c), MeshWorker.Enqueue(c.swarm, c.tag, 0), Enqueued(c));
    Spends(c);
    RunsOn(Enqueued(c), SpendTurn(0), Unsending(c));
  }

  lemma Rests(c: Scene)
    requires IsBridgeFrame(c.offer.payload) && c.handle.transfer != 0 && RunsTo(Unsending(c))
    ensures RunsTo(Resting(c))
  {
    Admits(c);
    RunsOn(Unsending(c), FirstSendAnswered(Admitted(c.handle), 0), Admitting(c));
    Records(c);
    RunsOn(Admitting(c), MeshWorker.Remember(0), Noted(c));
    Finishes(c);
    RunsOn(Noted(c), FinishSend, Resting(c));
  }

  lemma Hearing(c: Scene)
    requires IsBridgeFrame(c.offer.payload) && IsDataFrame(Frame(c)) && RunsTo(Resting(c))
    ensures RunsTo(Answering(c))
  {
    Hears(c);
    RunsOn(Resting(c), ReceiveFrame(Incoming(c), SOON), Heard(c));
    Answers(c);
    RunsOn(Heard(c), DecodeDone(Incoming(c), true, 0, [], SOON), Answering(c));
  }

  lemma Ticking(c: Scene)
    requires IsBridgeFrame(c.offer.payload) && RunsTo(Answering(c))
    ensures RunsTo(Ticked(c))
  {
    TicksSoon(c);
    RunsOn(Answering(c), StartTick(SOON), Ticked(c));
  }

  lemma StillPending(n: Node, check: Check)
    requires n.work.checks == [check] && n.work.held == None
    ensures Next(n, CheckAnswered(true)) == n.(work := n.work.(checks := []))
  {}

  lemma Checking(c: Scene)
    requires IsBridgeFrame(c.offer.payload) && RunsTo(Ticked(c))
    ensures RunsTo(Refusing(c))
  {
    StillPending(Ticked(c), Check(1, c.b, c.handle));
    RunsOn(Ticked(c), CheckAnswered(true), Refusing(c));
  }

  /** The receipt is next, the transfer of the sample still running. */
  function Refusing(c: Scene): Node
    requires IsBridgeFrame(c.offer.payload)
  {
    Ticked(c).(work := NO_WORK.(outbound := [ReceiptItem(c)]))
  }

  /** A run reaches a state in which refusing a receipt moves the retry of the node's own sample. */
  lemma ReceiptDefersSample(opcodes: map<nat, nat>, c: Scene)
    requires Playable(opcodes, c)
    ensures RunsTo(Refusing(c)) && Enabled(Refusing(c), OutboundAnswered(Refused, SOON)) && IsAck(Refusing(c).work.outbound[0].data)
    ensures var before, after := Refusing(c).t.pending, Next(Refusing(c), OutboundAnswered(Refused, SOON)).t.pending;
            && before[1].awaiting[c.b].retryAt == FIRST_REPAIR_DELAY
            && 1 in after && c.b in after[1].awaiting && after[1].awaiting[c.b].retryAt == SOON + QUEUE_RETRY_DELAY
  {
    Incomes(opcodes, c);
    assert IsAck(AckFor(Frame(c))) && Sequence(AckFor(Frame(c))) == 1 by { ControlFramesKeepIdentity(Frame(c)); }
    Begins(c);
    Transmits(c);
    Rests(c);
    Hearing(c);
    Ticking(c);
    Checking(c);
    Refuses(c);
  }

  lemma RefusalMoves(n: Node, item: Outbound, q: nat, b: nat, now: Time)
    requires n.work.outbound == [item] && n.work.checks == [] && n.work.held == None && q == Sequence(item.data) && b == item.destination
    requires q in n.t.pending && b in n.t.pending[q].awaiting
    ensures var after := Next(n, OutboundAnswered(Refused, now)).t.pending;
            q in after && b in after[q].awaiting && after[q].awaiting[b].retryAt == now + QUEUE_RETRY_DELAY
  {}

  lemma Refuses(c: Scene)
    requires IsBridgeFrame(c.offer.payload) && Sequence(AckFor(Frame(c))) == 1
    ensures var before, after := Refusing(c).t.pending, Next(Refusing(c), OutboundAnswered(Refused, SOON)).t.pending;
            && before[1].awaiting[c.b].retryAt == FIRST_REPAIR_DELAY
            && 1 in after && c.b in after[1].awaiting && after[1].awaiting[c.b].retryAt == SOON + QUEUE_RETRY_DELAY
  {
    RefusalMoves(Refusing(c), ReceiptItem(c), 1, c.b, SOON);
  }
}
