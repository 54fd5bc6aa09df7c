/** A run that loses a handle: both peers of a fan-out acknowledge before their sends are recorded. */
module MeshLoss {
  import opened MeshFrame
  import opened Ordered
  import opened MeshTables
  import opened MeshWorker
  import opened MeshHandles
  import opened MeshInvariant
  import opened MeshRuns
  import opened MeshNetwork
  import opened MeshLogs

  /** One offer of a node that does not know its own address yet, for two peers `b` < `c`. */
  datatype FanOut = FanOut(b: nat, c: nat, offer: Offer, swarm: nat, tag: nat)

  ghost predicate Playable(opcodes: map<nat, nat>, f: FanOut) {
    0 < f.b < f.c && Configured(opcodes, f.offer) && f.swarm < 0x1_0000
  }

  function Env(f: FanOut): PlanEnv { PlanEnv(0, [f.b, f.c], [], 0) }

  function ThePlan(f: FanOut): Plan { Plan(1, [f.b, f.c], 0, false) }

  function Frame(f: FanOut): DataFrame
    requires IsBridgeFrame(f.offer.payload)
  {
    WrapData(f.offer.payload, 1, f.swarm)
  }

  function Running(t: Tables, f: FanOut, phase: Phase, tag: nat): Node {
    Node(t, NO_WORK.(job := Some(Job(f.offer, false, phase, tag))))
  }

  function Planned(): Tables { EMPTY_TABLES.(nextSequence := 1) }

  /** About to send the first of two copies. */
  function Sending(f: FanOut): Node
    requires IsBridgeFrame(f.offer.payload)
  {
    Running(Planned().(pending := map[1 := NewSample(f.offer, ThePlan(f), f.swarm, f.tag, 0)]), f,
            Phase.Sending(ThePlan(f), Frame(f), 0, false), f.tag)
  }

  /** The receipt of peer `p`. */
  function Receipt(f: FanOut, p: nat): Received
    requires IsBridgeFrame(f.offer.payload)
  {
    Received(p, f.offer.bridge.appKey, f.offer.bridge.element, AckFor(Frame(f)))
  }

  lemma Offers(f: FanOut)
    requires IsBridgeFrame(f.offer.payload) && f.offer.bridge.reliable
    ensures Next(FRESH_NODE, OfferValue(f.offer, true, true)) == Running(EMPTY_TABLES, f, Planning, 0)
  {
    assert EMPTY_TABLES.(latest := EMPTY_TABLES.latest - {ChannelOf(f.offer.bridge)}) == EMPTY_TABLES;
  }

  lemma Plans(f: FanOut)
    requires 0 < f.b < f.c
    ensures Next(Running(EMPTY_TABLES, f, Planning, 0), MakePlan(Env(f))) == Running(Planned(), f, Enqueuing(ThePlan(f)), 0)
  {
    PlansAlone(f);
  }

  lemma TargetsOfTwo(b: nat, c: nat)
    requires b < c
    ensures Ascending(set p | p in [b, c] + []) == [b, c]
  {
    TwoAscending(b, c);
    assert forall p :: p in [b, c] + [] <==> p == b || p == c;
    assert (set p | p in [b, c] + []) == {b, c};
  }

  lemma PlansAlone(f: FanOut)
    requires 0 < f.b < f.c
    ensures PlanSend(EMPTY_TABLES, f.offer, false, Env(f)) == (Planned(), Some(ThePlan(f)))
  {
    TargetsOfTwo(f.b, f.c);
    FirstSequence();
    assert Probe(EMPTY_TABLES, Env(f)) == (EMPTY_TABLES, []);
    assert PlanRing(Planned(), f.offer, false, Env(f), 1, [f.b, f.c]) == (Planned(), Some(ThePlan(f)));
  }

  lemma Enqueues(f: FanOut)
    requires IsBridgeFrame(f.offer.payload)
    ensures Next(Running(Planned(), f, Enqueuing(ThePlan(f)), 0), MeshWorker.Enqueue(f.swarm, f.tag, 0)) == Sending(f)
  {}

  lemma StartsSending(f: FanOut)
    requires IsBridgeFrame(f.offer.payload) && f.offer.bridge.reliable && 0 < f.b < f.c
    ensures RunsTo(Sending(f))
  {
    RunsAtFirst();
    Offers(f);
    RunsOn(FRESH_NODE, OfferValue(f.offer, true, true), Running(EMPTY_TABLES, f, Planning, 0));
    Plans(f);
    RunsOn(Running(EMPTY_TABLES, f, Planning, 0), MakePlan(Env(f)), Running(Planned(), f, Enqueuing(ThePlan(f)), 0));
    Enqueues(f);
    RunsOn(Running(Planned(), f, Enqueuing(ThePlan(f)), 0), MeshWorker.Enqueue(f.swarm, f.tag, 0), Sending(f));
  }

  /** The receipts of both peers match the sample. */
  lemma ReceiptsMatch(opcodes: map<nat, nat>, f: FanOut, p: nat)
    requires Playable(opcodes, f)
    ensures var m := Receipt(f, p); IsAck(m.data) && Sequence(m.data) == 1 && AckMatches(Sending(f).t, m.appKey, m.data)
  {
    WrapKeepsKey(opcodes, f.offer, 1, f.swarm);
    ControlFramesKeepIdentity(Frame(f));
  }

  lemma ReceiptOvertakes(n: Node, h: Handle, m: Received) returns (after: Node)
    requires RunsTo(n) && Enabled(n, FirstSendAnswered(Admitted(h), 0)) && IsAck(m.data)
    ensures after == Next(Next(n, FirstSendAnswered(Admitted(h), 0)), ReceiveAck(m))
    ensures RunsTo(after) && Enabled(after, Remember(0))
  {
    var sent := Next(n, FirstSendAnswered(Admitted(h), 0));
    RunsOn(n, FirstSendAnswered(Admitted(h), 0), sent);
    after := Next(sent, ReceiveAck(m));
    RunsOn(sent, ReceiveAck(m), after);
  }

  lemma LosesFrom(n: Node, first: Handle, second: Handle, m1: Received, m2: Received) returns (lost: Node)
    requires RunsTo(n) && NodeOk(n) && AboutToLose(n, m1, m2) && first.transfer != 0 && second.transfer != 0
    ensures RunsTo(lost) && Enabled(lost, Remember(0)) && Lost(lost, Remember(0)) == multiset{first}
  {
    var one := ReceiptOvertakes(n, first, m1);
    var recorded := EarlyReceiptRecorded(n, first, m1, 0);
    RunsOn(one, Remember(0), recorded);
    lost := EarlyReceiptsLose(n, first, second, m1, m2, 0);
    var two := ReceiptOvertakes(recorded, second, m2);
  }

  /** A run reaches a node about to send two copies; the two admissions, each followed by its early receipt before
      it is recorded, make the second recording lose the first handle. */
  lemma HandleIsLost(opcodes: map<nat, nat>, f: FanOut, first: Handle, second: Handle) returns (lost: Node)
    requires Playable(opcodes, f) && first.transfer != 0 && second.transfer != 0
    ensures RunsTo(lost) && Enabled(lost, Remember(0)) && Lost(lost, Remember(0)) == multiset{first}
  {
    StartsSending(f);
    RunsToOk(Sending(f));
    ReceiptsMatch(opcodes, f, f.b);
    ReceiptsMatch(opcodes, f, f.c);
    BothAwaited(f);
    lost := LosesFrom(Sending(f), first, second, Receipt(f, f.b), Receipt(f, f.c));
  }

  lemma BothAwaited(f: FanOut)
    requires IsBridgeFrame(f.offer.payload)
    ensures 1 in Sending(f).t.pending && Sending(f).t.pending[1].awaiting.Keys == {f.b, f.c}
    ensures InPhase(Sending(f)) && Sending(f).work.job.value.phase == Phase.Sending(ThePlan(f), Frame(f), 0, false)
  {}
}
