/** What every event of every run of one node keeps: the queue bounds, the repair budget, and the
    state of the running send. */
module MeshInvariant {
  import opened MeshFrame
  import opened Ordered
  import opened TurnRing
  import opened MeshTables
  import opened MeshWorker
  import opened MeshEffects
  import MeshHandles

  // ---------------------------------------------------------------- sequence allocation

  function CounterAfter(counter: nat, k: nat): nat { (counter + k) % 0x1_0000_0000 }
  function SequenceAfter(counter: nat, k: nat): nat { (counter + k) % 0x1_0000 }

  lemma Shift32(x: nat, k: nat)
    ensures (x % 0x1_0000_0000 + k) % 0x1_0000_0000 == (x + k) % 0x1_0000_0000
  {
    var q := x / 0x1_0000_0000;
    assert x == 0x1_0000_0000 * q + x % 0x1_0000_0000;
  }

  lemma Wraps16(z: nat, y: nat)
    ensures (0x1_0000 * z + y) % 0x1_0000 == y % 0x1_0000
  {}

  lemma Shift16(x: nat, k: nat)
    ensures (x % 0x1_0000_0000 + k) % 0x1_0000 == (x + k) % 0x1_0000
  {
    var q := x / 0x1_0000_0000;
    var y := x % 0x1_0000_0000 + k;
    Wraps16(0x1_0000 * q, y);
    assert x + k == 0x1_0000 * (0x1_0000 * q) + y;
  }

  lemma CounterStep(counter: nat, k: nat)
    ensures CounterAfter(CounterAfter(counter, 1), k) == CounterAfter(counter, k + 1)
    ensures CounterAfter(CounterAfter(counter, k), 1) == CounterAfter(counter, k + 1)
    ensures SequenceAfter(CounterAfter(counter, 1), k) == SequenceAfter(counter, k + 1)
    ensures CounterAfter(counter, k) % 0x1_0000 == SequenceAfter(counter, k)
  {
    Shift32(counter + 1, k);
    Shift32(counter + k, 1);
    Shift16(counter + 1, k);
    Shift16(counter + k, 0);
  }

  lemma SequencesDiffer(counter: nat, j: nat, k: nat)
    requires j < k < j + 0x1_0000
    ensures SequenceAfter(counter, j) != SequenceAfter(counter, k)
  {}

  lemma FirstSequence()
    ensures Allocate(EMPTY_TABLES.nextSequence, EMPTY_TABLES.pending.Keys) == 1
  {
    assert EMPTY_TABLES.pending.Keys == {};
  }

  /** `k` is the least positive number of increments that reaches a free sequence. */
  ghost predicate FirstFree(counter: nat, taken: set<nat>, k: nat) {
    && k >= 1 && SequenceAfter(counter, k) !in taken
    && forall j | 1 <= j < k :: SequenceAfter(counter, j) in taken
  }

  lemma FirstFreeLater(counter: nat, taken: set<nat>, k: nat)
    requires SequenceAfter(counter, 1) in taken && k < 0xffff
    requires FirstFree(CounterAfter(counter, 1), taken - {SequenceAfter(counter, 1)}, k)
    ensures FirstFree(counter, taken, k + 1)
  {
    var c := CounterAfter(counter, 1);
    CounterStep(counter, k);
    SequencesDiffer(counter, 1, k + 1);
    forall j | 1 <= j < k + 1 ensures SequenceAfter(counter, j) in taken {
      if j > 1 {
        CounterStep(counter, j - 1);
        assert SequenceAfter(c, j - 1) in taken - {SequenceAfter(counter, 1)};
      }
    }
  }

  /** Allocation takes the first of the next |taken| + 1 counter values whose sequence is free, also
      across the 16-bit and 32-bit wraps: by pigeonhole one of them is. */
  lemma {:induction false} AllocateIsFirstFree(counter: nat, taken: set<nat>) returns (k: nat)
    requires |taken| < 0xffff
    ensures k <= |taken| + 1 && FirstFree(counter, taken, k) && Allocate(counter, taken) == CounterAfter(counter, k)
    decreases |taken|
  {
    var c := CounterAfter(counter, 1);
    var s := SequenceAfter(counter, 1);
    assert c % 0x1_0000 == s by { CounterStep(counter, 1); }
    if s in taken {
      k := AllocateIsFirstFree(c, taken - {s});
      FirstFreeLater(counter, taken, k);
      assert CounterAfter(c, k) == CounterAfter(counter, k + 1) by { CounterStep(counter, k); }
      k := k + 1;
    } else {
      k := 1;
    }
  }

  lemma LowBits(counter: nat, k: nat)
    requires k <= 0x1_0000
    ensures var low := counter % 0x1_0000;
            SequenceAfter(counter, k) == if low + k < 0x1_0000 then low + k else low + k - 0x1_0000
  {
    Shift16(counter, k);
  }

  /** Sequence 0 is handed out exactly when it is free and nothing else is between the counter and the wrap. */
  lemma AllocatesZeroIff(counter: nat, taken: set<nat>)
    requires |taken| < 0xffff
    ensures Allocate(counter, taken) % 0x1_0000 == 0
            <==> 0 !in taken && forall s | counter % 0x1_0000 < s < 0x1_0000 :: s in taken
  {
    var low := counter % 0x1_0000;
    var wrap := 0x1_0000 - low;
    var k := AllocateIsFirstFree(counter, taken);
    CounterStep(counter, k);
    LowBits(counter, k);
    LowBits(counter, wrap);
    if SequenceAfter(counter, k) == 0 {
      assert k == wrap;
      forall s | low < s < 0x1_0000 ensures s in taken {
        LowBits(counter, s - low);
        assert SequenceAfter(counter, s - low) == s;
      }
    } else if k < wrap {
      assert SequenceAfter(counter, k) == low + k && low + k !in taken;
    } else {
      assert SequenceAfter(counter, wrap) in taken;
    }
  }

  /** ... for instance by the first allocation after the counter reached 0xffff. */
  lemma ZeroIsAllocated(taken: set<nat>)
    requires |taken| < 0xffff && 0 !in taken
    ensures Allocate(0xffff, taken) % 0x1_0000 == 0
  {
    AllocatesZeroIff(0xffff, taken);
  }

  /** The retry loop itself, on the full table. */
  method AllocateSequence(counter: nat, pending: set<nat>) returns (next: nat, sequence: nat, increments: nat)
    requires |pending| < 0xffff
    ensures next == Allocate(counter, pending) && sequence == next % 0x1_0000
    ensures sequence !in pending && increments <= |pending| + 1
  {
    ghost var k := AllocateIsFirstFree(counter, pending);
    next := Increment(counter);
    CounterStep(counter, 0);
    CounterStep(counter, 1);
    sequence := next % 0x1_0000;
    increments := 1;
    while sequence in pending
      invariant 1 <= increments <= k
      invariant next == CounterAfter(counter, increments) && sequence == SequenceAfter(counter, increments)
      decreases k - increments
    {
      CounterStep(counter, increments);
      CounterStep(counter, increments + 1);
      next := Increment(next);
      sequence := next % 0x1_0000;
      increments := increments + 1;
    }
    assert increments == k;
    CounterStep(counter, k);
  }

  /** The 32-bit counter wraps. */
  function Increment(counter: nat): nat { CounterAfter(counter, 1) }

  // ---------------------------------------------------------------- queue bounds

  ghost predicate WithinBudget(p: Pending) { forall a | a in p.awaiting :: p.awaiting[a].attempts <= MAX_ATTEMPTS }

  ghost predicate Bounded(t: Tables) {
    && |t.pending| <= MAX_PENDING_SAMPLES
    && |t.acks| <= MAX_QUEUED_ACKS
    && (forall k | k in t.pending :: k < 0x1_0000 && WithinBudget(t.pending[k]))
  }

  lemma SubKeys(small: map<nat, Pending>, big: map<nat, Pending>)
    requires forall k | k in small :: k in big
    ensures |small| <= |big|
  {
    SubsetSize(small.Keys, big.Keys);
  }

  lemma OneSampleBounded(t: Tables, k: nat, p: Pending, after: Tables)
    requires Bounded(t) && k in t.pending && WithinBudget(p)
    requires after.pending == t.pending[k := p] && after.acks == t.acks
    ensures Bounded(after)
  {
    SubKeys(after.pending, t.pending);
  }

  lemma TickBounded(t: Tables, now: Time)
    requires Bounded(t)
    ensures Bounded(TickLocked(t, now).t) && |TickLocked(t, now).outbound| <= MAX_OUTBOUND
  {
    var tick := TickLocked(t, now);
    TickEffect(t, now);
    SubKeys(tick.t.pending, t.pending);
    forall k | k in tick.t.pending ensures k < 0x1_0000 && WithinBudget(tick.t.pending[k]) {
      assert Fate(t, k, tick.t, now);
    }
  }

  lemma RememberBounded(t: Tables, c: Check, now: Time)
    requires Bounded(t)
    ensures Bounded(RememberTransfer(t, c.sequence, c.destination, c.handle, now))
  {
    var after := RememberTransfer(t, c.sequence, c.destination, c.handle, now);
    if c.handle.transfer != 0 && c.sequence in t.pending {
      OneSampleBounded(t, c.sequence, after.pending[c.sequence], after);
    }
  }

  lemma CheckBounded(t: Tables, c: Check)
    requires Bounded(t)
    ensures Bounded(TransferFinished(t, c))
  {
    if MeshHandles.CheckHits(t, c) {
      OneSampleBounded(t, c.sequence, TransferFinished(t, c).pending[c.sequence], TransferFinished(t, c));
    }
  }

  lemma RefusedBounded(t: Tables, item: Outbound, now: Time)
    requires Bounded(t)
    ensures Bounded(OutboundRefused(t, item, now))
  {
    var q := Sequence(item.data);
    var after := OutboundRefused(t, item, now);
    if q in t.pending && item.destination in t.pending[q].awaiting {
      OneSampleBounded(t, q, after.pending[q], after);
    }
  }

  lemma FailedBounded(t: Tables, sequence: nat, destination: nat, refused: bool, now: Time)
    requires Bounded(t)
    ensures Bounded(FirstSendFailed(t, sequence, destination, refused, now))
  {
    var after := FirstSendFailed(t, sequence, destination, refused, now);
    if sequence in t.pending && destination in t.pending[sequence].awaiting {
      OneSampleBounded(t, sequence, after.pending[sequence], after);
    }
  }

  lemma AckBounded(t: Tables, source: nat, appKey: nat, data: ReliableFrame)
    requires Bounded(t)
    ensures Bounded(AckReceived(t, source, appKey, data))
  {
    var q := Sequence(data);
    var after := AckReceived(t, source, appKey, data);
    if AckMatches(t, appKey, data) && source in t.pending[q].awaiting {
      OneSampleBounded(t, q, after.pending[q], after);
    }
  }

  lemma OneLess(pending: map<nat, Pending>, k: nat)
    requires k in pending
    ensures |pending - {k}| == |pending| - 1
  {
    assert (pending - {k}).Keys == pending.Keys - {k};
  }

  lemma RoomMade(t: Tables)
    requires Bounded(t)
    ensures Bounded(MakeRoom(t)) && |MakeRoom(t).pending| < MAX_PENDING_SAMPLES
  {
    if |t.pending| >= MAX_PENDING_SAMPLES {
      var k := OldestIn(t.pending, Ascending(t.pending.Keys));
      OneLess(t.pending, k);
      assert MakeRoom(t) == DropSample(t, k);
    }
  }

  lemma OneMore(pending: map<nat, Pending>, k: nat, p: Pending)
    ensures |pending[k := p]| <= |pending| + 1
  {
    assert pending[k := p].Keys == pending.Keys + {k};
  }

  lemma EnqueueBounded(t: Tables, offer: Offer, plan: Plan, swarm: nat, tag: nat, now: Time)
    requires Bounded(t) && IsBridgeFrame(offer.payload) && plan.sequence < 0x1_0000
    ensures Bounded(EnqueueSample(t, offer, plan, swarm, tag, now))
  {
    RoomMade(t);
    var t1 := MakeRoom(t);
    if plan.sequence !in t1.pending {
      var p := NewSample(offer, plan, swarm, tag, now);
      OneMore(t1.pending, plan.sequence, p);
      SampleAdded(t1, plan.sequence, p);
    }
  }

  lemma SampleAdded(t: Tables, k: nat, p: Pending)
    requires Bounded(t) && k < 0x1_0000 && WithinBudget(p) && |t.pending[k := p]| <= MAX_PENDING_SAMPLES
    ensures Bounded(t.(pending := t.pending[k := p]))
  {}

  lemma WithdrawBounded(t: Tables, offer: Offer, resumed: bool, plan: Plan)
    requires Bounded(t)
    ensures Bounded(WithdrawSample(t, offer, resumed, plan))
  {
    SubKeys(t.pending - {plan.sequence}, t.pending);
  }

  // ---------------------------------------------------------------- the running send

  /** The fan-out names each live peer once, and the turn goes to exactly one of them. */
  ghost predicate PlanOk(plan: Plan) {
    && plan.sequence < 0x1_0000 && plan.targets != [] && StrictlySorted(plan.targets)
    && (plan.consumes ==> plan.successor in plan.targets)
  }

  ghost predicate NoHandles(p: Pending) {
    p.primary == None && forall a | a in p.awaiting :: p.awaiting[a].transfer == None
  }

  predicate NothingAdmitted(job: Job) { job.phase.Consuming? || (job.phase.Sending? && !job.phase.admitted) }

  ghost predicate JobOk(t: Tables, job: Job, held: Option<Check>) {
    && IsBridgeFrame(job.offer.payload)
    && (!job.phase.Planning? ==> PlanOk(job.phase.plan))
    && (job.phase.Enqueuing? ==> job.phase.plan.sequence !in t.pending)
    && (job.phase.Sending? ==> job.phase.next <= |job.phase.plan.targets|)
    && (job.phase.Consuming? || job.phase.Sending? ==>
          |job.phase.wrapped| >= RELIABLE_DATA_HEADER_BYTES
          && (job.phase.plan.sequence in t.pending ==> t.pending[job.phase.plan.sequence].sample == job.sample))
    && (NothingAdmitted(job) ==>
          held == None && (job.phase.plan.sequence in t.pending ==> NoHandles(t.pending[job.phase.plan.sequence])))
    && (!job.phase.Sending? ==> held == None)
  }

  ghost predicate WorkOk(n: Node) {
    && |n.work.outbound| <= MAX_OUTBOUND
    && (n.work.job.Some? ==> n.work.outbound == [] && n.work.checks == [] && JobOk(n.t, n.work.job.value, n.work.held))
  }

  ghost predicate NodeOk(n: Node) { Bounded(n.t) && WorkOk(n) }

  /** The tables may only lose samples or shrink what they await; enough to keep a running send. */
  ghost predicate OnlyAcked(t: Tables, after: Tables) {
    forall k | k in after.pending :: k in t.pending
      && after.pending[k].sample == t.pending[k].sample && (NoHandles(t.pending[k]) ==> NoHandles(after.pending[k]))
  }

  lemma PlanIsOk(t: Tables, offer: Offer, resumed: bool, env: PlanEnv)
    requires |t.pending| <= MAX_PENDING_SAMPLES && env.local !in env.peers
    ensures var r := PlanSend(t, offer, resumed, env);
            r.1.Some? ==> PlanOk(r.1.value) && r.1.value.sequence !in t.pending
  {
    var r := PlanSend(t, offer, resumed, env);
    if r.1.Some? {
      var (t1, probed) := Probe(t, env);
      var k := AllocateIsFirstFree(t1.nextSequence, t1.pending.Keys);
      CounterStep(t1.nextSequence, k);
      if r.1.value.consumes { SuccessorIsPeer(env.local, env.peers); }
    }
  }

  lemma PlanKeeps(n: Node, env: PlanEnv)
    requires NodeOk(n) && Enabled(n, MakePlan(env))
    ensures NodeOk(AfterPlan(n, env))
  {
    var job := n.work.job.value;
    PlanIsOk(n.t, job.offer, job.resumed, env);
  }

  lemma FreshSampleNoHandles(offer: Offer, plan: Plan, swarm: nat, tag: nat, now: Time)
    requires IsBridgeFrame(offer.payload)
    ensures NoHandles(NewSample(offer, plan, swarm, tag, now))
  {}

  lemma EnqueueKeeps(n: Node, swarm: nat, tag: nat, now: Time)
    requires NodeOk(n) && Enabled(n, Enqueue(swarm, tag, now))
    ensures NodeOk(AfterEnqueue(n, swarm, tag, now))
    ensures var q := n.work.job.value.phase.plan.sequence;
            q in AfterEnqueue(n, swarm, tag, now).t.pending
            && AfterEnqueue(n, swarm, tag, now).t.pending[q] == NewSample(n.work.job.value.offer, n.work.job.value.phase.plan, swarm, tag, now)
  {
    var job := n.work.job.value;
    var plan := job.phase.plan;
    EnqueueBounded(n.t, job.offer, plan, swarm, tag, now);
    FreshSampleNoHandles(job.offer, plan, swarm, tag, now);
    assert plan.sequence !in MakeRoom(n.t).pending;
  }

  lemma RememberOnlyOwn(t: Tables, c: Check, now: Time, k: nat)
    requires k in RememberTransfer(t, c.sequence, c.destination, c.handle, now).pending
    ensures k in t.pending
    ensures RememberTransfer(t, c.sequence, c.destination, c.handle, now).pending[k].sample == t.pending[k].sample
  {}

  lemma RememberKeeps(n: Node, now: Time)
    requires NodeOk(n) && Enabled(n, Remember(now))
    ensures NodeOk(AfterRemember(n, now))
  {
    var c := n.work.held.value;
    RememberBounded(n.t, c, now);
    if n.work.job.Some? {
      var q := n.work.job.value.phase.plan.sequence;
      if q in AfterRemember(n, now).t.pending { RememberOnlyOwn(n.t, c, now, q); }
    }
  }

  lemma FirstSendKeeps(n: Node, answer: SendAnswer, now: Time)
    requires NodeOk(n) && Enabled(n, FirstSendAnswered(answer, now))
    ensures NodeOk(AfterFirstSend(n, answer, now))
  {
    var phase := n.work.job.value.phase;
    FailedBounded(n.t, phase.plan.sequence, phase.plan.targets[phase.next], answer.Refused?, now);
  }

  lemma AckKeepsSamples(t: Tables, source: nat, appKey: nat, data: ReliableFrame)
    ensures OnlyAcked(t, AckReceived(t, source, appKey, data))
  {}

  lemma OutboundKeeps(n: Node, answer: SendAnswer, now: Time)
    requires NodeOk(n) && Enabled(n, OutboundAnswered(answer, now))
    ensures NodeOk(AfterOutbound(n, answer, now))
  {
    RefusedBounded(n.t, n.work.outbound[0], now);
  }

  lemma FinishKeeps(n: Node)
    requires NodeOk(n) && Enabled(n, FinishSend)
    ensures NodeOk(AfterFinish(n))
  {
    var job := n.work.job.value;
    if !job.phase.admitted { WithdrawBounded(n.t, job.offer, job.resumed, job.phase.plan); }
  }

  lemma ReceiveKeeps(n: Node, e: Event)
    requires NodeOk(n) && Enabled(n, e) && (e.ReceiveAck? || e.ReceiveFrame? || e.DecodeDone?)
    ensures NodeOk(Next(n, e))
  {
    match e
    case ReceiveAck(m) =>
      AckBounded(n.t, m.source, m.appKey, m.data);
      AckKeepsSamples(n.t, m.source, m.appKey, m.data);
    case ReceiveFrame(m, now) =>
      assert FrameReceived(n.t, m.source, m.appKey, m.data, now).0.pending == n.t.pending;
    case DecodeDone(m, delivered, local, members, now) =>
      assert DecodeFinished(n.t, m.source, m.appKey, m.element, m.data, delivered, local, members, now).pending == n.t.pending;
    case _ =>
  }

  /** Every event of a node keeps the queue bounds and the state of the running send. */
  lemma EventKeeps(n: Node, e: Event)
    requires NodeOk(n) && Enabled(n, e)
    ensures NodeOk(Next(n, e))
  {
    match e
    case StartTick(now) => TickBounded(n.t, now);
    case CheckAnswered(_) => CheckBounded(n.t, n.work.checks[0]);
    case OutboundAnswered(answer, now) => OutboundKeeps(n, answer, now);
    case OutboundStillNative =>
    case Remember(now) => RememberKeeps(n, now);
    case MakePlan(env) => PlanKeeps(n, env);
    case Enqueue(swarm, tag, now) => EnqueueKeeps(n, swarm, tag, now);
    case FirstSendAnswered(answer, now) => FirstSendKeeps(n, answer, now);
    case FinishSend => FinishKeeps(n);
    case ReceiveAck(_) => ReceiveKeeps(n, e);
    case ReceiveFrame(_, _) => ReceiveKeeps(n, e);
    case DecodeDone(_, _, _, _, _) => ReceiveKeeps(n, e);
    case _ =>
  }

  /** In every run of a node: at most 32 pending samples, 128 queued receipts, 6 frames built by a
      tick, and 3 repairs per peer; a planned sequence is always free. */
  lemma {:induction false} RunKeeps(trace: seq<Node>, events: seq<Event>, i: nat)
    requires IsRun(trace, events) && i < |trace|
    ensures NodeOk(trace[i])
  {
    if i > 0 {
      RunKeeps(trace, events, i - 1);
      EventKeeps(trace[i - 1], events[i - 1]);
    }
  }
}
