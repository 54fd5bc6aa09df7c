/** Latest-value coalescing. Offers carry increasing ages; `newest` is the age of the newest offer of a
    channel and `sent` the newest age whose first transmission was admitted. */
module MeshLatest {
  import opened MeshFrame
  import opened Ordered
  import opened MeshTables
  import opened MeshWorker
  import opened MeshEffects
  import opened MeshInvariant

  datatype History = History(newest: map<nat, nat>, sent: map<nat, nat>)

  const NO_HISTORY := History(map[], map[])

  function OfferChannel(o: Offer): nat { ChannelOf(o.bridge) }

  /** The reliable Mesh path with well-formed payloads, offered in age order. */
  ghost predicate Offered(h: History, e: Event) {
    match e
    case OfferValue(o, _, coordinated) =>
      && coordinated && o.bridge.reliable && IsBridgeFrame(o.payload)
      && (OfferChannel(o) in h.newest ==> h.newest[OfferChannel(o)] < o.age)
    case ResumeNext(_, coordinated) => coordinated
    case _ => true
  }

  ghost function Record(n: Node, h: History, e: Event): History
    requires Enabled(n, e)
  {
    match e
    case OfferValue(o, _, _) => h.(newest := h.newest[OfferChannel(o) := o.age])
    case FirstSendAnswered(Admitted(_), _) =>
      var o := n.work.job.value.offer;
      h.(sent := h.sent[OfferChannel(o) := o.age])
    case _ => h
  }

  /** Offer `o` is the newest of its channel. */
  ghost predicate Newest(h: History, o: Offer) {
    OfferChannel(o) in h.newest && h.newest[OfferChannel(o)] == o.age && o.bridge.reliable && IsBridgeFrame(o.payload)
  }

  /** ... and none of its copies was transmitted yet. */
  ghost predicate Unsent(h: History, o: Offer) {
    Newest(h, o) && (OfferChannel(o) in h.sent ==> h.sent[OfferChannel(o)] < o.age)
  }

  ghost predicate SlotsFresh(t: Tables, h: History) {
    forall c | c in t.latest :: OfferChannel(t.latest[c]) == c && Unsent(h, t.latest[c])
  }

  ghost predicate ReadyFresh(n: Node, h: History) {
    && (forall o | o in n.work.ready :: Unsent(h, o))
    && (forall i, j | 0 <= i < j < |n.work.ready| :: OfferChannel(n.work.ready[i]) != OfferChannel(n.work.ready[j]))
  }

  ghost predicate JobFresh(t: Tables, job: Job, h: History) {
    var c := OfferChannel(job.offer);
    && c !in t.latest
    && (if job.phase.Sending? && job.phase.admitted then Newest(h, job.offer) && c in h.sent && h.sent[c] == job.offer.age
        else Unsent(h, job.offer))
    && (job.phase.Consuming? || job.phase.Sending? ==>
          && job.phase.plan.sequence in t.pending
          && t.pending[job.phase.plan.sequence].channel == c && t.pending[job.phase.plan.sequence].age == job.offer.age)
  }

  ghost predicate WorkFresh(n: Node, h: History) {
    && ReadyFresh(n, h)
    && (n.work.job.Some? ==>
          && JobFresh(n.t, n.work.job.value, h)
          && forall o | o in n.work.ready :: OfferChannel(o) != OfferChannel(n.work.job.value.offer))
  }

  /** Samples carry offers of their channel, none newer than the newest. */
  ghost predicate AgesKnown(t: Tables, h: History) {
    forall k | k in t.pending :: t.pending[k].channel in h.newest && t.pending[k].age <= h.newest[t.pending[k].channel]
  }

  ghost predicate SentKnown(h: History) { forall c | c in h.sent :: c in h.newest && h.sent[c] <= h.newest[c] }

  ghost predicate Fresh(n: Node, h: History) {
    SlotsFresh(n.t, h) && WorkFresh(n, h) && AgesKnown(n.t, h) && SentKnown(h)
  }

  lemma StoreFresh(t: Tables, h: History, o: Offer, resumed: bool)
    requires SlotsFresh(t, h) && Unsent(h, o)
    ensures SlotsFresh(StoreLatest(t, o, resumed), h)
    ensures OfferChannel(o) in StoreLatest(t, o, resumed).latest
            && StoreLatest(t, o, resumed).latest[OfferChannel(o)].age == o.age
  {}

  // ---------------------------------------------------------------- where the newest value is

  ghost predicate InSlot(t: Tables, c: nat, age: nat) { c in t.latest && t.latest[c].age == age }

  ghost predicate Carries(t: Tables, k: nat, c: nat, age: nat) {
    k in t.pending && t.pending[k].channel == c && t.pending[k].age == age
  }

  ghost predicate InSample(t: Tables, c: nat, age: nat) { exists k :: Carries(t, k, c, age) }

  ghost predicate InReady(n: Node, c: nat, age: nat) {
    exists o | o in n.work.ready :: OfferChannel(o) == c && o.age == age
  }

  ghost predicate InJob(n: Node, c: nat, age: nat) {
    n.work.job.Some? && OfferChannel(n.work.job.value.offer) == c && n.work.job.value.offer.age == age
  }

  /** The value is in the waiting slot, the tick's ready list, the running send, or a pending sample. */
  ghost predicate Retained(n: Node, c: nat, age: nat) {
    InSlot(n.t, c, age) || InSample(n.t, c, age) || InReady(n, c, age) || InJob(n, c, age)
  }

  lemma KeptElsewhere(n: Node, after: Node, c: nat, age: nat)
    requires Retained(n, c, age)
    requires InSlot(n.t, c, age) ==> InSlot(after.t, c, age)
    requires after.t.pending == n.t.pending && after.work.ready == n.work.ready
    requires InJob(n, c, age) ==> InJob(after, c, age)
    ensures Retained(after, c, age)
  {
    if InSample(n.t, c, age) {
      var k :| Carries(n.t, k, c, age);
      assert Carries(after.t, k, c, age);
    } else if InReady(n, c, age) {
      assert InReady(after, c, age);
    }
  }

  // ---------------------------------------------------------------- the gate

  lemma GateRetains(n: Node, o: Offer, resumed: bool, ready: bool, c: nat, age: nat)
    requires c != OfferChannel(o) && Retained(n, c, age) && n.work.job == None
    ensures Retained(AfterGate(n, o, resumed, ready, true), c, age)
  {
    var after := AfterGate(n, o, resumed, ready, true);
    assert after.t.pending == n.t.pending && after.work.ready == n.work.ready;
    assert c in n.t.latest ==> c in after.t.latest && after.t.latest[c] == n.t.latest[c];
    KeptElsewhere(n, after, c, age);
  }

  /** The gate keeps the value: it waits in its slot, or the send routine runs with it. */
  lemma GateFresh(n: Node, h: History, o: Offer, resumed: bool, ready: bool)
    requires SlotsFresh(n.t, h) && ReadyFresh(n, h) && AgesKnown(n.t, h) && SentKnown(h) && Unsent(h, o)
    requires forall r | r in n.work.ready :: OfferChannel(r) != OfferChannel(o)
    ensures Fresh(AfterGate(n, o, resumed, ready, true), h)
    ensures Retained(AfterGate(n, o, resumed, ready, true), OfferChannel(o), o.age)
    ensures forall c, age | c != OfferChannel(o) && Retained(n, c, age) && n.work.job == None ::
              Retained(AfterGate(n, o, resumed, ready, true), c, age)
  {
    GateKeepsFresh(n, h, o, resumed, ready);
    forall c, age | c != OfferChannel(o) && Retained(n, c, age) && n.work.job == None
      ensures Retained(AfterGate(n, o, resumed, ready, true), c, age)
    {
      GateRetains(n, o, resumed, ready, c, age);
    }
  }

  lemma GateKeepsFresh(n: Node, h: History, o: Offer, resumed: bool, ready: bool)
    requires SlotsFresh(n.t, h) && ReadyFresh(n, h) && AgesKnown(n.t, h) && SentKnown(h) && Unsent(h, o)
    requires forall r | r in n.work.ready :: OfferChannel(r) != OfferChannel(o)
    ensures var after := AfterGate(n, o, resumed, ready, true);
            Fresh(after, h) && (InSlot(after.t, OfferChannel(o), o.age) || InJob(after, OfferChannel(o), o.age))
  {
    StoreFresh(n.t, h, o, resumed);
    var after := AfterGate(n, o, resumed, ready, true);
    assert after.t.pending == n.t.pending && after.work.ready == n.work.ready;
    if ready && !(resumed && OfferChannel(o) in n.t.latest) {
      var t1 := if resumed then n.t else n.t.(latest := n.t.latest - {OfferChannel(o)});
      StoreFresh(t1, h, o, resumed);
    }
  }

  // ---------------------------------------------------------------- every event keeps the freshness

  /** Slots, ready list, running send and what the samples carry are untouched. */
  ghost predicate SameValues(n: Node, after: Node) {
    && after.t.latest == n.t.latest && after.work.ready == n.work.ready && after.work.job == n.work.job
    && after.t.pending.Keys == n.t.pending.Keys
    && forall k | k in n.t.pending ::
         after.t.pending[k].channel == n.t.pending[k].channel && after.t.pending[k].age == n.t.pending[k].age
  }

  lemma SameValuesFresh(n: Node, after: Node, h: History)
    requires Fresh(n, h) && SameValues(n, after)
    ensures Fresh(after, h)
    ensures forall c, age | Retained(n, c, age) :: Retained(after, c, age)
  {
    forall c, age | Retained(n, c, age) ensures Retained(after, c, age) {
      if InSample(n.t, c, age) {
        var k :| Carries(n.t, k, c, age);
        assert Carries(after.t, k, c, age);
      }
      if InReady(n, c, age) { assert InReady(after, c, age); }
    }
  }

  /** Events that only do bookkeeping. */
  predicate Bookkeeping(e: Event) {
    e.CheckAnswered? || e.OutboundAnswered? || e.OutboundStillNative? || e.Remember? || e.SpendTurn?
    || e.TakeCancellations? || e.CancelAnswered? || e.ReceiveAck? || e.ReceiveFrame? || e.DecodeDone?
  }

  lemma RefusedKeepsValues(n: Node, item: Outbound, now: Time)
    ensures SameValues(n, n.(t := OutboundRefused(n.t, item, now)))
  {}

  lemma FailedKeepsValues(n: Node, sequence: nat, destination: nat, refused: bool, now: Time)
    ensures SameValues(n, n.(t := FirstSendFailed(n.t, sequence, destination, refused, now)))
  {}

  lemma RememberKeepsValues(n: Node, c: Check, now: Time)
    ensures SameValues(n, n.(t := RememberTransfer(n.t, c.sequence, c.destination, c.handle, now)))
  {
    var after := RememberTransfer(n.t, c.sequence, c.destination, c.handle, now);
    if c.handle.transfer != 0 && c.sequence in n.t.pending {
      assert after.pending == n.t.pending[c.sequence := after.pending[c.sequence]];
    }
  }

  lemma CheckKeepsValues(n: Node, c: Check)
    ensures SameValues(n, n.(t := TransferFinished(n.t, c)))
  {}

  lemma AckKeepsValues(n: Node, source: nat, appKey: nat, data: ReliableFrame)
    ensures SameValues(n, n.(t := AckReceived(n.t, source, appKey, data)))
  {}

  lemma ReceiveKeepsValues(n: Node, e: Event)
    requires Enabled(n, e) && (e.ReceiveFrame? || e.DecodeDone?)
    ensures SameValues(n, Next(n, e))
  {
    assert Next(n, e).t.pending == n.t.pending && Next(n, e).t.latest == n.t.latest;
  }

  lemma IdleKeepsValues(n: Node, e: Event)
    requires Enabled(n, e) && (e.OutboundStillNative? || e.TakeCancellations? || e.CancelAnswered?)
    ensures SameValues(n, Next(n, e))
  {}

  lemma AnswerKeepsValues(n: Node, e: Event)
    requires Enabled(n, e) && (e.CheckAnswered? || e.OutboundAnswered?)
    ensures SameValues(n, Next(n, e))
  {
    if e.CheckAnswered? {
      CheckKeepsValues(n, n.work.checks[0]);
    } else {
      RefusedKeepsValues(n, n.work.outbound[0], e.now);
    }
  }

  lemma BookkeepingKeepsValues(n: Node, e: Event)
    requires Enabled(n, e) && Bookkeeping(e) && !e.SpendTurn?
    ensures SameValues(n, Next(n, e))
  {
    match e
    case CheckAnswered(_) => AnswerKeepsValues(n, e);
    case OutboundAnswered(_, _) => AnswerKeepsValues(n, e);
    case Remember(now) => RememberKeepsValues(n, n.work.held.value, now);
    case ReceiveAck(m) => AckKeepsValues(n, m.source, m.appKey, m.data);
    case ReceiveFrame(_, _) => ReceiveKeepsValues(n, e);
    case DecodeDone(_, _, _, _, _) => ReceiveKeepsValues(n, e);
    case _ => IdleKeepsValues(n, e);
  }

  lemma SpendFresh(n: Node, h: History, now: Time)
    requires Fresh(n, h) && Enabled(n, SpendTurn(now))
    ensures Fresh(AfterSpend(n, now), h)
    ensures forall c, age | Retained(n, c, age) :: Retained(AfterSpend(n, now), c, age)
  {
    forall c, age | Retained(n, c, age) ensures Retained(AfterSpend(n, now), c, age) {
      KeptElsewhere(n, AfterSpend(n, now), c, age);
    }
  }

  /** A fresh offer passes the gate as if its slot had been empty. */
  lemma GateForgets(n: Node, o: Offer, ready: bool)
    ensures AfterGate(n, o, false, ready, true)
            == AfterGate(n.(t := n.t.(latest := n.t.latest - {OfferChannel(o)})), o, false, ready, true)
  {
    var emptied := n.t.latest - {OfferChannel(o)};
    assert n.t.latest[OfferChannel(o) := o] == emptied[OfferChannel(o) := o];
    assert emptied - {OfferChannel(o)} == emptied;
  }

  /** An offer makes only the values of its own channel old. */
  lemma OthersStayUnsent(n: Node, h: History, o: Offer)
    requires Fresh(n, h) && Idle(n) && Offered(h, OfferValue(o, true, true))
    ensures var emptied := n.t.(latest := n.t.latest - {OfferChannel(o)});
            var h' := h.(newest := h.newest[OfferChannel(o) := o.age]);
            SlotsFresh(emptied, h') && AgesKnown(emptied, h') && SentKnown(h') && Unsent(h', o)
  {
    forall d | d in n.t.latest && d != OfferChannel(o)
      ensures Unsent(h.(newest := h.newest[OfferChannel(o) := o.age]), n.t.latest[d])
    {
      assert Unsent(h, n.t.latest[d]);
    }
  }

  lemma OfferFresh(n: Node, h: History, o: Offer, ready: bool)
    requires Fresh(n, h) && Idle(n) && Offered(h, OfferValue(o, ready, true))
    ensures Fresh(AfterGate(n, o, false, ready, true), h.(newest := h.newest[OfferChannel(o) := o.age]))
    ensures Retained(AfterGate(n, o, false, ready, true), OfferChannel(o), o.age)
    ensures forall c, age | c != OfferChannel(o) && Retained(n, c, age) :: Retained(AfterGate(n, o, false, ready, true), c, age)
  {
    var c := OfferChannel(o);
    var emptied := n.(t := n.t.(latest := n.t.latest - {c}));
    GateForgets(n, o, ready);
    OthersStayUnsent(n, h, o);
    GateFresh(emptied, h.(newest := h.newest[c := o.age]), o, false, ready);
    forall d, age | d != c && Retained(n, d, age) ensures Retained(AfterGate(n, o, false, ready, true), d, age) {
      KeptElsewhere(n, emptied, d, age);
    }
  }

  lemma ResumeFresh(n: Node, h: History, ready: bool)
    requires Fresh(n, h) && Enabled(n, ResumeNext(ready, true))
    ensures Fresh(Next(n, ResumeNext(ready, true)), h)
    ensures forall c, age | c in h.newest && age == h.newest[c] && Retained(n, c, age) :: Retained(Next(n, ResumeNext(ready, true)), c, age)
  {
    var o := n.work.ready[0];
    var rest := n.(work := n.work.(ready := n.work.ready[1..]));
    GateFresh(rest, h, o, true, ready);
    forall c, age | c in h.newest && age == h.newest[c] && Retained(n, c, age)
      ensures Retained(Next(n, ResumeNext(ready, true)), c, age)
    {
      if c != OfferChannel(o) {
        assert InReady(n, c, age) ==> InReady(rest, c, age);
        assert Retained(rest, c, age);
      }
    }
  }

  lemma PlanFresh(n: Node, h: History, env: PlanEnv)
    requires Fresh(n, h) && Enabled(n, MakePlan(env))
    ensures Fresh(AfterPlan(n, env), h)
    ensures forall c, age | c in h.newest && age == h.newest[c] && Retained(n, c, age) :: Retained(AfterPlan(n, env), c, age)
  {
    var job := n.work.job.value;
    var (t, plan) := PlanSend(n.t, job.offer, job.resumed, env);
    PlanStores(n.t, job.offer, job.resumed, env);
    StoreFresh(n.t, h, job.offer, job.resumed);
    forall c, age | c in h.newest && age == h.newest[c] && Retained(n, c, age) ensures Retained(AfterPlan(n, env), c, age) {
      if InJob(n, c, age) && plan.None? {
        assert InSlot(t, c, age);
      } else {
        KeptElsewhere(n, AfterPlan(n, env), c, age);
      }
    }
  }

  lemma RingStores(t: Tables, o: Offer, resumed: bool, env: PlanEnv, sequence: nat, targets: seq<nat>)
    ensures var r := PlanRing(t, o, resumed, env, sequence, targets);
            r.0.latest == if r.1.None? then StoreLatest(t, o, resumed).latest else t.latest
  {}

  lemma PlanStores(t: Tables, o: Offer, resumed: bool, env: PlanEnv)
    ensures var r := PlanSend(t, o, resumed, env);
            r.0.latest == if r.1.None? then StoreLatest(t, o, resumed).latest else t.latest
  {
    var (t1, probed) := Probe(t, env);
    StoresAlike(t, t1, o, resumed);
    var t2 := t1.(nextSequence := Allocate(t1.nextSequence, t1.pending.Keys));
    StoresAlike(t, t2, o, resumed);
    RingStores(t2, o, resumed, env, t2.nextSequence % 0x1_0000, Ascending(set a | a in env.peers + probed));
  }

  lemma StoresAlike(t: Tables, t': Tables, o: Offer, resumed: bool)
    requires t.latest == t'.latest
    ensures StoreLatest(t, o, resumed).latest == StoreLatest(t', o, resumed).latest
  {}

  lemma EnqueueFresh(n: Node, h: History, swarm: nat, tag: nat, now: Time)
    requires NodeOk(n) && Fresh(n, h) && Enabled(n, Enqueue(swarm, tag, now))
    ensures Fresh(AfterEnqueue(n, swarm, tag, now), h)
  {
    EnqueueKeeps(n, swarm, tag, now);
  }

  lemma EnqueueRetains(n: Node, swarm: nat, tag: nat, now: Time, c: nat, age: nat)
    requires NodeOk(n) && Enabled(n, Enqueue(swarm, tag, now)) && Retained(n, c, age)
    ensures Retained(AfterEnqueue(n, swarm, tag, now), c, age) || (!InSlot(n.t, c, age) && Evicts(n.t, c, age))
  {
    EnqueueKeeps(n, swarm, tag, now);
    var after := AfterEnqueue(n, swarm, tag, now);
    if InSlot(n.t, c, age) {
      assert InSlot(after.t, c, age);
    } else if InSample(n.t, c, age) {
      var k :| Carries(n.t, k, c, age);
      if !Evicts(n.t, c, age) {
        assert Carries(MakeRoom(n.t), k, c, age);
        assert Carries(after.t, k, c, age);
      }
    } else if InReady(n, c, age) {
      assert InReady(after, c, age);
    }
  }

  /** The bounded queue is full and its oldest sample carries this value. */
  ghost predicate Evicts(t: Tables, c: nat, age: nat) {
    |t.pending| >= MAX_PENDING_SAMPLES && Carries(t, OldestIn(t.pending, Ascending(t.pending.Keys)), c, age)
  }

  lemma FirstSendFresh(n: Node, h: History, answer: SendAnswer, now: Time)
    requires Fresh(n, h) && Enabled(n, FirstSendAnswered(answer, now))
    ensures Fresh(AfterFirstSend(n, answer, now), Record(n, h, FirstSendAnswered(answer, now)))
    ensures forall c, age | Retained(n, c, age) :: Retained(AfterFirstSend(n, answer, now), c, age)
  {
    var job := n.work.job.value;
    var after := AfterFirstSend(n, answer, now);
    FailedKeepsValues(n, job.phase.plan.sequence, job.phase.plan.targets[job.phase.next], answer.Refused?, now);
    var mid := n.(t := after.t);
    assert SameValues(n, mid);
    SameValuesFresh(n, mid, h);
    forall c, age | Retained(n, c, age) ensures Retained(after, c, age) {
      assert Retained(mid, c, age);
      KeptElsewhere(mid, after, c, age);
    }
    var h' := Record(n, h, FirstSendAnswered(answer, now));
    forall o | Unsent(h, o) && OfferChannel(o) != OfferChannel(job.offer) ensures Unsent(h', o) {}
    assert SlotsFresh(after.t, h');
    assert ReadyFresh(after, h');
  }

  lemma FinishKeepsFresh(n: Node, h: History)
    requires Fresh(n, h) && Enabled(n, FinishSend)
    ensures Fresh(AfterFinish(n), h)
  {
    var job := n.work.job.value;
    if !job.phase.admitted { StoreFresh(n.t, h, job.offer, job.resumed); }
  }

  lemma FinishFresh(n: Node, h: History)
    requires Fresh(n, h) && Enabled(n, FinishSend)
    ensures Fresh(AfterFinish(n), h)
    ensures forall c, age | Retained(n, c, age) :: Retained(AfterFinish(n), c, age)
  {
    FinishKeepsFresh(n, h);
    forall c, age | Retained(n, c, age) ensures Retained(AfterFinish(n), c, age) { FinishRetains(n, h, c, age); }
  }

  lemma AdmittedRetains(n: Node, h: History, c: nat, age: nat)
    requires Fresh(n, h) && Enabled(n, FinishSend) && Retained(n, c, age) && n.work.job.value.phase.admitted
    ensures Retained(AfterFinish(n), c, age)
  {
    if InJob(n, c, age) {
      assert Carries(n.t, n.work.job.value.phase.plan.sequence, c, age);
    }
    var after := AfterFinish(n);
    if InSample(n.t, c, age) {
      assert InSample(after.t, c, age);
    } else if InReady(n, c, age) {
      assert InReady(after, c, age);
    }
  }

  /** The tables after a send of which no copy was admitted. */
  lemma WithdrawnTables(n: Node)
    requires Enabled(n, FinishSend) && !n.work.job.value.phase.admitted
    ensures var job := n.work.job.value; var after := AfterFinish(n);
            && after.work.ready == n.work.ready && after.t.latest == StoreLatest(n.t, job.offer, job.resumed).latest
            && (forall k | k in n.t.pending && k != job.phase.plan.sequence :: k in after.t.pending && after.t.pending[k] == n.t.pending[k])
  {}

  lemma WithdrawnRetains(n: Node, h: History, c: nat, age: nat)
    requires Fresh(n, h) && Enabled(n, FinishSend) && Retained(n, c, age) && !n.work.job.value.phase.admitted
    ensures Retained(AfterFinish(n), c, age)
  {
    var job := n.work.job.value;
    var after := AfterFinish(n);
    WithdrawnTables(n);
    StoreFresh(n.t, h, job.offer, job.resumed);
    if InJob(n, c, age) {
      assert InSlot(after.t, c, age);
    } else if InSample(n.t, c, age) {
      var k :| Carries(n.t, k, c, age);
      if k != job.phase.plan.sequence { assert Carries(after.t, k, c, age); }
    } else if InReady(n, c, age) {
      assert InReady(after, c, age);
    }
  }

  lemma FinishRetains(n: Node, h: History, c: nat, age: nat)
    requires Fresh(n, h) && Enabled(n, FinishSend) && Retained(n, c, age)
    ensures Retained(AfterFinish(n), c, age)
  {
    if n.work.job.value.phase.admitted {
      AdmittedRetains(n, h, c, age);
    } else {
      WithdrawnRetains(n, h, c, age);
    }
  }

  // ---------------------------------------------------------------- the tick

  ghost predicate DistinctChannels(ready: seq<Offer>) {
    forall i, j | 0 <= i < j < |ready| :: OfferChannel(ready[i]) != OfferChannel(ready[j])
  }

  ghost predicate Keyed(latest: map<nat, Offer>) { forall c | c in latest :: OfferChannel(latest[c]) == c }

  lemma {:induction false} ReadyDistinct(t: Tables, ready: seq<Offer>, channels: seq<nat>)
    requires Keyed(t.latest) && DistinctChannels(ready) && forall o | o in ready :: OfferChannel(o) !in t.latest
    ensures DistinctChannels(ReadyPass(t, ready, channels).1)
    decreases |channels|
  {
    if channels != [] {
      var c := channels[0];
      if c !in t.latest || Busy(t.pending, c) {
        ReadyDistinct(t, ready, channels[1..]);
      } else {
        ReadyDistinct(t.(latest := t.latest - {c}), ready + [t.latest[c]], channels[1..]);
      }
    }
  }

  lemma SamplesKeepSlots(t: Tables, now: Time)
    ensures SubMap(SamplesPass(TickStart(t, now), Ascending(t.pending.Keys), now).t.latest, t.latest)
  {
    var start := TickStart(t, now);
    var keys := Ascending(t.pending.Keys);
    AckItemsAre(t.acks[..AckCount(t)]);
    SamplesPassSummary(start.t, start.outbound, {}, start, keys, now);
  }

  lemma TickReadyDistinct(t: Tables, now: Time)
    requires Keyed(t.latest)
    ensures DistinctChannels(TickLocked(t, now).ready)
  {
    var a := SamplesPass(TickStart(t, now), Ascending(t.pending.Keys), now);
    SamplesKeepSlots(t, now);
    ReadyDistinct(a.t, [], Ascending(a.t.latest.Keys));
  }

  /** The tick drops a complete or expired sample that carries this value. */
  ghost predicate DropsValue(t: Tables, now: Time, c: nat, age: nat) {
    exists k :: Carries(t, k, c, age) && Drops(t.pending[k], now)
  }

  lemma RenewedAge(latest: map<nat, Offer>, h: History, k: nat, p: Pending, q: Pending)
    requires Renewed(latest, k, p, q) && p.channel in h.newest && p.age <= h.newest[p.channel]
    requires p.channel in latest ==> OfferChannel(latest[p.channel]) == p.channel && Unsent(h, latest[p.channel])
    ensures q.channel in h.newest && q.age <= h.newest[q.channel]
  {}

  lemma TickAges(t: Tables, h: History, now: Time)
    requires SlotsFresh(t, h) && AgesKnown(t, h)
    ensures AgesKnown(TickLocked(t, now).t, h)
  {
    var tick := TickLocked(t, now);
    TickEffect(t, now);
    forall k | k in tick.t.pending
      ensures tick.t.pending[k].channel in h.newest && tick.t.pending[k].age <= h.newest[tick.t.pending[k].channel]
    {
      assert Fate(t, k, tick.t, now);
      RenewedAge(t.latest, h, k, t.pending[k], tick.t.pending[k]);
    }
  }

  lemma TickFresh(n: Node, h: History, now: Time)
    requires Fresh(n, h) && Enabled(n, StartTick(now))
    ensures Fresh(Next(n, StartTick(now)), h)
  {
    var tick := TickLocked(n.t, now);
    TickEffect(n.t, now);
    TickReadyDistinct(n.t, now);
    TickAges(n.t, h, now);
    forall o | o in tick.ready ensures Unsent(h, o) { assert Emptied(n.t, tick.t, o); }
  }

  lemma TickRetains(n: Node, h: History, now: Time, c: nat)
    requires Fresh(n, h) && Enabled(n, StartTick(now)) && c in h.newest && Retained(n, c, h.newest[c])
    ensures Retained(Next(n, StartTick(now)), c, h.newest[c])
            || (!InSlot(n.t, c, h.newest[c]) && DropsValue(n.t, now, c, h.newest[c]))
  {
    var age := h.newest[c];
    var tick := TickLocked(n.t, now);
    var after := Next(n, StartTick(now));
    TickEffect(n.t, now);
    if InSlot(n.t, c, age) {
      assert ValueAfterTick(tick, c, n.t.latest[c]);
      if c !in tick.t.latest {
        if n.t.latest[c] in tick.ready {
          assert InReady(after, c, age);
        } else {
          var k :| k in tick.t.pending && tick.t.pending[k].channel == c && tick.t.pending[k].age == age;
          assert Carries(after.t, k, c, age);
        }
      }
    } else {
      var k :| Carries(n.t, k, c, age);
      assert Fate(n.t, k, tick.t, now);
      if !Drops(n.t.pending[k], now) {
        assert Renewed(n.t.latest, k, n.t.pending[k], tick.t.pending[k]);
        assert Carries(after.t, k, c, age);
      }
    }
  }

  /** A repair never carries an older value than the sample did. */
  lemma RepairsNeverGoBack(n: Node, h: History, now: Time, k: nat)
    requires Fresh(n, h) && Enabled(n, StartTick(now)) && k in n.t.pending && k in TickLocked(n.t, now).t.pending
    ensures n.t.pending[k].age <= TickLocked(n.t, now).t.pending[k].age <= h.newest[n.t.pending[k].channel]
  {
    TickEffect(n.t, now);
    TickFresh(n, h, now);
    assert Fate(n.t, k, TickLocked(n.t, now).t, now);
  }

  // ---------------------------------------------------------------- main results

  /** Events of the send routine after the gate. */
  predicate Sends(e: Event) { e.MakePlan? || e.Enqueue? || e.SpendTurn? || e.FirstSendAnswered? || e.FinishSend? }

  lemma SendFresh(n: Node, h: History, e: Event)
    requires NodeOk(n) && Fresh(n, h) && Enabled(n, e) && Sends(e)
    ensures Fresh(Next(n, e), Record(n, h, e))
  {
    match e
    case MakePlan(env) => PlanFresh(n, h, env);
    case Enqueue(swarm, tag, now) => EnqueueFresh(n, h, swarm, tag, now);
    case SpendTurn(now) => SpendFresh(n, h, now);
    case FirstSendAnswered(answer, now) => FirstSendFresh(n, h, answer, now);
    case FinishSend => FinishFresh(n, h);
    case _ =>
  }

  lemma EventFresh(n: Node, h: History, e: Event)
    requires NodeOk(n) && Fresh(n, h) && Enabled(n, e) && Offered(h, e)
    ensures Fresh(Next(n, e), Record(n, h, e))
  {
    if Sends(e) {
      SendFresh(n, h, e);
    } else if Bookkeeping(e) {
      BookkeepingKeepsValues(n, e);
      SameValuesFresh(n, Next(n, e), h);
    } else {
      match e
      case OfferValue(o, ready, _) => OfferFresh(n, h, o, ready);
      case StartTick(now) => TickFresh(n, h, now);
      case ResumeNext(ready, _) => ResumeFresh(n, h, ready);
      case Reset(_) =>
    }
  }

  /** What may end a value: its sample is complete, expired or evicted, or the state is cleared. */
  ghost predicate Ended(n: Node, e: Event, c: nat, age: nat) {
    match e
    case StartTick(now) => DropsValue(n.t, now, c, age)
    case Enqueue(_, _, _) => Evicts(n.t, c, age)
    case Reset(_) => true
    case _ => false
  }

  lemma SendRetains(n: Node, h: History, e: Event, c: nat)
    requires NodeOk(n) && Fresh(n, h) && Enabled(n, e) && Sends(e) && c in h.newest && Retained(n, c, h.newest[c])
    ensures Retained(Next(n, e), c, h.newest[c]) || Ended(n, e, c, h.newest[c])
  {
    match e
    case MakePlan(env) => PlanFresh(n, h, env);
    case Enqueue(swarm, tag, now) => EnqueueRetains(n, swarm, tag, now, c, h.newest[c]);
    case SpendTurn(now) => SpendFresh(n, h, now);
    case FirstSendAnswered(answer, now) => FirstSendFresh(n, h, answer, now);
    case FinishSend => FinishFresh(n, h);
    case _ =>
  }

  /** The newest value of a channel stays in the slot, the ready list, the running send or a pending
      sample until its sample is complete, expired, evicted or cleared, or a newer value replaces it. */
  lemma EventRetains(n: Node, h: History, e: Event, c: nat)
    requires NodeOk(n) && Fresh(n, h) && Enabled(n, e) && Offered(h, e)
    requires c in h.newest && Retained(n, c, h.newest[c])
    ensures Retained(Next(n, e), c, Record(n, h, e).newest[c]) || Ended(n, e, c, h.newest[c])
  {
    if Sends(e) {
      SendRetains(n, h, e, c);
    } else if Bookkeeping(e) {
      BookkeepingRetains(n, h, e, c);
    } else {
      match e
      case OfferValue(o, ready, _) => OfferFresh(n, h, o, ready);
      case StartTick(now) => TickRetains(n, h, now, c);
      case ResumeNext(ready, _) => ResumeFresh(n, h, ready);
      case Reset(_) =>
    }
  }

  lemma BookkeepingRetains(n: Node, h: History, e: Event, c: nat)
    requires Fresh(n, h) && Enabled(n, e) && Bookkeeping(e) && !Sends(e) && c in h.newest && Retained(n, c, h.newest[c])
    ensures Retained(Next(n, e), c, Record(n, h, e).newest[c])
  {
    BookkeepingKeepsValues(n, e);
    SameValuesFresh(n, Next(n, e), h);
  }

  /** The history along a run. */
  ghost function HistoryAt(trace: seq<Node>, events: seq<Event>, i: nat): History
    requires IsRun(trace, events) && i <= |events|
  {
    if i == 0 then NO_HISTORY else Record(trace[i - 1], HistoryAt(trace, events, i - 1), events[i - 1])
  }

  ghost predicate OfferedInOrder(trace: seq<Node>, events: seq<Event>)
    requires IsRun(trace, events)
  {
    forall i | 0 <= i < |events| :: Offered(HistoryAt(trace, events, i), events[i])
  }

  lemma {:induction false} RunFresh(trace: seq<Node>, events: seq<Event>, i: nat)
    requires IsRun(trace, events) && OfferedInOrder(trace, events) && i <= |events|
    ensures Fresh(trace[i], HistoryAt(trace, events, i))
  {
    if i > 0 {
      RunFresh(trace, events, i - 1);
      RunKeeps(trace, events, i - 1);
      EventFresh(trace[i - 1], HistoryAt(trace, events, i - 1), events[i - 1]);
    }
  }

  /** First transmissions on a channel never go back: an admitted first copy carries the newest offer,
      and no older one was transmitted since; only further copies of the same sample repeat an age. */
  lemma FirstTransmissionsAdvance(trace: seq<Node>, events: seq<Event>, i: nat)
    requires IsRun(trace, events) && OfferedInOrder(trace, events) && i < |events|
    requires events[i].FirstSendAnswered?
    ensures var job := trace[i].work.job.value; var h := HistoryAt(trace, events, i); var c := OfferChannel(job.offer);
            && c in h.newest && h.newest[c] == job.offer.age
            && (c in h.sent ==> h.sent[c] <= job.offer.age)
            && (c in h.sent && h.sent[c] == job.offer.age <==> job.phase.admitted)
  {
    RunFresh(trace, events, i);
    assert Enabled(trace[i], events[i]);
  }

  /** Whatever happens, the value waiting in a slot is only ever replaced by a newer one; so a resumed value
      never displaces a stored one. */
  lemma SlotsNeverGoBack(n: Node, h: History, e: Event, c: nat)
    requires NodeOk(n) && Fresh(n, h) && Enabled(n, e) && Offered(h, e) && c in n.t.latest && c in Next(n, e).t.latest
    ensures n.t.latest[c].age <= Next(n, e).t.latest[c].age
    ensures e.ResumeNext? ==> n.t.latest[c].age == Next(n, e).t.latest[c].age
  {
    EventFresh(n, h, e);
    assert Unsent(h, n.t.latest[c]) && Unsent(Record(n, h, e), Next(n, e).t.latest[c]);
  }

  /** The retention above needs well-formed payloads: the gate empties the slot before it checks the
      frame, so a fresh offer is rejected, and an older waiting value dropped with it, exactly when the
      payload is no bridge frame. */
  lemma MalformedOfferDropsWaiting(n: Node, o: Offer)
    requires Idle(n) && o.bridge.reliable
    ensures var (t, result) := Gate(n.t, o, false, true, true);
            && (result == Rejected <==> !IsBridgeFrame(o.payload))
            && (result == Rejected ==> OfferChannel(o) !in t.latest && forall age :: InSample(t, OfferChannel(o), age) <==> InSample(n.t, OfferChannel(o), age))
  {
    var t := Gate(n.t, o, false, true, true).0;
    assert t.pending == n.t.pending;
    forall age, k ensures Carries(t, k, OfferChannel(o), age) <==> Carries(n.t, k, OfferChannel(o), age) {}
  }
}
