/** The turn token of a channel over whole runs of the network. A token is at a node that may send, or
    on its way inside a sample whose turn-marked copy the successor may still publish. */
module TurnTokens {
  import opened MeshFrame
  import opened MeshTables
  import opened MeshWorker
  import opened MeshEffects
  import opened MeshInvariant
  import opened MeshNetwork
  import opened MeshLogs

  datatype Place = At(node: nat) | Sent(tag: nat)

  predicate Permitted(n: Node, ch: nat) { ch in n.t.turns && n.t.turns[ch].permitted }

  /** The running send of node `n` has the permission but has not spent it. */
  predicate AboutToSpend(n: Node, ch: nat) {
    && n.work.job.Some? && (n.work.job.value.phase.Enqueuing? || n.work.job.value.phase.Consuming?)
    && n.work.job.value.phase.plan.consumes && ChannelOf(n.work.job.value.offer.bridge) == ch
  }

  predicate Holds(n: Node, ch: nat) { Permitted(n, ch) || AboutToSpend(n, ch) }

  /** The running send of `n` has put no copy of sample `i` on the air and may still take it back. */
  predicate TakesBack(n: Node, i: nat) { Unsent(n) && n.work.job.value.sample == i }

  /** The turn of sample `i` is not lost: a copy may still reach its successor, or its send is unfinished. */
  ghost predicate Recoverable(s: Net, i: nat)
    requires i in s.samples
  {
    || Live(s, s.samples[i].successor, i)
    || (s.samples[i].source in s.nodes && TakesBack(s.nodes[s.samples[i].source], i))
  }

  ghost predicate InFlight(s: Net, ch: nat, i: nat) {
    i in s.spent && i in s.samples && s.samples[i].channel == ch && (s.samples[i].successor, i) !in s.published && Recoverable(s, i)
  }

  ghost predicate IsPlace(s: Net, ch: nat, p: Place) {
    match p
    case At(a) => a in s.nodes && Holds(s.nodes[a], ch)
    case Sent(i) => InFlight(s, ch, i)
  }

  ghost function Places(s: Net, ch: nat): (r: set<Place>)
    ensures forall p :: p in r <==> IsPlace(s, ch, p)
  {
    (set a | a in s.nodes && Holds(s.nodes[a], ch) :: At(a)) + (set i | i in s.spent && InFlight(s, ch, i) :: Sent(i))
  }

  // ---------------------------------------------------------------- copies that may still be delivered

  ghost predicate PendingLive(n: Node, i: nat, dst: nat) {
    exists k | k in n.t.pending :: n.t.pending[k].sample == i && dst in n.t.pending[k].awaiting
  }

  ghost predicate OutboundLive(n: Node, i: nat, dst: nat) {
    exists item | item in n.work.outbound :: IsDataFrame(item.data) && item.sample == i && item.destination == dst
  }

  ghost predicate JobLive(n: Node, i: nat, dst: nat) {
    && n.work.job.Some? && n.work.job.value.sample == i
    && (n.work.job.value.phase.Consuming? ||
        (n.work.job.value.phase.Sending? && n.work.job.value.phase.next <= |n.work.job.value.phase.plan.targets|
         && dst in n.work.job.value.phase.plan.targets[n.work.job.value.phase.next..]))
  }

  /** The sender may still put a copy of sample `i` for `dst` on the air. */
  ghost predicate SourceLive(n: Node, i: nat, dst: nat) {
    PendingLive(n, i, dst) || OutboundLive(n, i, dst) || JobLive(n, i, dst)
  }

  ghost predicate AirLive(s: Net, a: nat, i: nat) {
    exists w | w in s.air :: IsDataFrame(w.data) && w.sample == i && w.dst == a
  }

  ghost predicate DecodeLive(s: Net, a: nat, i: nat) {
    exists x | x in s.decoding :: x.0 == a && s.decoding[x].sample == i
  }

  /** A copy of sample `i` may still reach or be decoded at node `a`. */
  ghost predicate Live(s: Net, a: nat, i: nat)
    requires i in s.samples
  {
    || AirLive(s, a, i) || DecodeLive(s, a, i)
    || (s.samples[i].source in s.nodes && SourceLive(s.nodes[s.samples[i].source], i, a))
  }

  // ---------------------------------------------------------------- what every step keeps

  predicate TurnMarked(data: ReliableFrame) { IsDataFrame(data) && data[3] == RELIABLE_DATA }

  /** Whatever carries the turn belongs to a sample that spent it. */
  ghost predicate SpentNode(spent: set<nat>, n: Node) {
    && (forall k | k in n.t.pending && n.t.pending[k].successor != 0 ::
          n.t.pending[k].sample in spent || (n.work.job.Some? && n.work.job.value.phase.Consuming? && n.work.job.value.sample == n.t.pending[k].sample))
    && (forall item | item in n.work.outbound && TurnMarked(item.data) :: item.sample in spent)
    && (n.work.job.Some? && n.work.job.value.phase.Sending? && n.work.job.value.phase.plan.successor != 0 ==> n.work.job.value.sample in spent)
  }

  ghost predicate SpentAir(s: Net) {
    && (forall w | w in s.air && TurnMarked(w.data) :: w.sample in s.spent)
    && (forall x | x in s.decoding && TurnMarked(s.decoding[x].data) :: s.decoding[x].sample in s.spent)
    && (forall i | i in s.spent :: i in s.samples)
  }

  /** The running send has put no copy of its sample on the air. */
  predicate Unsent(n: Node) {
    n.work.job.Some? && (n.work.job.value.phase.Consuming? || (n.work.job.value.phase.Sending? && !n.work.job.value.phase.admitted))
  }

  ghost predicate NoCopies(s: Net, i: nat) {
    && (forall w | w in s.air && IsDataFrame(w.data) :: w.sample != i)
    && (forall x | x in s.decoding :: s.decoding[x].sample != i)
    && (forall x | x in s.published :: x.1 != i)
  }

  ghost predicate UnsentHidden(s: Net) {
    forall a | a in s.nodes && Unsent(s.nodes[a]) :: NoCopies(s, s.nodes[a].work.job.value.sample)
  }

  /** A published sample is remembered as delivered for as long as another copy may come. */
  ghost predicate Remembered(s: Net) {
    forall x | x in s.published && x.0 in s.nodes && x.1 in s.samples ::
      (s.samples[x.1].key in s.nodes[x.0].t.seen && s.nodes[x.0].t.seen[s.samples[x.1].key].delivered) || !Live(s, x.0, x.1)
  }

  ghost predicate DecodingSeen(s: Net) {
    forall x | x in s.decoding && x.0 in s.nodes :: x.1 in s.nodes[x.0].t.seen && !s.nodes[x.0].t.seen[x.1].delivered
  }

  ghost predicate TokenOk(s: Net) {
    (forall a | a in s.nodes :: SpentNode(s.spent, s.nodes[a])) && SpentAir(s) && UnsentHidden(s) && Remembered(s) && DecodingSeen(s)
  }

  /** A receiver forgets a key (purge or reset) only when no copy of a sample with that key may come. */
  ghost predicate ForgetsOnlyDead(s: Net, l: Label)
    requires CanStep(s, l)
  {
    l.Local? ==>
      forall i | i in s.samples && s.samples[i].key in s.nodes[l.a].t.seen && s.samples[i].key !in Next(s.nodes[l.a], l.e).t.seen ::
        !Live(s, l.a, i)
  }

  // ---------------------------------------------------------------- sources only lose copies

  ghost predicate SourceFades(n: Node, after: Node, born: set<nat>) {
    forall i, dst | i !in born && SourceLive(after, i, dst) :: SourceLive(n, i, dst)
  }

  lemma ShrinkFades(n: Node, after: Node)
    requires SamplesShrink(n.t, after.t)
    requires forall item | item in after.work.outbound :: item in n.work.outbound
    requires forall i, dst | JobLive(after, i, dst) :: JobLive(n, i, dst)
    ensures SourceFades(n, after, {})
  {
    forall i, dst | SourceLive(after, i, dst) ensures SourceLive(n, i, dst) {
      if PendingLive(after, i, dst) {
        var k :| k in after.t.pending && after.t.pending[k].sample == i && dst in after.t.pending[k].awaiting;
        assert SameIdentityAs(n.t.pending[k], after.t.pending[k]);
        assert PendingLive(n, i, dst);
      } else if OutboundLive(after, i, dst) {
        assert OutboundLive(n, i, dst);
      }
    }
  }

  lemma TickFades(n: Node, now: Time)
    requires Enabled(n, StartTick(now)) && forall x | x in n.t.acks :: IsAck(x.data)
    ensures SourceFades(n, Next(n, StartTick(now)), {})
  {
    var after := Next(n, StartTick(now));
    var tick := TickLocked(n.t, now);
    TickEffect(n.t, now);
    forall i, dst | SourceLive(after, i, dst) ensures SourceLive(n, i, dst) {
      var k: nat;
      if OutboundLive(after, i, dst) {
        var item :| item in after.work.outbound && IsDataFrame(item.data) && item.sample == i && item.destination == dst;
        assert SampleItem(tick.t, item);
        k :| k in tick.t.pending && Source(tick.t, item, k);
      } else {
        k :| k in after.t.pending && after.t.pending[k].sample == i && dst in after.t.pending[k].awaiting;
      }
      assert Fate(n.t, k, tick.t, now);
      assert PendingLive(n, i, dst);
    }
  }

  lemma EnqueueFades(n: Node, swarm: nat, tag: nat, now: Time)
    requires NodeOk(n) && Enabled(n, Enqueue(swarm, tag, now))
    ensures SourceFades(n, AfterEnqueue(n, swarm, tag, now), {tag})
  {
    EnqueueKeeps(n, swarm, tag, now);
    var after := AfterEnqueue(n, swarm, tag, now);
    forall i, dst | i !in {tag} && SourceLive(after, i, dst) ensures SourceLive(n, i, dst) {
      if PendingLive(after, i, dst) {
        var k :| k in after.t.pending && after.t.pending[k].sample == i && dst in after.t.pending[k].awaiting;
        assert k in n.t.pending && n.t.pending[k] == after.t.pending[k];
        assert PendingLive(n, i, dst);
      }
    }
  }

  lemma FirstSendFades(n: Node, e: Event)
    requires NodeOk(n) && Enabled(n, e) && e.FirstSendAnswered?
    ensures SourceFades(n, Next(n, e), {})
    ensures var phase := n.work.job.value.phase; JobLive(n, n.work.job.value.sample, phase.plan.targets[phase.next])
  {
    FirstSendQuiet(n, e);
    var targets := n.work.job.value.phase.plan.targets;
    var next := n.work.job.value.phase.next;
    assert targets[next..] == [targets[next]] + targets[next + 1..];
    ShrinkFades(n, Next(n, e));
  }

  /** Events that leave the running send alone or end it. */
  lemma QuietFades(n: Node, e: Event)
    requires NodeOk(n) && Enabled(n, e) && Quiet(e) && !e.FirstSendAnswered?
    requires forall x | x in n.t.acks :: IsAck(x.data)
    requires forall item | item in n.work.outbound :: item.acknowledgement ==> IsAck(item.data)
    ensures SourceFades(n, Next(n, e), {})
  {
    QuietShrinks(n, e);
    QuietJobs(n, e);
    ShrinkFades(n, Next(n, e));
  }

  lemma QuietJobs(n: Node, e: Event)
    requires Enabled(n, e) && Quiet(e) && !e.FirstSendAnswered?
    ensures forall item | item in Next(n, e).work.outbound :: item in n.work.outbound
    ensures forall i, dst | JobLive(Next(n, e), i, dst) :: JobLive(n, i, dst)
  {}

  lemma PlainFades(n: Node, e: Event)
    requires Enabled(n, e) && (e.OfferValue? || e.ResumeNext? || e.MakePlan?)
    ensures SourceFades(n, Next(n, e), {})
  {
    assert Next(n, e).t.pending == n.t.pending && Next(n, e).work.outbound == n.work.outbound;
    assert forall i, dst :: !JobLive(Next(n, e), i, dst);
    ShrinkFades(n, Next(n, e));
  }

  function Born(e: Event): set<nat> { if e.Enqueue? then {e.tag} else {} }

  lemma LocalFades(n: Node, e: Event)
    requires NodeOk(n) && Enabled(n, e) && IsLocal(e)
    requires forall x | x in n.t.acks :: IsAck(x.data)
    requires forall item | item in n.work.outbound :: item.acknowledgement ==> IsAck(item.data)
    ensures SourceFades(n, Next(n, e), Born(e))
  {
    if e.FirstSendAnswered? {
      FirstSendFades(n, e);
    } else if Quiet(e) {
      QuietFades(n, e);
    } else {
      match e
      case OfferValue(_, _, _) => PlainFades(n, e);
      case ResumeNext(_, _) => PlainFades(n, e);
      case MakePlan(_) => PlainFades(n, e);
      case StartTick(now) => TickFades(n, now);
      case Enqueue(swarm, tag, now) => EnqueueFades(n, swarm, tag, now);
    }
  }

  lemma NewWiresWereLive(a: nat, n: Node, e: Event, w: Wire)
    requires NodeOk(n) && Enabled(n, e) && w in NewWires(a, n, e) && IsDataFrame(w.data)
    ensures SourceLive(n, w.sample, w.dst)
  {
    if e.FirstSendAnswered? {
      FirstSendFades(n, e);
    } else {
      assert n.work.outbound[0] in n.work.outbound;
      assert OutboundLive(n, w.sample, w.dst);
    }
  }

  // ---------------------------------------------------------------- liveness never comes back

  /** Node `a` emits only for its own samples. */
  lemma EmitsOwn(opcodes: map<nat, nat>, s: Net, a: nat, e: Event, w: Wire)
    requires NodesLogged(opcodes, s) && CanStep(s, Local(a, e)) && w in NewWires(a, s.nodes[a], e) && IsDataFrame(w.data)
    ensures w.sample in s.samples && s.samples[w.sample].source == a
  {
    NewWiresOk(opcodes, s, a, e);
    NewWireIs(a, s.nodes[a], e, w);
    assert CopyOk(s.samples, s.framed, w);
  }

  lemma LocalAirLive(opcodes: map<nat, nat>, s: Net, a: nat, e: Event, s': Net, b: nat, i: nat)
    requires NodesLogged(opcodes, s) && CanStep(s, Local(a, e)) && s'.air == s.air + NewWires(a, s.nodes[a], e)
    requires i in s.samples && AirLive(s', b, i)
    ensures Live(s, b, i)
  {
    var w :| w in s'.air && IsDataFrame(w.data) && w.sample == i && w.dst == b;
    if w in s.air {
      assert AirLive(s, b, i);
    } else {
      assert NodeLogged(opcodes, s.samples, s.framed, s.offered, a, s.nodes[a]);
      NewWiresWereLive(a, s.nodes[a], e, w);
      EmitsOwn(opcodes, s, a, e, w);
    }
  }

  /** Node `a` became `n`; liveness through the senders only fades. */
  lemma SenderLive(s: Net, s': Net, a: nat, n: Node, born: set<nat>, b: nat, i: nat)
    requires a in s.nodes && s'.nodes == s.nodes[a := n] && SourceFades(s.nodes[a], n, born) && i !in born
    requires i in s.samples && i in s'.samples && s'.samples[i] == s.samples[i] && Live(s', b, i)
    ensures Live(s, b, i) || AirLive(s', b, i) || DecodeLive(s', b, i)
  {}

  lemma LocalLive(opcodes: map<nat, nat>, s: Net, a: nat, e: Event, s': Net, b: nat, i: nat)
    requires NodesLogged(opcodes, s) && CanStep(s, Local(a, e)) && LogsAfter(s, a, e, s')
    requires i in s.samples && Live(s', b, i)
    ensures Live(s, b, i)
  {
    assert NodeLogged(opcodes, s.samples, s.framed, s.offered, a, s.nodes[a]);
    LocalFades(s.nodes[a], e);
    SenderLive(s, s', a, Next(s.nodes[a], e), Born(e), b, i);
    if AirLive(s', b, i) {
      LocalAirLive(opcodes, s, a, e, s', b, i);
    } else if DecodeLive(s', b, i) {
      assert DecodeLive(s, b, i);
    }
  }

  lemma ReceiveFades(n: Node, e: Event)
    requires Enabled(n, e) && !IsLocal(e)
    ensures SourceFades(n, Next(n, e), {})
  {
    ReceiveShrinks(n, e);
    ShrinkFades(n, Next(n, e));
  }

  lemma ReceiveLive(s: Net, a: nat, e: Event, s': Net, b: nat, i: nat)
    requires a in s.nodes && Enabled(s.nodes[a], e) && !IsLocal(e) && ReceiveAfter(s, a, e, s')
    requires forall x | x in s'.decoding && x !in s.decoding :: AirLive(s, x.0, s'.decoding[x].sample)
    requires forall x | x in s'.decoding && x in s.decoding :: s'.decoding[x] == s.decoding[x]
    requires i in s.samples && Live(s', b, i)
    ensures Live(s, b, i)
  {
    ReceiveFades(s.nodes[a], e);
    if AirLive(s', b, i) {
      assert AirLive(s, b, i);
    } else if DecodeLive(s', b, i) {
      var x :| x in s'.decoding && x.0 == b && s'.decoding[x].sample == i;
      if x in s.decoding { assert DecodeLive(s, b, i); }
    }
  }

  // ---------------------------------------------------------------- whatever carries the turn spent it

  lemma ShrinkSpent(spent: set<nat>, n: Node, after: Node)
    requires SpentNode(spent, n) && SamplesShrink(n.t, after.t) && (forall item | item in after.work.outbound :: item in n.work.outbound)
    requires n.work.job.Some? && n.work.job.value.phase.Consuming? ==> after.work.job == n.work.job
    requires after.work.job.Some? && after.work.job.value.phase.Sending? ==>
      n.work.job.Some? && n.work.job.value.phase.Sending? && after.work.job.value.sample == n.work.job.value.sample
      && after.work.job.value.phase.plan == n.work.job.value.phase.plan
    ensures SpentNode(spent, after)
  {}

  lemma SpendSpent(spent: set<nat>, n: Node, now: Time)
    requires SpentNode(spent, n) && Enabled(n, SpendTurn(now))
    ensures SpentNode(spent + {n.work.job.value.sample}, AfterSpend(n, now))
  {}

  lemma FinishSpent(opcodes: map<nat, nat>, samples: map<nat, Sample>, framed: set<(nat, Bytes)>, a: nat, spent: set<nat>, n: Node)
    requires SpentNode(spent, n) && Enabled(n, FinishSend) && WorkOk(n) && SamplesLogged(opcodes, samples, framed, a, n)
    ensures SpentNode(SpentAfter(spent, n, FinishSend), AfterFinish(n))
  {
    var job := n.work.job.value;
    if !job.phase.admitted {
      forall k | k in AfterFinish(n).t.pending ensures n.t.pending[k].sample != job.sample {
        assert PendingOk(opcodes, samples, framed, a, k, n.t.pending[k]);
      }
    }
  }

  lemma EnqueueSpent(opcodes: map<nat, nat>, samples: map<nat, Sample>, framed: set<(nat, Bytes)>, a: nat,
                     spent: set<nat>, n: Node, swarm: nat, tag: nat, now: Time)
    requires SpentNode(spent, n) && NodeOk(n) && Enabled(n, Enqueue(swarm, tag, now)) && SamplesLogged(opcodes, samples, framed, a, n)
    ensures SpentNode(spent, AfterEnqueue(n, swarm, tag, now))
  {
    EnqueueKeeps(n, swarm, tag, now);
    EnqueueOthers(n.t, n.work.job.value.offer, n.work.job.value.phase.plan, swarm, tag, now);
    OneMoreSpent(spent, n, n.work.job.value.phase.plan.sequence, AfterEnqueue(n, swarm, tag, now));
  }

  lemma EnqueueOthers(t: Tables, o: Offer, plan: Plan, swarm: nat, tag: nat, now: Time)
    requires IsBridgeFrame(o.payload)
    ensures var after := EnqueueSample(t, o, plan, swarm, tag, now);
            forall k | k in after.pending && k != plan.sequence :: k in t.pending && after.pending[k] == t.pending[k]
  {}

  lemma OneMoreSpent(spent: set<nat>, n: Node, q: nat, after: Node)
    requires SpentNode(spent, n) && after.work.outbound == n.work.outbound && after.work.job.Some?
    requires n.work.job.Some? && !n.work.job.value.phase.Consuming?
    requires forall k | k in after.t.pending && k != q :: k in n.t.pending && after.t.pending[k] == n.t.pending[k]
    requires q in after.t.pending && after.t.pending[q].sample == after.work.job.value.sample
    requires after.t.pending[q].successor == 0 || after.work.job.value.phase.Consuming?
    requires after.work.job.value.phase.Sending? ==> after.work.job.value.phase.plan.successor == 0
    ensures SpentNode(spent, after)
  {}

  /** A turn-marked frame built for a sample goes to its successor, one of the awaited peers. */
  lemma TurnItem(p: Pending, item: Outbound)
    requires ItemFor(p, item) && TurnMarked(item.data)
    ensures item.destination == p.successor && item.destination in p.awaiting
  {}

  lemma TickSpent(opcodes: map<nat, nat>, samples: map<nat, Sample>, framed: set<(nat, Bytes)>, a: nat, spent: set<nat>, n: Node, now: Time)
    requires SpentNode(spent, n) && Enabled(n, StartTick(now)) && SamplesLogged(opcodes, samples, framed, a, n)
    ensures SpentNode(spent, Next(n, StartTick(now)))
  {
    var after := Next(n, StartTick(now));
    var tick := TickLocked(n.t, now);
    TickEffect(n.t, now);
    forall k | k in after.t.pending && after.t.pending[k].successor != 0 ensures after.t.pending[k].sample in spent {
      assert Fate(n.t, k, tick.t, now);
    }
    forall item | item in after.work.outbound && TurnMarked(item.data) ensures item.sample in spent {
      assert SampleItem(tick.t, item);
      var k :| k in tick.t.pending && Source(tick.t, item, k);
      assert Fate(n.t, k, tick.t, now);
      TurnItem(tick.t.pending[k], item);
      assert PendingOk(opcodes, samples, framed, a, k, n.t.pending[k]);
    }
  }

  lemma PlainSpent(spent: set<nat>, n: Node, e: Event)
    requires SpentNode(spent, n) && NodeOk(n) && Enabled(n, e) && (e.OfferValue? || e.ResumeNext? || e.MakePlan?)
    ensures SpentNode(spent, Next(n, e))
  {
    assert Next(n, e).t.pending == n.t.pending && Next(n, e).work.outbound == n.work.outbound;
  }

  lemma QuietSpent(spent: set<nat>, n: Node, e: Event)
    requires SpentNode(spent, n) && NodeOk(n) && Enabled(n, e) && Quiet(e) && !e.SpendTurn? && !e.FinishSend?
    requires forall x | x in n.t.acks :: IsAck(x.data)
    requires forall item | item in n.work.outbound :: item.acknowledgement ==> IsAck(item.data)
    ensures SpentNode(spent, Next(n, e))
  {
    QuietShrinks(n, e);
    ShrinkSpent(spent, n, Next(n, e));
  }

  lemma LocalSpent(opcodes: map<nat, nat>, samples: map<nat, Sample>, framed: set<(nat, Bytes)>, a: nat, spent: set<nat>, n: Node, e: Event)
    requires SpentNode(spent, n) && NodeOk(n) && Enabled(n, e) && IsLocal(e) && SamplesLogged(opcodes, samples, framed, a, n)
    ensures SpentNode(SpentAfter(spent, n, e), Next(n, e))
  {
    match e
    case SpendTurn(now) => SpendSpent(spent, n, now);
    case FinishSend => FinishSpent(opcodes, samples, framed, a, spent, n);
    case Enqueue(swarm, tag, now) => EnqueueSpent(opcodes, samples, framed, a, spent, n, swarm, tag, now);
    case StartTick(now) => TickSpent(opcodes, samples, framed, a, spent, n, now);
    case OfferValue(_, _, _) => PlainSpent(spent, n, e);
    case ResumeNext(_, _) => PlainSpent(spent, n, e);
    case MakePlan(_) => PlainSpent(spent, n, e);
    case Reset(_) => QuietSpent(spent, n, e);
    case CheckAnswered(_) => QuietSpent(spent, n, e);
    case OutboundAnswered(_, _) => QuietSpent(spent, n, e);
    case OutboundStillNative => QuietSpent(spent, n, e);
    case Remember(_) => QuietSpent(spent, n, e);
    case FirstSendAnswered(_, _) => QuietSpent(spent, n, e);
    case TakeCancellations(_) => QuietSpent(spent, n, e);
    case CancelAnswered(_) => QuietSpent(spent, n, e);
  }

  /** A withdrawn sample of another node does not matter here. */
  lemma OthersSpent(opcodes: map<nat, nat>, samples: map<nat, Sample>, framed: set<(nat, Bytes)>, b: nat, spent: set<nat>, n: Node, tag: nat)
    requires SpentNode(spent, n) && SamplesLogged(opcodes, samples, framed, b, n)
    requires tag in samples && samples[tag].source != b
    ensures SpentNode(spent - {tag}, n)
  {
    forall k | k in n.t.pending ensures n.t.pending[k].sample != tag {
      assert PendingOk(opcodes, samples, framed, b, k, n.t.pending[k]);
    }
    forall item | item in n.work.outbound && TurnMarked(item.data) ensures item.sample != tag {
      assert CopyOk(samples, framed, ItemWire(b, item));
    }
  }
}
