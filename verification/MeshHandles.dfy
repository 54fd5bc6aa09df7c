/** Conservation of native transfer handles: in every run each handle a data send returned is held
    in exactly one place, or was settled (cancelled or known finished), or was lost in the one
    overwrite the code does not guard. Ownership is counted handle by handle. */
module MeshHandles {
  import opened MeshFrame
  import opened Ordered
  import opened MeshTables
  import opened MeshWorker

  function TargetCounts(awaiting: map<nat, Target>, h: Handle): map<nat, nat> {
    map k | k in awaiting :: AsSet(awaiting[k].transfer)[h]
  }

  function SampleCount(p: Pending, h: Handle): nat { AsSet(p.primary)[h] + Total(TargetCounts(p.awaiting, h)) }

  function SampleCounts(pending: map<nat, Pending>, h: Handle): map<nat, nat> {
    map k | k in pending :: SampleCount(pending[k], h)
  }

  /** How often the shared tables own handle `h`. */
  function Stored(t: Tables, h: Handle): nat { t.cancellations[h] + Total(SampleCounts(t.pending, h)) }

  lemma TargetCountsSet(awaiting: map<nat, Target>, k: nat, target: Target, h: Handle)
    ensures TargetCounts(awaiting[k := target], h) == TargetCounts(awaiting, h)[k := AsSet(target.transfer)[h]]
  {}

  lemma TargetCountsWithout(awaiting: map<nat, Target>, k: nat, h: Handle)
    ensures TargetCounts(awaiting - {k}, h) == TargetCounts(awaiting, h) - {k}
  {}

  lemma SampleCountsSet(pending: map<nat, Pending>, k: nat, p: Pending, h: Handle)
    ensures SampleCounts(pending[k := p], h) == SampleCounts(pending, h)[k := SampleCount(p, h)]
  {}

  lemma SampleCountsWithout(pending: map<nat, Pending>, k: nat, h: Handle)
    ensures SampleCounts(pending - {k}, h) == SampleCounts(pending, h) - {k}
  {}

  lemma {:induction false} TargetHandlesCount(awaiting: map<nat, Target>, h: Handle)
    ensures TargetHandles(awaiting)[h] == Total(TargetCounts(awaiting, h))
    decreases |awaiting|
  {
    if awaiting != map[] {
      var k := Min(awaiting.Keys);
      TargetHandlesCount(awaiting - {k}, h);
      TargetCountsWithout(awaiting, k, h);
      TotalWithout(TargetCounts(awaiting, h), k);
    }
  }

  lemma {:induction false} PendingHandlesCount(pending: map<nat, Pending>, h: Handle)
    ensures PendingHandles(pending)[h] == Total(SampleCounts(pending, h))
    decreases |pending|
  {
    if pending != map[] {
      var k := Min(pending.Keys);
      PendingHandlesCount(pending - {k}, h);
      TargetHandlesCount(pending[k].awaiting, h);
      SampleCountsWithout(pending, k, h);
      TotalWithout(SampleCounts(pending, h), k);
    }
  }

  lemma SetSample(pending: map<nat, Pending>, k: nat, p: Pending, h: Handle)
    ensures Total(SampleCounts(pending[k := p], h)) + (if k in pending then SampleCount(pending[k], h) else 0)
            == Total(SampleCounts(pending, h)) + SampleCount(p, h)
  {
    SampleCountsSet(pending, k, p, h);
    TotalSet(SampleCounts(pending, h), SampleCounts(pending[k := p], h), k, SampleCount(p, h));
  }

  lemma RemoveSample(pending: map<nat, Pending>, k: nat, h: Handle)
    requires k in pending
    ensures Total(SampleCounts(pending - {k}, h)) + SampleHandles(pending[k])[h] == Total(SampleCounts(pending, h))
  {
    SampleCountsWithout(pending, k, h);
    TotalWithout(SampleCounts(pending, h), k);
    TargetHandlesCount(pending[k].awaiting, h);
  }

  /** Replacing one target of one sample changes the count by exactly that target's handle. */
  lemma Retarget(pending: map<nat, Pending>, sequence: nat, peer: nat, target: Target, p: Pending, h: Handle)
    requires sequence in pending && peer in pending[sequence].awaiting
    requires p.primary == pending[sequence].primary
    requires p.awaiting == pending[sequence].awaiting[peer := target]
    ensures Total(SampleCounts(pending[sequence := p], h)) + AsSet(pending[sequence].awaiting[peer].transfer)[h]
            == Total(SampleCounts(pending, h)) + AsSet(target.transfer)[h]
  {
    var awaiting := pending[sequence].awaiting;
    SetSample(pending, sequence, p, h);
    TargetCountsSet(awaiting, peer, target, h);
    TotalSet(TargetCounts(awaiting, h), TargetCounts(p.awaiting, h), peer, AsSet(target.transfer)[h]);
  }

  lemma DropSampleStored(t: Tables, sequence: nat, h: Handle)
    requires sequence in t.pending
    ensures Stored(DropSample(t, sequence), h) == Stored(t, h)
  {
    RemoveSample(t.pending, sequence, h);
  }

  lemma {:induction false} ZeroTotal(m: map<nat, nat>)
    requires forall k | k in m :: m[k] == 0
    ensures Total(m) == 0
    decreases |m|
  {
    if m != map[] { ZeroTotal(m - {Min(m.Keys)}); }
  }

  lemma {:induction false} NoTransfersNoHandles(awaiting: map<nat, Target>)
    requires forall k | k in awaiting :: awaiting[k].transfer == None
    ensures TargetHandles(awaiting) == multiset{}
    decreases |awaiting|
  {
    if awaiting != map[] { NoTransfersNoHandles(awaiting - {Min(awaiting.Keys)}); }
  }

  lemma NoTransfersCount(awaiting: map<nat, Target>, h: Handle)
    requires forall k | k in awaiting :: awaiting[k].transfer == None
    ensures Total(TargetCounts(awaiting, h)) == 0
  {
    ZeroTotal(TargetCounts(awaiting, h));
  }

  lemma ClearStored(t: Tables, preserveLatest: bool, h: Handle)
    ensures Stored(ClearState(t, preserveLatest), h) == Stored(t, h)
  {
    PendingHandlesCount(t.pending, h);
  }

  // ---------------------------------------------------------------- remembering a handle

  /** The primary handle that `RememberTransfer` overwrites: nothing else will ever cancel it. */
  function LostBy(t: Tables, c: Check): multiset<Handle> {
    if c.handle.transfer != 0 && c.sequence in t.pending && c.destination !in t.pending[c.sequence].awaiting
    then AsSet(t.pending[c.sequence].primary) else multiset{}
  }

  /** The target handle that `RememberTransfer` replaces. The daemon admits a send only to an idle
      destination, so this transfer has finished. */
  function ReplacedBy(t: Tables, c: Check): multiset<Handle> {
    if c.handle.transfer != 0 && c.sequence in t.pending && c.destination in t.pending[c.sequence].awaiting
    then AsSet(t.pending[c.sequence].awaiting[c.destination].transfer) else multiset{}
  }

  function Recordable(h: Handle): multiset<Handle> { if h.transfer == 0 then multiset{} else multiset{h} }

  lemma RememberStored(t: Tables, c: Check, now: Time, h: Handle)
    ensures Stored(RememberTransfer(t, c.sequence, c.destination, c.handle, now), h)
              + ReplacedBy(t, c)[h] + LostBy(t, c)[h]
            == Stored(t, h) + Recordable(c.handle)[h]
  {
    if c.handle.transfer != 0 && c.sequence in t.pending {
      var p := t.pending[c.sequence];
      if c.destination in p.awaiting {
        var target := p.awaiting[c.destination].(transfer := Some(c.handle), checkAt := now + TRANSFER_CHECK_PERIOD);
        Retarget(t.pending, c.sequence, c.destination, target,
          p.(awaiting := p.awaiting[c.destination := target], blocks := true), h);
      } else {
        SetSample(t.pending, c.sequence, p.(primary := Some(c.handle)), h);
      }
    }
  }

  // ---------------------------------------------------------------- the tick

  lemma WithTargetStored(a: Pass, sequence: nat, peer: nat, target: Target, h: Handle)
    requires sequence in a.t.pending && peer in a.t.pending[sequence].awaiting
    requires target.transfer == a.t.pending[sequence].awaiting[peer].transfer
    ensures Stored(WithTarget(a, sequence, peer, target).t, h) == Stored(a.t, h)
  {
    var p := a.t.pending[sequence];
    Retarget(a.t.pending, sequence, peer, target, p.(awaiting := p.awaiting[peer := target]), h);
  }

  lemma CheckTargetStored(a: Pass, sequence: nat, peer: nat, now: Time, h: Handle)
    requires sequence in a.t.pending && peer in a.t.pending[sequence].awaiting
    ensures Stored(CheckTarget(a, sequence, peer, now).t, h) == Stored(a.t, h)
  {
    var target := a.t.pending[sequence].awaiting[peer];
    WithTargetStored(a, sequence, peer, target.(checkAt := now + TRANSFER_CHECK_PERIOD), h);
  }

  lemma QueryOrRepairStored(a: Pass, sequence: nat, peer: nat, now: Time, h: Handle)
    requires sequence in a.t.pending && peer in a.t.pending[sequence].awaiting
    ensures Stored(QueryOrRepair(a, sequence, peer, now).t, h) == Stored(a.t, h)
  {
    var target := a.t.pending[sequence].awaiting[peer];
    if target.queryAt <= now && target.retryAt > now {
      WithTargetStored(a, sequence, peer, Queried(target, now), h);
    } else {
      WithTargetStored(a, sequence, peer, Repaired(target, now), h);
    }
  }

  lemma {:induction false} TargetsPassStored(a: Pass, sequence: nat, peers: seq<nat>, now: Time, h: Handle)
    ensures Stored(TargetsPass(a, sequence, peers, now).t, h) == Stored(a.t, h)
    decreases |peers|
  {
    if peers != [] {
      if |a.outbound| < MAX_OUTBOUND && sequence in a.t.pending && peers[0] in a.t.pending[sequence].awaiting {
        CheckTargetStored(a, sequence, peers[0], now, h);
        QueryOrRepairStored(CheckTarget(a, sequence, peers[0], now), sequence, peers[0], now, h);
      }
      TargetsPassStored(TargetStep(a, sequence, peers[0], now), sequence, peers[1..], now, h);
    }
  }

  lemma CoalesceStored(t: Tables, sequence: nat, h: Handle)
    requires sequence in t.pending
    ensures Stored(Coalesce(t, sequence), h) == Stored(t, h)
  {
    var p := Coalesce(t, sequence).pending[sequence];
    SetSample(t.pending, sequence, p, h);
  }

  lemma SampleStepStored(a: Pass, sequence: nat, now: Time, h: Handle)
    ensures Stored(SampleStep(a, sequence, now).t, h) == Stored(a.t, h)
  {
    if sequence in a.t.pending {
      DropSampleStored(a.t, sequence, h);
      CoalesceStored(a.t, sequence, h);
      TargetsPassStored(a.(t := Coalesce(a.t, sequence)), sequence, Ascending(a.t.pending[sequence].awaiting.Keys), now, h);
    }
  }

  lemma {:induction false} SamplesPassStored(a: Pass, sequences: seq<nat>, now: Time, h: Handle)
    ensures Stored(SamplesPass(a, sequences, now).t, h) == Stored(a.t, h)
    decreases |sequences|
  {
    if sequences != [] {
      SampleStepStored(a, sequences[0], now, h);
      SamplesPassStored(SampleStep(a, sequences[0], now), sequences[1..], now, h);
    }
  }

  lemma {:induction false} ReadyPassStored(t: Tables, ready: seq<Offer>, channels: seq<nat>, h: Handle)
    ensures Stored(ReadyPass(t, ready, channels).0, h) == Stored(t, h)
    decreases |channels|
  {
    if channels == [] {
    } else if channels[0] !in t.latest || Busy(t.pending, channels[0]) {
      ReadyPassStored(t, ready, channels[1..], h);
    } else {
      ReadyPassStored(t.(latest := t.latest - {channels[0]}), ready + [t.latest[channels[0]]], channels[1..], h);
    }
  }

  lemma TickStored(t: Tables, now: Time, h: Handle)
    ensures Stored(TickLocked(t, now).t, h) == Stored(t, h)
  {
    var start := TickStart(t, now);
    var a := SamplesPass(start, Ascending(t.pending.Keys), now);
    SamplesPassStored(start, Ascending(t.pending.Keys), now, h);
    ReadyPassStored(a.t, [], Ascending(a.t.latest.Keys), h);
  }

  // ---------------------------------------------------------------- the ledger of one event

  /** How often handle `h` is owned anywhere: tables, the worker's hand, the flush batch. */
  function Owned(n: Node, h: Handle): nat {
    Stored(n.t, h) + multiset(n.work.flushing)[h]
    + (if n.work.held.Some? then Recordable(n.work.held.value.handle)[h] else 0)
  }

  function Issued(n: Node, e: Event): multiset<Handle>
    requires Enabled(n, e)
  {
    match e
    case FirstSendAnswered(Admitted(h), _) => Recordable(h)
    case OutboundAnswered(Admitted(h), _) => if IsDataMarker(n.work.outbound[0].data) then Recordable(h) else multiset{}
    case _ => multiset{}
  }

  predicate CheckHits(t: Tables, c: Check) {
    c.sequence in t.pending && c.destination in t.pending[c.sequence].awaiting
    && t.pending[c.sequence].awaiting[c.destination].transfer == Some(c.handle)
  }

  /** Handles cancelled or known finished by this event. */
  function Settled(n: Node, e: Event): multiset<Handle>
    requires Enabled(n, e)
  {
    match e
    case CheckAnswered(pending) =>
      if !pending && CheckHits(n.t, n.work.checks[0]) then multiset{n.work.checks[0].handle} else multiset{}
    case Remember(_) => ReplacedBy(n.t, n.work.held.value)
    case CancelAnswered(ok) => if ok then multiset{n.work.flushing[0]} else multiset{}
    case _ => multiset{}
  }

  function Lost(n: Node, e: Event): multiset<Handle>
    requires Enabled(n, e)
  {
    if e.Remember? then LostBy(n.t, n.work.held.value) else multiset{}
  }

  lemma CheckStored(t: Tables, c: Check, h: Handle)
    ensures Stored(TransferFinished(t, c), h) + (if CheckHits(t, c) then multiset{c.handle}[h] else 0) == Stored(t, h)
  {
    if CheckHits(t, c) {
      var p := t.pending[c.sequence];
      var target := p.awaiting[c.destination].(transfer := None);
      Retarget(t.pending, c.sequence, c.destination, target,
        p.(awaiting := p.awaiting[c.destination := target], blocks := false), h);
    }
  }

  lemma FailedSendStored(t: Tables, sequence: nat, destination: nat, refused: bool, now: Time, h: Handle)
    ensures Stored(FirstSendFailed(t, sequence, destination, refused, now), h) == Stored(t, h)
  {
    if sequence in t.pending && destination in t.pending[sequence].awaiting {
      var p := t.pending[sequence];
      var target := p.awaiting[destination].(retryAt := now + QUEUE_RETRY_DELAY);
      Retarget(t.pending, sequence, destination, target, p.(awaiting := p.awaiting[destination := target]), h);
    }
  }

  lemma RefusedStored(t: Tables, item: Outbound, now: Time, h: Handle)
    ensures Stored(OutboundRefused(t, item, now), h) == Stored(t, h)
  {
    var q := Sequence(item.data);
    if q in t.pending && item.destination in t.pending[q].awaiting {
      var p := t.pending[q];
      var target := Deferred(p.awaiting[item.destination], now);
      Retarget(t.pending, q, item.destination, target, p.(awaiting := p.awaiting[item.destination := target]), h);
    }
  }

  lemma EnqueueStored(t: Tables, offer: Offer, plan: Plan, swarm: nat, tag: nat, now: Time, h: Handle)
    requires IsBridgeFrame(offer.payload)
    ensures Stored(EnqueueSample(t, offer, plan, swarm, tag, now), h) == Stored(t, h)
  {
    var t1 := MakeRoom(t);
    if |t.pending| >= MAX_PENDING_SAMPLES {
      DropSampleStored(t, OldestIn(t.pending, Ascending(t.pending.Keys)), h);
    }
    if plan.sequence !in t1.pending {
      var p := NewSample(offer, plan, swarm, tag, now);
      NoTransfersCount(p.awaiting, h);
      SetSample(t1.pending, plan.sequence, p, h);
    }
  }

  lemma AckStored(t: Tables, source: nat, appKey: nat, data: ReliableFrame, h: Handle)
    ensures Stored(AckReceived(t, source, appKey, data), h) == Stored(t, h)
  {
    var q := Sequence(data);
    if AckMatches(t, appKey, data) && source in t.pending[q].awaiting {
      var p := t.pending[q];
      TotalWithout(TargetCounts(p.awaiting, h), source);
      TargetCountsWithout(p.awaiting, source, h);
      SetSample(t.pending, q, p.(awaiting := p.awaiting - {source}), h);
    }
  }

  /** While the send routine has admitted nothing, its own sample holds no handle, so withdrawing
      the sample drops none. */
  ghost predicate NothingRecorded(n: Node) {
    n.work.job.Some? && n.work.job.value.phase.Sending? && !n.work.job.value.phase.admitted
    && n.work.job.value.phase.plan.sequence in n.t.pending
    ==> SampleHandles(n.t.pending[n.work.job.value.phase.plan.sequence]) == multiset{}
  }

  lemma WithdrawStored(t: Tables, offer: Offer, resumed: bool, plan: Plan, h: Handle)
    requires plan.sequence in t.pending ==> SampleHandles(t.pending[plan.sequence]) == multiset{}
    ensures Stored(WithdrawSample(t, offer, resumed, plan), h) == Stored(t, h)
  {
    if plan.sequence in t.pending {
      RemoveSample(t.pending, plan.sequence, h);
    } else {
      assert t.pending - {plan.sequence} == t.pending;
    }
  }

  lemma OutboundLedger(n: Node, answer: SendAnswer, now: Time, h: Handle)
    requires Enabled(n, OutboundAnswered(answer, now))
    ensures Owned(AfterOutbound(n, answer, now), h) == Owned(n, h) + Issued(n, OutboundAnswered(answer, now))[h]
  {
    RefusedStored(n.t, n.work.outbound[0], now, h);
  }

  lemma FirstSendLedger(n: Node, answer: SendAnswer, now: Time, h: Handle)
    requires Enabled(n, FirstSendAnswered(answer, now))
    ensures Owned(AfterFirstSend(n, answer, now), h) == Owned(n, h) + Issued(n, FirstSendAnswered(answer, now))[h]
  {
    var phase := n.work.job.value.phase;
    FailedSendStored(n.t, phase.plan.sequence, phase.plan.targets[phase.next], answer.Refused?, now, h);
  }

  lemma CancelLedger(n: Node, ok: bool, h: Handle)
    requires Enabled(n, CancelAnswered(ok))
    ensures Owned(AfterCancel(n, ok), h) + Settled(n, CancelAnswered(ok))[h] == Owned(n, h)
  {
    assert n.work.flushing == [n.work.flushing[0]] + n.work.flushing[1..];
  }

  lemma FrameStored(t: Tables, m: Received, now: Time, h: Handle)
    ensures Stored(FrameReceived(t, m.source, m.appKey, m.data, now).0, h) == Stored(t, h)
  {}

  lemma DecodeStored(t: Tables, m: Received, delivered: bool, local: nat, members: seq<nat>, now: Time, h: Handle)
    requires IsDataFrame(m.data)
    ensures Stored(DecodeFinished(t, m.source, m.appKey, m.element, m.data, delivered, local, members, now), h) == Stored(t, h)
  {}

  lemma PlanStored(t: Tables, offer: Offer, resumed: bool, env: PlanEnv, h: Handle)
    ensures Stored(PlanSend(t, offer, resumed, env).0, h) == Stored(t, h)
  {}

  lemma FinishLedger(n: Node, h: Handle)
    requires Enabled(n, FinishSend) && NothingRecorded(n)
    ensures Owned(AfterFinish(n), h) == Owned(n, h)
  {
    var job := n.work.job.value;
    if !job.phase.admitted { WithdrawStored(n.t, job.offer, job.resumed, job.phase.plan, h); }
  }

  lemma GateLedger(n: Node, o: Offer, resumed: bool, ready: bool, coordinated: bool, h: Handle)
    ensures Owned(AfterGate(n, o, resumed, ready, coordinated), h) == Owned(n, h)
  {}

  lemma ReceiveLedger(n: Node, e: Event, h: Handle)
    requires Enabled(n, e) && (e.ReceiveAck? || e.ReceiveFrame? || e.DecodeDone?)
    ensures Owned(Next(n, e), h) == Owned(n, h)
  {
    match e
    case ReceiveAck(m) => AckStored(n.t, m.source, m.appKey, m.data, h);
    case ReceiveFrame(m, now) => FrameStored(n.t, m, now, h);
    case DecodeDone(m, delivered, local, members, now) => DecodeStored(n.t, m, delivered, local, members, now, h);
  }

  /** Events of the send routine and the gate. */
  lemma SendConserves(n: Node, e: Event, h: Handle)
    requires Enabled(n, e) && NothingRecorded(n)
    requires e.MakePlan? || e.Enqueue? || e.SpendTurn? || e.FirstSendAnswered? || e.FinishSend?
    ensures Owned(Next(n, e), h) + Settled(n, e)[h] + Lost(n, e)[h] == Owned(n, h) + Issued(n, e)[h]
  {
    match e
    case MakePlan(env) => PlanStored(n.t, n.work.job.value.offer, n.work.job.value.resumed, env, h);
    case Enqueue(swarm, tag, now) =>
      EnqueueStored(n.t, n.work.job.value.offer, n.work.job.value.phase.plan, swarm, tag, now, h);
    case SpendTurn(_) =>
    case FirstSendAnswered(answer, now) => FirstSendLedger(n, answer, now, h);
    case FinishSend => FinishLedger(n, h);
  }

  /** Answers of the daemon about a transfer, a frame or a cancellation. */
  lemma AnswerConserves(n: Node, e: Event, h: Handle)
    requires Enabled(n, e)
    requires e.CheckAnswered? || e.OutboundAnswered? || e.OutboundStillNative? || e.Remember? || e.CancelAnswered?
    ensures Owned(Next(n, e), h) + Settled(n, e)[h] + Lost(n, e)[h] == Owned(n, h) + Issued(n, e)[h]
  {
    match e
    case CheckAnswered(_) => CheckStored(n.t, n.work.checks[0], h);
    case OutboundAnswered(answer, now) => OutboundLedger(n, answer, now, h);
    case OutboundStillNative =>
    case Remember(now) => RememberStored(n.t, n.work.held.value, now, h);
    case CancelAnswered(ok) => CancelLedger(n, ok, h);
  }

  /** One event: what was owned plus what was issued is what is owned, settled or lost. */
  lemma EventConserves(n: Node, e: Event, h: Handle)
    requires Enabled(n, e) && NothingRecorded(n)
    ensures Owned(Next(n, e), h) + Settled(n, e)[h] + Lost(n, e)[h] == Owned(n, h) + Issued(n, e)[h]
  {
    match e
    case OfferValue(o, ready, coordinated) => GateLedger(n, o, false, ready, coordinated, h);
    case Reset(preserveLatest) => ClearStored(n.t, preserveLatest, h);
    case StartTick(now) => TickStored(n.t, now, h);
    case ResumeNext(ready, coordinated) =>
      GateLedger(n.(work := n.work.(ready := n.work.ready[1..])), n.work.ready[0], true, ready, coordinated, h);
    case TakeCancellations(_) =>
    case MakePlan(_) => SendConserves(n, e, h);
    case Enqueue(_, _, _) => SendConserves(n, e, h);
    case SpendTurn(_) => SendConserves(n, e, h);
    case FirstSendAnswered(_, _) => SendConserves(n, e, h);
    case FinishSend => SendConserves(n, e, h);
    case ReceiveAck(_) => ReceiveLedger(n, e, h);
    case ReceiveFrame(_, _) => ReceiveLedger(n, e, h);
    case DecodeDone(_, _, _, _, _) => ReceiveLedger(n, e, h);
    case _ => AnswerConserves(n, e, h);
  }
}
