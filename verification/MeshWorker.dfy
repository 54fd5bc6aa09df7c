/** One node as a machine. The worker tick and a source send exclude each other (one configuration
    mutex), but receive callbacks may run between any two critical sections of either, so every
    critical section is one event. Daemon answers, member lists and times arrive with the event. */
module MeshWorker {
  import opened MeshFrame
  import opened MeshTables

  datatype Phase =
    | Planning
    | Enqueuing(plan: Plan)
    | Consuming(plan: Plan, wrapped: DataFrame)
    | Sending(plan: Plan, wrapped: DataFrame, next: nat, admitted: bool)

  /** One pass of the send routine; `sample` is its history tag once a sample exists. */
  datatype Job = Job(offer: Offer, resumed: bool, phase: Phase, sample: nat)

  /** Local variables of the running tick or send: transfers to check, frames and values still to
      send, the handle an admitted send returned before it is remembered, and the flush batch taken
      from the cancellation queue. */
  datatype Work = Work(checks: seq<Check>, outbound: seq<Outbound>, ready: seq<Offer>, job: Option<Job>,
                       held: Option<Check>, flushing: seq<Handle>)
  datatype Node = Node(t: Tables, work: Work)

  const NO_WORK := Work([], [], [], None, None, [])
  const FRESH_NODE := Node(EMPTY_TABLES, NO_WORK)

  datatype SendAnswer = Admitted(handle: Handle) | Refused | Threw
  datatype Received = Received(source: nat, appKey: nat, element: u8, data: ReliableFrame)

  datatype Event =
    | OfferValue(offer: Offer, ready: bool, coordinated: bool)
    | Reset(preserveLatest: bool)
    | StartTick(now: Time)
    | CheckAnswered(pending: bool)
    | OutboundAnswered(answer: SendAnswer, now: Time)
    | OutboundStillNative
    | Remember(now: Time)
    | ResumeNext(isReady: bool, isCoordinated: bool)
    | MakePlan(env: PlanEnv)
    | Enqueue(swarm: nat, tag: nat, now: Time)
    | SpendTurn(now: Time)
    | FirstSendAnswered(answer: SendAnswer, now: Time)
    | FinishSend
    | TakeCancellations(batch: seq<Handle>)
    | CancelAnswered(ok: bool)
    | ReceiveAck(message: Received)
    | ReceiveFrame(message: Received, now: Time)
    | DecodeDone(message: Received, delivered: bool, local: nat, members: seq<nat>, now: Time)

  /** No tick and no send is running. */
  predicate Idle(n: Node) {
    n.work.checks == [] && n.work.outbound == [] && n.work.ready == [] && n.work.job == None && n.work.held == None
  }

  /** A send routine is running and holds no unrecorded handle. */
  predicate InPhase(n: Node) { n.work.job.Some? && n.work.held == None }

  /** The tick has only waiting values left to resume. */
  predicate Resuming(n: Node) {
    n.work.ready != [] && n.work.outbound == [] && n.work.checks == [] && n.work.job == None && n.work.held == None
  }

  /** The worker-side events follow the program order of the tick and the send routine. A requested reset
      is also taken by the send routine as it resumes a waiting value, in the middle of a tick. The
      coordinator never lists the local address among the peers. */
  predicate Enabled(n: Node, e: Event) {
    match e
    case OfferValue(_, _, _) => Idle(n)
    case Reset(preserveLatest) => Idle(n) || (preserveLatest && Resuming(n))
    case StartTick(_) => Idle(n)
    case CheckAnswered(_) => n.work.checks != [] && n.work.held == None
    case OutboundAnswered(_, _) => n.work.outbound != [] && n.work.checks == [] && n.work.held == None
    case OutboundStillNative =>
      n.work.outbound != [] && n.work.checks == [] && n.work.held == None && IsQuery(n.work.outbound[0].data)
      && n.work.outbound[0].transfer.Some?
    case Remember(_) => n.work.held.Some?
    case ResumeNext(_, _) => Resuming(n)
    case MakePlan(env) => InPhase(n) && n.work.job.value.phase.Planning? && env.local !in env.peers
    case Enqueue(_, _, _) =>
      InPhase(n) && n.work.job.value.phase.Enqueuing? && IsBridgeFrame(n.work.job.value.offer.payload)
    case SpendTurn(_) => InPhase(n) && n.work.job.value.phase.Consuming?
    case FirstSendAnswered(_, _) =>
      InPhase(n) && n.work.job.value.phase.Sending? && n.work.job.value.phase.next < |n.work.job.value.phase.plan.targets|
    case FinishSend =>
      InPhase(n) && n.work.job.value.phase.Sending? && n.work.job.value.phase.next == |n.work.job.value.phase.plan.targets|
    case TakeCancellations(batch) => n.work.flushing == [] && multiset(batch) == n.t.cancellations
    case CancelAnswered(_) => n.work.flushing != []
    case ReceiveAck(m) => IsAck(m.data)
    case ReceiveFrame(m, _) => IsDataFrame(m.data) || IsQuery(m.data)
    case DecodeDone(m, _, _, _, _) => IsDataFrame(m.data)
  }

  function AfterGate(n: Node, offer: Offer, resumed: bool, ready: bool, coordinated: bool): Node {
    var (t, result) := Gate(n.t, offer, resumed, ready, coordinated);
    Node(t, n.work.(job := if result == Proceed then Some(Job(offer, resumed, Planning, 0)) else None))
  }

  function AfterPlan(n: Node, env: PlanEnv): Node
    requires Enabled(n, MakePlan(env))
  {
    var job := n.work.job.value;
    var (t, plan) := PlanSend(n.t, job.offer, job.resumed, env);
    Node(t, n.work.(job := if plan.Some? then Some(job.(phase := Enqueuing(plan.value))) else None))
  }

  function AfterEnqueue(n: Node, swarm: nat, tag: nat, now: Time): Node
    requires Enabled(n, Enqueue(swarm, tag, now))
  {
    var job := n.work.job.value;
    var plan := job.phase.plan;
    var wrapped := WrapData(job.offer.payload, plan.sequence, swarm);
    var phase := if plan.consumes then Consuming(plan, wrapped) else Sending(plan, wrapped, 0, false);
    Node(EnqueueSample(n.t, job.offer, plan, swarm, tag, now), n.work.(job := Some(job.(phase := phase, sample := tag))))
  }

  function AfterSpend(n: Node, now: Time): Node
    requires Enabled(n, SpendTurn(now))
  {
    var job := n.work.job.value;
    Node(ConsumeTurn(n.t, ChannelOf(job.offer.bridge), now),
         n.work.(job := Some(job.(phase := Sending(job.phase.plan, job.phase.wrapped, 0, false)))))
  }

  function AfterFirstSend(n: Node, answer: SendAnswer, now: Time): Node
    requires Enabled(n, FirstSendAnswered(answer, now))
  {
    var job := n.work.job.value;
    var plan := job.phase.plan;
    var destination := plan.targets[job.phase.next];
    var t := match answer
      case Admitted(_) => n.t
      case Refused => FirstSendFailed(n.t, plan.sequence, destination, true, now)
      case Threw => FirstSendFailed(n.t, plan.sequence, destination, false, now);
    Node(t, n.work.(
      job := Some(job.(phase := job.phase.(next := job.phase.next + 1, admitted := job.phase.admitted || answer.Admitted?))),
      held := if answer.Admitted? then Some(Check(plan.sequence, destination, answer.handle)) else None))
  }

  function AfterFinish(n: Node): Node
    requires Enabled(n, FinishSend)
  {
    var job := n.work.job.value;
    Node(if job.phase.admitted then n.t else WithdrawSample(n.t, job.offer, job.resumed, job.phase.plan),
         n.work.(job := None))
  }

  function AfterOutbound(n: Node, answer: SendAnswer, now: Time): Node
    requires n.work.outbound != []
  {
    var item := n.work.outbound[0];
    var t := match answer
      case Admitted(_) => n.t
      case Refused => OutboundRefused(n.t, item, now)
      case Threw => RequeueAck(n.t, item);
    Node(t, n.work.(
      outbound := n.work.outbound[1..],
      held := if answer.Admitted? && IsDataMarker(item.data) then Some(Check(Sequence(item.data), item.destination, answer.handle))
              else None))
  }

  predicate IsDataMarker(data: ReliableFrame) { data[3] == RELIABLE_DATA || data[3] == RELIABLE_DATA_NO_TURN }

  function AfterRemember(n: Node, now: Time): Node
    requires n.work.held.Some?
  {
    var c := n.work.held.value;
    Node(RememberTransfer(n.t, c.sequence, c.destination, c.handle, now), n.work.(held := None))
  }

  function AfterCheck(n: Node, pending: bool): Node
    requires n.work.checks != []
  {
    Node(if pending then n.t else TransferFinished(n.t, n.work.checks[0]), n.work.(checks := n.work.checks[1..]))
  }

  function AfterCancel(n: Node, ok: bool): Node
    requires n.work.flushing != []
  {
    if ok then n.(work := n.work.(flushing := n.work.flushing[1..]))
    else Node(n.t.(cancellations := n.t.cancellations + multiset(n.work.flushing)), n.work.(flushing := []))
  }

  function Next(n: Node, e: Event): Node
    requires Enabled(n, e)
  {
    match e
    case OfferValue(offer, ready, coordinated) => AfterGate(n, offer, false, ready, coordinated)
    case Reset(preserveLatest) => n.(t := ClearState(n.t, preserveLatest))
    case StartTick(now) =>
      var tick := TickLocked(n.t, now);
      Node(tick.t, n.work.(checks := tick.checks, outbound := tick.outbound, ready := tick.ready))
    case CheckAnswered(pending) => AfterCheck(n, pending)
    case OutboundAnswered(answer, now) => AfterOutbound(n, answer, now)
    case OutboundStillNative => n.(work := n.work.(outbound := n.work.outbound[1..]))
    case Remember(now) => AfterRemember(n, now)
    case ResumeNext(ready, coordinated) =>
      AfterGate(n.(work := n.work.(ready := n.work.ready[1..])), n.work.ready[0], true, ready, coordinated)
    case MakePlan(env) => AfterPlan(n, env)
    case Enqueue(swarm, tag, now) => AfterEnqueue(n, swarm, tag, now)
    case SpendTurn(now) => AfterSpend(n, now)
    case FirstSendAnswered(answer, now) => AfterFirstSend(n, answer, now)
    case FinishSend => AfterFinish(n)
    case TakeCancellations(batch) =>
      Node(n.t.(cancellations := multiset{}), n.work.(flushing := batch))
    case CancelAnswered(ok) => AfterCancel(n, ok)
    case ReceiveAck(m) => n.(t := AckReceived(n.t, m.source, m.appKey, m.data))
    case ReceiveFrame(m, now) => n.(t := FrameReceived(n.t, m.source, m.appKey, m.data, now).0)
    case DecodeDone(m, delivered, local, members, now) =>
      n.(t := DecodeFinished(n.t, m.source, m.appKey, m.element, m.data, delivered, local, members, now))
  }

  /** `trace` is a run of one node: every event enabled, every state the successor of the previous. */
  ghost predicate IsRun(trace: seq<Node>, events: seq<Event>) {
    && |trace| == |events| + 1
    && trace[0] == FRESH_NODE
    && forall i | 0 <= i < |events| :: Enabled(trace[i], events[i]) && trace[i + 1] == Next(trace[i], events[i])
  }
}
