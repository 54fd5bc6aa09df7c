/** Several nodes on a network that loses, duplicates and reorders frames. A frame on the air may be
    delivered any number of times, in any order, or dropped. The logs record what really happened:
    which offer each sample framed, and what each node published. */
module MeshNetwork {
  import opened MeshFrame
  import opened MeshTables
  import opened MeshWorker

  datatype Wire = Wire(src: nat, dst: nat, appKey: nat, element: u8, data: ReliableFrame, sample: nat)

  /** What identifies one sample for every node: its sender, receipt key, channel and turn successor. */
  datatype Sample = Sample(source: nat, key: SeenKey, channel: nat, successor: nat)

  datatype Net = Net(
    nodes: map<nat, Node>, air: set<Wire>, decoding: map<(nat, SeenKey), Wire>,
    samples: map<nat, Sample>, framed: set<(nat, Bytes)>, offered: set<(nat, Bytes)>,
    published: map<(nat, nat), Bytes>, spent: set<nat>)

  datatype Label =
    | Local(a: nat, e: Event)
    | Deliver(a: nat, w: Wire, at: Time)
    | Decode(a: nat, w: Wire, delivered: bool, local: nat, members: seq<nat>, when: Time)
    | Drop(w: Wire)

  function WireKey(w: Wire): SeenKey { KeyOf(w.src, w.appKey, w.data) }

  function Message(w: Wire): Received { Received(w.src, w.appKey, w.element, w.data) }

  function ItemWire(a: nat, item: Outbound): Wire {
    Wire(a, item.destination, item.appKey, item.element, item.data, item.sample)
  }

  /** The copy of the running fan-out for its next destination. */
  function FirstWire(a: nat, job: Job): Wire
    requires job.phase.Sending? && job.phase.next < |job.phase.plan.targets|
  {
    var destination := job.phase.plan.targets[job.phase.next];
    Wire(a, destination, job.offer.bridge.appKey, job.offer.bridge.element,
         Marked(job.phase.wrapped, destination == job.phase.plan.successor), job.sample)
  }

  function NewWires(a: nat, n: Node, e: Event): set<Wire>
    requires Enabled(n, e)
  {
    match e
    case FirstSendAnswered(Admitted(_), _) => {FirstWire(a, n.work.job.value)}
    case OutboundAnswered(Admitted(_), _) => {ItemWire(a, n.work.outbound[0])}
    case _ => {}
  }

  function NewSamples(a: nat, n: Node, e: Event): map<nat, Sample>
    requires Enabled(n, e)
  {
    match e
    case Enqueue(swarm, tag, _) =>
      var job := n.work.job.value;
      var plan := job.phase.plan;
      map[tag := Sample(a, KeyOf(a, job.offer.bridge.appKey, WrapData(job.offer.payload, plan.sequence, swarm)),
                        ChannelOf(job.offer.bridge), plan.successor)]
    case _ => map[]
  }

  function SpentAfter(spent: set<nat>, n: Node, e: Event): set<nat>
    requires Enabled(n, e)
  {
    match e
    case SpendTurn(_) => spent + {n.work.job.value.sample}
    case FinishSend => if n.work.job.value.phase.admitted then spent else spent - {n.work.job.value.sample}
    case _ => spent
  }

  function Framings(t: Tables): set<(nat, Bytes)> {
    set k | k in t.pending :: (t.pending[k].sample, Reconstruct(t.pending[k].data))
  }

  function NewOffers(a: nat, e: Event): set<(nat, Bytes)> {
    if e.OfferValue? then {(a, e.offer.payload)} else {}
  }

  predicate IsLocal(e: Event) { !e.ReceiveAck? && !e.ReceiveFrame? && !e.DecodeDone? }

  function ReceiveEvent(w: Wire, now: Time): Event
    requires IsAck(w.data) || IsDataFrame(w.data) || IsQuery(w.data)
  {
    if IsAck(w.data) then ReceiveAck(Message(w)) else ReceiveFrame(Message(w), now)
  }

  ghost predicate CanStep(s: Net, l: Label) {
    match l
    case Local(a, e) => a in s.nodes && IsLocal(e) && Enabled(s.nodes[a], e) && (e.Enqueue? ==> e.tag !in s.samples)
    case Deliver(a, w, _) => a in s.nodes && w in s.air && w.dst == a && (IsAck(w.data) || IsDataFrame(w.data) || IsQuery(w.data))
    case Decode(a, w, _, local, _, _) => a in s.nodes && (a, WireKey(w)) in s.decoding && s.decoding[(a, WireKey(w))] == w
        && IsDataFrame(w.data) && (local == 0 || local == a)
    case Drop(w) => w in s.air
  }

  /** The delivered frame is the first copy this receiver remembers: the bridge decodes it. */
  ghost predicate Decodes(s: Net, a: nat, w: Wire, now: Time)
    requires a in s.nodes
  {
    !IsAck(w.data) && FrameReceived(s.nodes[a].t, w.src, w.appKey, w.data, now).1
  }

  ghost function Step(s: Net, l: Label): Net
    requires CanStep(s, l)
  {
    match l
    case Local(a, e) =>
      var n := Next(s.nodes[a], e);
      s.(nodes := s.nodes[a := n], air := s.air + NewWires(a, s.nodes[a], e),
         samples := s.samples + NewSamples(a, s.nodes[a], e),
         framed := s.framed + Framings(n.t), offered := s.offered + NewOffers(a, e),
         spent := SpentAfter(s.spent, s.nodes[a], e))
    case Deliver(a, w, now) =>
      s.(nodes := s.nodes[a := Next(s.nodes[a], ReceiveEvent(w, now))],
         decoding := if Decodes(s, a, w, now) then s.decoding[(a, WireKey(w)) := w] else s.decoding)
    case Decode(a, w, delivered, local, members, now) =>
      s.(nodes := s.nodes[a := Next(s.nodes[a], DecodeDone(Message(w), delivered, local, members, now))],
         decoding := s.decoding - {(a, WireKey(w))},
         published := if delivered then s.published[(a, w.sample) := Reconstruct(w.data)] else s.published)
    case Drop(w) => s.(air := s.air - {w})
  }

  ghost predicate Initial(s: Net) {
    && (forall a | a in s.nodes :: s.nodes[a] == FRESH_NODE)
    && s.air == {} && s.decoding == map[] && s.samples == map[] && s.framed == {} && s.offered == {}
    && s.published == map[] && s.spent == {}
  }

  // ---------------------------------------------------------------- what one node holds agrees with the logs

  /** The bridge configuration every node shares: the vendor opcode of each channel. */
  ghost predicate Configured(opcodes: map<nat, nat>, o: Offer) {
    && ChannelOf(o.bridge) in opcodes && o.bridge.reliable && IsBridgeFrame(o.payload)
    && BridgeChannel(o.payload) == o.bridge.channel && VendorOpcode(o.payload) == opcodes[ChannelOf(o.bridge)]
  }

  /** Assumptions on local events: configured offers with the coordinator running, member and probe
      lists without the unassigned address, the node's own address, and a 16-bit swarm identifier. */
  ghost predicate Proper(opcodes: map<nat, nat>, a: nat, e: Event) {
    match e
    case OfferValue(o, _, coordinated) => coordinated && Configured(opcodes, o)
    case ResumeNext(_, coordinated) => coordinated
    case MakePlan(env) => (env.local == 0 || env.local == a) && a != 0 && 0 !in env.peers && 0 !in env.probes
    case Enqueue(swarm, _, _) => swarm < 0x1_0000
    case _ => true
  }

  ghost predicate OfferOk(opcodes: map<nat, nat>, offered: set<(nat, Bytes)>, a: nat, o: Offer) {
    Configured(opcodes, o) && (a, o.payload) in offered
  }

  /** A data frame in transit or waiting to be sent carries its sample's identity and one framed offer,
      and is turn-marked exactly for the successor. */
  ghost predicate CopyOk(samples: map<nat, Sample>, framed: set<(nat, Bytes)>, w: Wire) {
    IsDataFrame(w.data) ==>
      && w.sample in samples && samples[w.sample].source == w.src && samples[w.sample].key == WireKey(w)
      && samples[w.sample].channel == Channel(w.element, w.appKey, ChannelId(w.data))
      && (w.data[3] == RELIABLE_DATA <==> w.dst == samples[w.sample].successor)
      && w.dst != 0
      && (w.sample, Reconstruct(w.data)) in framed
  }

  ghost predicate PendingOk(opcodes: map<nat, nat>, samples: map<nat, Sample>, framed: set<(nat, Bytes)>, a: nat, k: nat, p: Pending) {
    && p.sample in samples && samples[p.sample] == Sample(a, KeyOf(a, p.appKey, p.data), p.channel, p.successor)
    && k < 0x1_0000 && Sequence(p.data) == k && IsDataMarker(p.data) && p.appKey < 0x1_0000
    && p.channel == Channel(p.element, p.appKey, ChannelId(p.data))
    && p.channel in opcodes && VendorOpcode(p.data) == opcodes[p.channel]
    && 0 !in p.awaiting
    && (p.sample, Reconstruct(p.data)) in framed
  }

  ghost predicate JobLogged(samples: map<nat, Sample>, framed: set<(nat, Bytes)>, a: nat, job: Job) {
    && (!job.phase.Planning? ==> 0 !in job.phase.plan.targets && (!job.phase.plan.consumes ==> job.phase.plan.successor == 0))
    && (job.phase.Consuming? ==> job.phase.plan.consumes)
    && (job.phase.Consuming? || job.phase.Sending? ==>
          && |job.phase.wrapped| >= RELIABLE_DATA_HEADER_BYTES && IsDataMarker(job.phase.wrapped)
          && Sequence(job.phase.wrapped) == job.phase.plan.sequence && job.sample in samples
          && samples[job.sample] == Sample(a, KeyOf(a, job.offer.bridge.appKey, job.phase.wrapped),
               ChannelOf(job.offer.bridge), job.phase.plan.successor)
          && ChannelId(job.phase.wrapped) == job.offer.bridge.channel
          && (job.sample, Reconstruct(job.phase.wrapped)) in framed)
  }

  ghost predicate SlotsLogged(opcodes: map<nat, nat>, offered: set<(nat, Bytes)>, a: nat, n: Node) {
    && (forall c | c in n.t.latest :: OfferOk(opcodes, offered, a, n.t.latest[c]) && ChannelOf(n.t.latest[c].bridge) == c)
    && (forall o | o in n.work.ready :: OfferOk(opcodes, offered, a, o))
    && (n.work.job.Some? ==> OfferOk(opcodes, offered, a, n.work.job.value.offer))
  }

  ghost predicate SamplesLogged(opcodes: map<nat, nat>, samples: map<nat, Sample>, framed: set<(nat, Bytes)>, a: nat, n: Node) {
    && (forall k | k in n.t.pending :: PendingOk(opcodes, samples, framed, a, k, n.t.pending[k]))
    && (forall item | item in n.work.outbound ::
          CopyOk(samples, framed, ItemWire(a, item)) && (item.acknowledgement ==> IsAck(item.data)))
    && (n.work.job.Some? ==> JobLogged(samples, framed, a, n.work.job.value))
    && (forall x | x in n.t.acks :: IsAck(x.data))
  }
}
