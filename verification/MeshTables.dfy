/** The reliability tables of one node and what each critical section does to them.
    Times are milliseconds of the node's steady clock. `sample` and `age` are history tags: the
    code never reads them, the theorems use them to name a sample and the offer it carries. */
module MeshTables {
  import opened MeshFrame
  import opened Ordered
  import opened TurnRing

  type Time = int

  const RECEIPT_QUERY_PERIOD := 2_000
  const QUEUE_RETRY_DELAY := 250
  const TRANSFER_CHECK_PERIOD := 100
  const TURN_RECOVERY := 12_000
  const FIRST_REPAIR_DELAY := 5_000
  const SEEN_RETENTION := 90_000
  const SAMPLE_LIFETIME := 30_000
  const PROBE_PERIOD := 10_000
  const MAX_PENDING_SAMPLES := 32
  const MAX_QUEUED_ACKS := 128
  const MAX_ACKS_PER_TICK := 4
  const MAX_OUTBOUND := 6
  const MAX_ATTEMPTS := 3
  const MAX_EXPIRIES := 6

  datatype Option<+T> = None | Some(value: T)

  /** Any frame carrying the compact header, and a stored data frame. */
  type ReliableFrame = d: Bytes | |d| >= RELIABLE_ACK_HEADER_BYTES
    witness [0, 0, 0, 0, 0, 0, 0, 0]
  type DataFrame = d: Bytes | |d| >= RELIABLE_DATA_HEADER_BYTES
    witness [0, 0, 0, 0, 0, 0, 0, 0, 0, 0]

  datatype Handle = Handle(transfer: nat, attachment: nat)
  datatype Bridge = Bridge(element: u8, appKey: u16, channel: u16, segmented: bool, reliable: bool)
  datatype Offer = Offer(bridge: Bridge, payload: Bytes, age: nat)

  datatype Target = Target(attempts: nat, transfer: Option<Handle>, retryAt: Time, queryAt: Time, checkAt: Time)
  datatype Pending = Pending(
    channel: nat, data: DataFrame, awaiting: map<nat, Target>, primary: Option<Handle>,
    appKey: nat, element: u8, successor: nat, segmented: bool, nativeReleases: bool, blocks: bool,
    created: Time, sample: nat, age: nat)
  datatype SeenKey = SeenKey(source: nat, appKey: nat, swarm: nat, opcode: nat, sequence: nat)
  datatype Seen = Seen(last: Time, delivered: bool)
  datatype Ack = Ack(destination: nat, appKey: nat, data: ReliableFrame)
  datatype PeerState = PeerState(busyUntil: Time, expiries: nat, retryAfter: Time)
  datatype Turn = Turn(members: seq<nat>, initialized: bool, permitted: bool, reclaimAt: Time)

  datatype Tables = Tables(
    pending: map<nat, Pending>, latest: map<nat, Offer>, seen: map<SeenKey, Seen>, acks: seq<Ack>,
    cancellations: multiset<Handle>, peers: map<nat, PeerState>, turns: map<nat, Turn>,
    nextSequence: nat, nextProbeAt: Time, probeCursor: nat)

  datatype Outbound = Outbound(
    destination: nat, appKey: nat, element: u8, segmented: bool, acknowledgement: bool,
    data: ReliableFrame, transfer: Option<Handle>, sample: nat)
  datatype Check = Check(sequence: nat, destination: nat, handle: Handle)

  const EMPTY_TABLES := Tables(map[], map[], map[], [], multiset{}, map[], map[], 0, 0, 0)

  function Channel(element: u8, appKey: nat, channel: nat): nat {
    element as int * 0x1_0000_0000 + appKey * 0x1_0000 + channel
  }

  function ChannelOf(b: Bridge): nat { Channel(b.element, b.appKey, b.channel) }

  function PeerOf(peers: map<nat, PeerState>, a: nat): PeerState {
    if a in peers then peers[a] else PeerState(0, 0, 0)
  }

  function KeyOf(source: nat, appKey: nat, data: ReliableFrame): SeenKey {
    SeenKey(source, appKey, SwarmId(data), VendorOpcode(data), Sequence(data))
  }

  function AsSet(h: Option<Handle>): multiset<Handle> {
    if h.Some? then multiset{h.value} else multiset{}
  }

  // ---------------------------------------------------------------- handles held by samples

  function TargetHandles(awaiting: map<nat, Target>): multiset<Handle> {
    if awaiting == map[] then multiset{}
    else
      var k := Min(awaiting.Keys);
      AsSet(awaiting[k].transfer) + TargetHandles(awaiting - {k})
  }

  function SampleHandles(p: Pending): multiset<Handle> {
    AsSet(p.primary) + TargetHandles(p.awaiting)
  }

  function PendingHandles(pending: map<nat, Pending>): multiset<Handle> {
    if pending == map[] then multiset{}
    else
      var k := Min(pending.Keys);
      SampleHandles(pending[k]) + PendingHandles(pending - {k})
  }

  // ---------------------------------------------------------------- native transfers

  function RememberTransfer(t: Tables, sequence: nat, destination: nat, h: Handle, now: Time): (r: Tables)
    ensures r == t.(pending := r.pending, cancellations := r.cancellations)
  {
    if h.transfer == 0 then t
    else if sequence in t.pending then
      var p := t.pending[sequence];
      if destination in p.awaiting then
        var target := p.awaiting[destination].(transfer := Some(h), checkAt := now + TRANSFER_CHECK_PERIOD);
        t.(pending := t.pending[sequence := p.(awaiting := p.awaiting[destination := target], blocks := true)])
      else t.(pending := t.pending[sequence := p.(primary := Some(h))])
    else t.(cancellations := t.cancellations + multiset{h})
  }

  /** The daemon no longer knows the checked transfer: drop it and release the channel. */
  function TransferFinished(t: Tables, c: Check): (r: Tables)
    ensures r == t.(pending := r.pending)
  {
    if c.sequence in t.pending && c.destination in t.pending[c.sequence].awaiting
       && t.pending[c.sequence].awaiting[c.destination].transfer == Some(c.handle)
    then
      var p := t.pending[c.sequence];
      var target := p.awaiting[c.destination].(transfer := None);
      t.(pending := t.pending[c.sequence := p.(awaiting := p.awaiting[c.destination := target], blocks := false)])
    else t
  }

  function ClearState(t: Tables, preserveLatest: bool): Tables {
    Tables(map[], if preserveLatest then t.latest else map[], map[], [],
           t.cancellations + PendingHandles(t.pending), map[], map[], t.nextSequence, 0, 0)
  }

  // ---------------------------------------------------------------- the periodic worker

  function PurgeSeen(seen: map<SeenKey, Seen>, now: Time): map<SeenKey, Seen> {
    map k | k in seen && now - seen[k].last <= SEEN_RETENTION :: seen[k]
  }

  function AckItems(acks: seq<Ack>): seq<Outbound> {
    if acks == [] then []
    else [Outbound(acks[0].destination, acks[0].appKey, 0, false, true, acks[0].data, None, 0)] + AckItems(acks[1..])
  }

  datatype Pass = Pass(t: Tables, outbound: seq<Outbound>, checks: seq<Check>, scheduled: set<nat>, expired: nat)

  function Expire(peers: map<nat, PeerState>, failed: seq<nat>, now: Time): map<nat, PeerState>
    decreases |failed|
  {
    if failed == [] then peers
    else
      var before := PeerOf(peers, failed[0]);
      var expiries := if before.expiries + 1 < MAX_EXPIRIES then before.expiries + 1 else MAX_EXPIRIES;
      var backoff := if 5_000 * expiries < 30_000 then 5_000 * expiries else 30_000;
      Expire(peers[failed[0] := before.(expiries := expiries, retryAfter := now + backoff)], failed[1..], now)
  }

  function CheckTarget(a: Pass, sequence: nat, peer: nat, now: Time): Pass
    requires sequence in a.t.pending && peer in a.t.pending[sequence].awaiting
  {
    var p := a.t.pending[sequence];
    var target := p.awaiting[peer];
    if p.nativeReleases && target.transfer.Some? && target.checkAt <= now then
      WithTarget(a, sequence, peer, target.(checkAt := now + TRANSFER_CHECK_PERIOD))
        .(checks := a.checks + [Check(sequence, peer, target.transfer.value)])
    else a
  }

  function WithTarget(a: Pass, sequence: nat, peer: nat, target: Target): Pass
    requires sequence in a.t.pending && peer in a.t.pending[sequence].awaiting
  {
    var p := a.t.pending[sequence];
    a.(t := a.t.(pending := a.t.pending[sequence := p.(awaiting := p.awaiting[peer := target])]))
  }

  function QueryItem(p: Pending, peer: nat): Outbound
    requires peer in p.awaiting
  {
    Outbound(peer, p.appKey, p.element, false, false, QueryFor(p.data), p.awaiting[peer].transfer, p.sample)
  }

  function RepairItem(p: Pending, peer: nat): Outbound {
    Outbound(peer, p.appKey, p.element, p.segmented, false, Marked(p.data, peer == p.successor), None, p.sample)
  }

  function Queried(target: Target, now: Time): Target { target.(queryAt := now + RECEIPT_QUERY_PERIOD) }

  function Repaired(target: Target, now: Time): Target {
    Target(target.attempts + 1, target.transfer, now + 4_000 * (target.attempts + 2), now + RECEIPT_QUERY_PERIOD, target.checkAt)
  }

  function Deferred(target: Target, now: Time): Target {
    target.(attempts := if target.attempts > 0 then target.attempts - 1 else 0, retryAt := now + QUEUE_RETRY_DELAY)
  }

  function QueryOrRepair(a: Pass, sequence: nat, peer: nat, now: Time): Pass
    requires sequence in a.t.pending && peer in a.t.pending[sequence].awaiting
  {
    var p := a.t.pending[sequence];
    var target := p.awaiting[peer];
    if target.queryAt <= now && target.retryAt > now then
      WithTarget(a, sequence, peer, Queried(target, now))
        .(outbound := a.outbound + [QueryItem(p, peer)])
    else if target.retryAt > now || target.attempts >= MAX_ATTEMPTS || peer in a.scheduled
            || PeerOf(a.t.peers, peer).retryAfter > now then a
    else
      WithTarget(a, sequence, peer, Repaired(target, now))
        .(outbound := a.outbound + [RepairItem(p, peer)], scheduled := a.scheduled + {peer})
  }

  /** Work for one unacknowledged peer; nothing more is built once six frames are queued. */
  function TargetStep(a: Pass, sequence: nat, peer: nat, now: Time): Pass {
    if |a.outbound| >= MAX_OUTBOUND || sequence !in a.t.pending || peer !in a.t.pending[sequence].awaiting then a
    else QueryOrRepair(CheckTarget(a, sequence, peer, now), sequence, peer, now)
  }

  function TargetsPass(a: Pass, sequence: nat, peers: seq<nat>, now: Time): Pass
    decreases |peers|
  {
    if peers == [] then a
    else TargetsPass(TargetStep(a, sequence, peers[0], now), sequence, peers[1..], now)
  }

  /** Repair an outstanding receipt identity with the newest waiting value of its channel. */
  function Coalesce(t: Tables, sequence: nat): Tables
    requires sequence in t.pending
  {
    var p := t.pending[sequence];
    if p.channel in t.latest && |t.latest[p.channel].payload| >= VENDOR_PREFIX_BYTES + BRIDGE_FRAME_PREFIX_BYTES then
      var newest := t.latest[p.channel];
      t.(pending := t.pending[sequence := p.(data := WrapData(newest.payload, sequence, SwarmId(p.data)), age := newest.age)],
         latest := t.latest - {p.channel})
    else t
  }

  predicate Expired(p: Pending, now: Time) { now - p.created > SAMPLE_LIFETIME }

  function DropSample(t: Tables, sequence: nat): Tables
    requires sequence in t.pending
  {
    t.(cancellations := t.cancellations + SampleHandles(t.pending[sequence]), pending := t.pending - {sequence})
  }

  /** Drop a sample that ran out of time and back off from every peer it still awaited. */
  function ExpireSample(t: Tables, sequence: nat, now: Time): Tables
    requires sequence in t.pending
  {
    var dropped := DropSample(t, sequence);
    dropped.(peers := Expire(dropped.peers, Ascending(t.pending[sequence].awaiting.Keys), now))
  }

  function SampleStep(a: Pass, sequence: nat, now: Time): Pass {
    if sequence !in a.t.pending then a
    else
      var p := a.t.pending[sequence];
      if p.awaiting == map[] then a.(t := DropSample(a.t, sequence))
      else if Expired(p, now) then
        a.(t := ExpireSample(a.t, sequence, now), expired := a.expired + 1)
      else TargetsPass(a.(t := Coalesce(a.t, sequence)), sequence, Ascending(p.awaiting.Keys), now)
  }

  function SamplesPass(a: Pass, sequences: seq<nat>, now: Time): Pass
    decreases |sequences|
  {
    if sequences == [] then a
    else SamplesPass(SampleStep(a, sequences[0], now), sequences[1..], now)
  }

  predicate Busy(pending: map<nat, Pending>, channel: nat) {
    exists k | k in pending :: pending[k].channel == channel && pending[k].blocks
  }

  /** Values whose channel is free leave the waiting slots in channel order. */
  function ReadyPass(t: Tables, ready: seq<Offer>, channels: seq<nat>): (Tables, seq<Offer>)
    decreases |channels|
  {
    if channels == [] then (t, ready)
    else if channels[0] !in t.latest || Busy(t.pending, channels[0]) then ReadyPass(t, ready, channels[1..])
    else ReadyPass(t.(latest := t.latest - {channels[0]}), ready + [t.latest[channels[0]]], channels[1..])
  }

  datatype Tick = Tick(t: Tables, outbound: seq<Outbound>, checks: seq<Check>, ready: seq<Offer>, expired: nat)

  function TickStart(t: Tables, now: Time): Pass {
    var count := if |t.acks| < MAX_ACKS_PER_TICK then |t.acks| else MAX_ACKS_PER_TICK;
    Pass(t.(seen := PurgeSeen(t.seen, now), acks := t.acks[count..]), AckItems(t.acks[..count]), [], {}, 0)
  }

  function TickLocked(t: Tables, now: Time): Tick {
    var a := SamplesPass(TickStart(t, now), Ascending(t.pending.Keys), now);
    var (t', ready) := ReadyPass(a.t, [], Ascending(a.t.latest.Keys));
    Tick(t', a.outbound, a.checks, ready, a.expired)
  }

  function OutboundRefused(t: Tables, item: Outbound, now: Time): (r: Tables)
    ensures r == t.(pending := r.pending, peers := r.peers)
  {
    var retryAt := now + QUEUE_RETRY_DELAY;
    var t1 := t.(peers := t.peers[item.destination := PeerOf(t.peers, item.destination).(busyUntil := retryAt)]);
    var q := Sequence(item.data);
    if q in t.pending && item.destination in t.pending[q].awaiting then
      var p := t.pending[q];
      t1.(pending := t1.pending[q := p.(awaiting := p.awaiting[item.destination := Deferred(p.awaiting[item.destination], now)])])
    else t1
  }

  function RequeueAck(t: Tables, item: Outbound): (r: Tables)
    ensures r == t.(acks := r.acks)
  {
    if item.acknowledgement && |t.acks| < MAX_QUEUED_ACKS
    then t.(acks := [Ack(item.destination, item.appKey, item.data)] + t.acks)
    else t
  }

  // ---------------------------------------------------------------- sending

  function StoreLatest(t: Tables, offer: Offer, resumed: bool): (r: Tables)
    ensures r == t.(latest := r.latest)
  {
    var channel := ChannelOf(offer.bridge);
    if resumed && channel in t.latest then t else t.(latest := t.latest[channel := offer])
  }

  datatype GateResult = Stored | Superseded | Rejected | Direct | Proceed

  /** Everything decided before a sequence is allocated. */
  function Gate(t: Tables, offer: Offer, resumed: bool, ready: bool, coordinated: bool): (r: (Tables, GateResult))
    ensures r.0 == t.(latest := r.0.latest)
  {
    var channel := ChannelOf(offer.bridge);
    if !ready then (StoreLatest(t, offer, resumed), Stored)
    else if resumed && channel in t.latest then (t, Superseded)
    else
      var t1 := if resumed then t else t.(latest := t.latest - {channel});
      if !(offer.bridge.reliable && coordinated) then (t1, Direct)
      else if !IsBridgeFrame(offer.payload) then (t1, Rejected)
      else if Busy(t1.pending, channel) then (StoreLatest(t1, offer, resumed), Stored)
      else (t1, Proceed)
  }

  /** First sequence counter value after `counter` whose low 16 bits are not in `taken`. */
  function Allocate(counter: nat, taken: set<nat>): (c: nat)
    ensures c < 0x1_0000_0000
    decreases |taken|
  {
    var c := (counter + 1) % 0x1_0000_0000;
    if c % 0x1_0000 in taken then Allocate(c, taken - {c % 0x1_0000}) else c
  }

  /** Local address (0 when unknown), live swarm members, unheard configured peers, and the time. */
  datatype PlanEnv = PlanEnv(local: nat, peers: seq<nat>, probes: seq<nat>, now: Time)
  datatype Plan = Plan(sequence: nat, targets: seq<nat>, successor: nat, consumes: bool)

  function FindProbe(t: Tables, probes: seq<nat>, now: Time, offset: nat): (r: Option<nat>)
    requires probes != []
    ensures r.Some? ==> r.value < |probes|
    decreases |probes| - offset
  {
    if offset >= |probes| then None
    else
      var index := (t.probeCursor + offset) % |probes|;
      if PeerOf(t.peers, probes[index]).retryAfter > now then FindProbe(t, probes, now, offset + 1) else Some(index)
  }

  function Probe(t: Tables, env: PlanEnv): (r: (Tables, seq<nat>))
    ensures r.0 == t.(probeCursor := r.0.probeCursor, nextProbeAt := r.0.nextProbeAt)
  {
    if env.probes == [] || env.now < t.nextProbeAt then (t, [])
    else
      match FindProbe(t, env.probes, env.now, 0)
      case None => (t, [])
      case Some(index) => (t.(probeCursor := index + 1, nextProbeAt := env.now + PROBE_PERIOD), [env.probes[index]])
  }

  function TurnBefore(turns: map<nat, Turn>, channel: nat): Turn {
    if channel in turns then turns[channel] else Turn([], false, false, 0)
  }

  /** First use, membership refresh and recovery of a lost turn, all by the lowest member only. */
  function TurnAt(turns: map<nat, Turn>, channel: nat, members: seq<nat>, local: nat, now: Time): Turn
    requires members != []
  {
    var before := TurnBefore(turns, channel);
    var turn := if !before.initialized then Turn(members, true, members[0] == local, now + TURN_RECOVERY)
                else before.(members := members);
    if !turn.permitted && members[0] == local && now >= turn.reclaimAt then turn.(permitted := true) else turn
  }

  /** With a known ring the send waits for the turn; without peers or an address it goes ahead. */
  function PlanRing(t: Tables, offer: Offer, resumed: bool, env: PlanEnv, sequence: nat, targets: seq<nat>): (r: (Tables, Option<Plan>))
    ensures r.0 == t.(turns := r.0.turns, latest := r.0.latest)
  {
    if env.peers == [] || env.local == 0 then (t, Some(Plan(sequence, targets, 0, false)))
    else
      var channel := ChannelOf(offer.bridge);
      var members := TurnMembers(env.local, env.peers);
      var turn := TurnAt(t.turns, channel, members, env.local, env.now);
      var t1 := t.(turns := t.turns[channel := turn]);
      if !turn.permitted then (StoreLatest(t1, offer, resumed), None)
      else (t1, Some(Plan(sequence, targets, Successor(members, env.local), true)))
  }

  function PlanSend(t: Tables, offer: Offer, resumed: bool, env: PlanEnv): (r: (Tables, Option<Plan>))
    ensures r.0.pending == t.pending && r.0.cancellations == t.cancellations && r.0.seen == t.seen && r.0.acks == t.acks
  {
    var (t1, probed) := Probe(t, env);
    var targets := Ascending(set a | a in env.peers + probed);
    if targets == [] then (StoreLatest(t1, offer, resumed), None)
    else
      var counter := Allocate(t1.nextSequence, t1.pending.Keys);
      PlanRing(t1.(nextSequence := counter), offer, resumed, env, counter % 0x1_0000, targets)
  }

  function OldestIn(pending: map<nat, Pending>, keys: seq<nat>): (k: nat)
    requires keys != [] && forall k | k in keys :: k in pending
    ensures k in keys
    ensures forall j | j in keys :: pending[k].created <= pending[j].created
  {
    if |keys| == 1 then keys[0]
    else
      var later := OldestIn(pending, keys[1..]);
      if pending[keys[0]].created <= pending[later].created then keys[0] else later
  }

  function MakeRoom(t: Tables): (r: Tables)
    ensures r == t.(pending := r.pending, cancellations := r.cancellations)
  {
    if |t.pending| >= MAX_PENDING_SAMPLES then DropSample(t, OldestIn(t.pending, Ascending(t.pending.Keys))) else t
  }

  function NewSample(offer: Offer, plan: Plan, swarm: nat, sample: nat, now: Time): Pending
    requires IsBridgeFrame(offer.payload)
  {
    Pending(ChannelOf(offer.bridge), WrapData(offer.payload, plan.sequence, swarm),
            map a | a in plan.targets :: Target(0, None, now + FIRST_REPAIR_DELAY, now + RECEIPT_QUERY_PERIOD, now),
            None, offer.bridge.appKey, offer.bridge.element, plan.successor, offer.bridge.segmented,
            |plan.targets| == 1, true, now, sample, offer.age)
  }

  function EnqueueSample(t: Tables, offer: Offer, plan: Plan, swarm: nat, sample: nat, now: Time): (r: Tables)
    requires IsBridgeFrame(offer.payload)
    ensures r == t.(pending := r.pending, cancellations := r.cancellations)
  {
    var t1 := MakeRoom(t);
    if plan.sequence in t1.pending then t1
    else t1.(pending := t1.pending[plan.sequence := NewSample(offer, plan, swarm, sample, now)])
  }

  function ConsumeTurn(t: Tables, channel: nat, now: Time): Tables {
    t.(turns := t.turns[channel := TurnBefore(t.turns, channel).(permitted := false, reclaimAt := now + TURN_RECOVERY)])
  }

  /** A first unicast was refused (`refused`) or threw: retry the peer shortly. */
  function FirstSendFailed(t: Tables, sequence: nat, destination: nat, refused: bool, now: Time): (r: Tables)
    ensures r == t.(pending := r.pending, peers := r.peers)
  {
    var retryAt := now + QUEUE_RETRY_DELAY;
    var t1 := if refused then t.(peers := t.peers[destination := PeerOf(t.peers, destination).(busyUntil := retryAt)]) else t;
    if sequence in t.pending && destination in t.pending[sequence].awaiting then
      var p := t.pending[sequence];
      t1.(pending := t1.pending[sequence :=
        p.(awaiting := p.awaiting[destination := p.awaiting[destination].(retryAt := retryAt)])])
    else t1
  }

  /** No copy was admitted: forget the sample, keep the value, and give the turn back. */
  function WithdrawSample(t: Tables, offer: Offer, resumed: bool, plan: Plan): Tables {
    var channel := ChannelOf(offer.bridge);
    var t1 := StoreLatest(t.(pending := t.pending - {plan.sequence}), offer, resumed);
    if plan.consumes then t1.(turns := t1.turns[channel := TurnBefore(t1.turns, channel).(permitted := true)]) else t1
  }

  // ---------------------------------------------------------------- receiving

  predicate AckMatches(t: Tables, appKey: nat, data: ReliableFrame) {
    var q := Sequence(data);
    q in t.pending && t.pending[q].appKey == appKey && SameIdentityBytes(data, t.pending[q].data)
  }

  predicate SameIdentityBytes(data: ReliableFrame, stored: DataFrame) {
    data[..3] == stored[..3] && SwarmId(data) == SwarmId(stored)
  }

  function AckReceived(t: Tables, source: nat, appKey: nat, data: ReliableFrame): (r: Tables)
    ensures r == t.(pending := r.pending, peers := r.peers, cancellations := r.cancellations)
  {
    if !AckMatches(t, appKey, data) then t
    else
      var q := Sequence(data);
      var p := t.pending[q];
      var t1 := t.(peers := t.peers[source := PeerState(0, 0, 0)]);
      if source in p.awaiting then
        t1.(cancellations := t1.cancellations + AsSet(p.awaiting[source].transfer),
            pending := t1.pending[q := p.(awaiting := p.awaiting - {source})])
      else t1
  }

  function QueueAck(t: Tables, source: nat, appKey: nat, data: ReliableFrame): (r: Tables)
    ensures r == t.(acks := r.acks)
  {
    var ack := Ack(source, appKey, AckFor(data));
    if |t.acks| >= MAX_QUEUED_ACKS || ack in t.acks then t else t.(acks := t.acks + [ack])
  }

  /** First critical section for a data frame or query; true when the frame must be decoded. */
  function FrameReceived(t: Tables, source: nat, appKey: nat, data: ReliableFrame, now: Time): (r: (Tables, bool))
    ensures r.0 == t.(seen := r.0.seen, acks := r.0.acks)
  {
    var key := KeyOf(source, appKey, data);
    if IsQuery(data) then
      (if key in t.seen && t.seen[key].delivered then QueueAck(t, source, appKey, data) else t, false)
    else if key in t.seen then
      (if t.seen[key].delivered then QueueAck(t, source, appKey, data) else t, false)
    else (t.(seen := t.seen[key := Seen(now, false)]), true)
  }

  /** Second critical section, after the bridge published the payload or failed to. `members` is the
      turn ring the receiver computed and `local` its address, 0 when the ring is unknown. */
  function DecodeFinished(t: Tables, source: nat, appKey: nat, element: u8, data: DataFrame, delivered: bool,
                          local: nat, members: seq<nat>, now: Time): (r: Tables)
    ensures r == t.(seen := r.seen, acks := r.acks, turns := r.turns)
  {
    var key := KeyOf(source, appKey, data);
    if key !in t.seen then t
    else if !delivered then t.(seen := t.seen - {key})
    else
      var t1 := QueueAck(t.(seen := t.seen[key := Seen(now, true)]), source, appKey, data);
      if local == 0 then t1
      else t1.(turns := t1.turns[Channel(element, appKey, ChannelId(data)) :=
                 Turn(members, true, data[3] == RELIABLE_DATA, now + TURN_RECOVERY)])
  }
}
