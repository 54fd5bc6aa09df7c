/** Runs that show what the turn theorems allow and what they rule out: a turn whose every copy is lost
    is reclaimed in a disciplined run, and a node that holds the turn in silence is reached by one. */
module TurnWitness {
  import opened MeshFrame
  import opened Ordered
  import opened TurnRing
  import opened MeshTables
  import opened MeshWorker
  import opened MeshEffects
  import opened MeshInvariant
  import opened MeshNetwork
  import opened MeshLogs
  import opened TurnTokens
  import opened TurnTheorems

  /** Two nodes `a` < `b`, one offer at `a`, and what its environment answers. */
  datatype Scene = Scene(a: nat, b: nat, offer: Offer, swarm: nat, tag: nat, handle: Handle)

  ghost predicate Playable(opcodes: map<nat, nat>, c: Scene) {
    0 < c.a < c.b && Configured(opcodes, c.offer) && c.swarm < 0x1_0000 && c.handle.transfer != 0
  }

  function Ch(c: Scene): nat { ChannelOf(c.offer.bridge) }
  function Ring(c: Scene, permitted: bool): map<nat, Turn> { map[Ch(c) := Turn([c.a, c.b], true, permitted, TURN_RECOVERY)] }
  function ThePlan(c: Scene): Plan { Plan(1, [c.b], c.b, true) }

  function Frame(c: Scene): DataFrame
    requires IsBridgeFrame(c.offer.payload)
  {
    WrapData(c.offer.payload, 1, c.swarm)
  }

  function Fresh(c: Scene): Pending
    requires IsBridgeFrame(c.offer.payload)
  {
    NewSample(c.offer, ThePlan(c), c.swarm, c.tag, 0)
  }

  function Recorded(c: Scene): Pending
    requires IsBridgeFrame(c.offer.payload)
  {
    Fresh(c).(awaiting := map[c.b := Target(0, Some(c.handle), FIRST_REPAIR_DELAY, RECEIPT_QUERY_PERIOD, TRANSFER_CHECK_PERIOD)])
  }

  function Env(c: Scene, now: Time): PlanEnv { PlanEnv(c.a, [c.b], [], now) }

  function Running(t: Tables, c: Scene, phase: Phase, tag: nat): Node {
    Node(t, NO_WORK.(job := Some(Job(c.offer, false, phase, tag))))
  }

  function Planned(c: Scene): Tables { EMPTY_TABLES.(nextSequence := 1, turns := Ring(c, true)) }

  function Spent(c: Scene, p: Pending): Tables { EMPTY_TABLES.(nextSequence := 1, turns := Ring(c, false), pending := map[1 := p]) }

  // The states of node `a` as it sends its offer.
  function Offering(c: Scene): Node { Running(EMPTY_TABLES, c, Planning, 0) }
  function Permitting(c: Scene): Node { Running(Planned(c), c, Enqueuing(ThePlan(c)), 0) }
  function Enqueued(c: Scene): Node
    requires IsBridgeFrame(c.offer.payload)
  {
    Running(Planned(c).(pending := map[1 := Fresh(c)]), c, Consuming(ThePlan(c), Frame(c)), c.tag)
  }
  function Unsending(c: Scene): Node
    requires IsBridgeFrame(c.offer.payload)
  {
    Running(Spent(c, Fresh(c)), c, Sending(ThePlan(c), Frame(c), 0, false), c.tag)
  }
  function Admitting(c: Scene): Node
    requires IsBridgeFrame(c.offer.payload)
  {
    var n := Running(Spent(c, Fresh(c)), c, Sending(ThePlan(c), Frame(c), 1, true), c.tag);
    n.(work := n.work.(held := Some(Check(1, c.b, c.handle))))
  }
  function Noted(c: Scene): Node
    requires IsBridgeFrame(c.offer.payload)
  {
    Running(Spent(c, Recorded(c)), c, Sending(ThePlan(c), Frame(c), 1, true), c.tag)
  }
  function Resting(c: Scene): Node
    requires IsBridgeFrame(c.offer.payload)
  {
    Node(Spent(c, Recorded(c)), NO_WORK)
  }

  lemma RingOfTwo(c: Scene)
    requires c.a < c.b
    ensures TurnMembers(c.a, [c.b]) == [c.a, c.b] && Successor([c.a, c.b], c.a) == c.b
  {
    TwoAscending(c.a, c.b);
    assert (set x | x in [c.b]) + {c.a} == {c.a, c.b};
  }

  lemma Offers(c: Scene, t: Tables)
    requires IsBridgeFrame(c.offer.payload) && c.offer.bridge.reliable && t.pending == map[] && t.latest == map[]
    ensures Next(Node(t, NO_WORK), OfferValue(c.offer, true, true)) == Running(t, c, Planning, 0)
  {
    assert t.(latest := t.latest - {Ch(c)}) == t;
  }

  lemma FirstPlan(c: Scene)
    requires 0 < c.a < c.b
    ensures Next(Offering(c), MakePlan(Env(c, 0))) == Permitting(c)
  {
    FirstTargets(c.b);
    FirstSequence();
    FirstRing(c);
    assert Probe(EMPTY_TABLES, Env(c, 0)) == (EMPTY_TABLES, []);
  }

  lemma FirstTargets(b: nat)
    ensures Ascending(set x | x in [b] + []) == [b]
  {
    OneAscending(b);
    assert (set x | x in [b] + []) == {b};
  }

  lemma FirstRing(c: Scene)
    requires 0 < c.a < c.b
    ensures PlanRing(EMPTY_TABLES.(nextSequence := 1), c.offer, false, Env(c, 0), 1, [c.b]) == (Planned(c), Some(ThePlan(c)))
  {
    RingOfTwo(c);
    assert TurnAt(map[], Ch(c), [c.a, c.b], c.a, 0) == Ring(c, true)[Ch(c)];
  }

  // ---------------------------------------------------------------- the sender's run

  lemma Enqueues(c: Scene)
    requires IsBridgeFrame(c.offer.payload)
    ensures Next(Permitting(c), Enqueue(c.swarm, c.tag, 0))
            == Enqueued(c)
  {}

  lemma Spends(c: Scene)
    requires IsBridgeFrame(c.offer.payload)
    ensures Next(Enqueued(c), SpendTurn(0))
            == Unsending(c)
  {}

  lemma Admits(c: Scene)
    requires IsBridgeFrame(c.offer.payload)
    ensures Next(Unsending(c), FirstSendAnswered(Admitted(c.handle), 0))
            == Admitting(c)
  {}

  lemma Records(c: Scene)
    requires IsBridgeFrame(c.offer.payload) && c.handle.transfer != 0
    ensures Next(Admitting(c), Remember(0)) == Noted(c)
  {
    var p := Fresh(c);
    var target := Target(0, Some(c.handle), FIRST_REPAIR_DELAY, RECEIPT_QUERY_PERIOD, TRANSFER_CHECK_PERIOD);
    assert p.awaiting[c.b] == Target(0, None, FIRST_REPAIR_DELAY, RECEIPT_QUERY_PERIOD, 0);
    assert p.awaiting[c.b := target] == map[c.b := target];
    assert p.(awaiting := p.awaiting[c.b := target], blocks := true) == Recorded(c);
    assert map[1 := p][1 := Recorded(c)] == map[1 := Recorded(c)];
  }

  lemma Finishes(c: Scene)
    requires IsBridgeFrame(c.offer.payload)
    ensures Next(Noted(c), FinishSend)
            == Resting(c)
  {}

  /** Later than the lifetime of the sample and the reclaim deadline. */
  const LATER: Time := 40_000

  lemma PlainStart(t: Tables, now: Time)
    requires t.seen == map[] && t.acks == []
    ensures TickStart(t, now) == Pass(t, [], [], {}, 0)
  {
    assert t.acks[..0] == [] && t.acks[0..] == [];
  }

  /** What the tick does with the only sample when it is over. */
  lemma LoneSample(t: Tables, now: Time) returns (r: Pass)
    requires t.pending.Keys == {1} && Drops(t.pending[1], now)
    ensures r == SamplesPass(Pass(t, [], [], {}, 0), Ascending(t.pending.Keys), now)
    ensures r.t == t.(pending := map[], cancellations := r.t.cancellations, peers := r.t.peers) && r.outbound == [] && r.checks == []
  {
    var a := Pass(t, [], [], {}, 0);
    OneAscending(1);
    DropEffect(a, 1, now);
    r := SampleStep(a, 1, now);
    assert [1][1..] == [];
    assert t.pending - {1} == map[];
  }

  lemma LoneTick(t: Tables, now: Time) returns (tick: Tick)
    requires t.pending.Keys == {1} && Drops(t.pending[1], now) && t.seen == map[] && t.acks == [] && t.latest == map[]
    ensures tick == TickLocked(t, now) && tick.checks == [] && tick.outbound == [] && tick.ready == []
    ensures tick.t == t.(pending := map[], cancellations := tick.t.cancellations, peers := tick.t.peers)
  {
    PlainStart(t, now);
    var r := LoneSample(t, now);
    assert Ascending({}) == [];
    assert ReadyPass(r.t, [], []) == (r.t, []);
    tick := TickLocked(t, now);
  }

  lemma RecordedAge(c: Scene)
    requires IsBridgeFrame(c.offer.payload)
    ensures Expired(Recorded(c), LATER)
  {}

  /** The sample expires; its tables are empty again but for the turn, the peer's back-off and the handle. */
  lemma Expires(c: Scene)
    requires IsBridgeFrame(c.offer.payload)
    ensures var n := Next(Resting(c), StartTick(LATER));
            && n.work == NO_WORK && n.t.pending == map[] && n.t.latest == map[] && n.t.seen == map[] && n.t.turns == Ring(c, false)
  {
    RecordedAge(c);
    var tick := LoneTick(Spent(c, Recorded(c)), LATER);
  }

  // ---------------------------------------------------------------- reachable states

  /** Some disciplined run of the network ends in `s`. */
  ghost predicate Reachable(opcodes: map<nat, nat>, lowest: nat, ch: nat, s: Net) {
    exists trace, labels :: IsNetRun(opcodes, lowest, ch, trace, labels) && trace[|labels|] == s
  }

  lemma Starts(opcodes: map<nat, nat>, lowest: nat, ch: nat, s: Net)
    requires Initial(s)
    ensures Reachable(opcodes, lowest, ch, s)
  {
    var labels: seq<Label> := [];
    assert IsNetRun(opcodes, lowest, ch, [s], labels) && [s][|labels|] == s;
  }

  lemma LongerChain<S, L>(link: (S, L, S) -> bool, trace: seq<S>, labels: seq<L>, l: L, s': S)
    requires Chained(link, trace, labels) && link(trace[|labels|], l, s')
    ensures Chained(link, trace + [s'], labels + [l])
  {}

  lemma Continues(opcodes: map<nat, nat>, lowest: nat, ch: nat, s: Net, l: Label)
    requires Reachable(opcodes, lowest, ch, s) && Disciplined(opcodes, lowest, ch, s, l)
    ensures Reachable(opcodes, lowest, ch, Step(s, l))
  {
    var trace, labels :| IsNetRun(opcodes, lowest, ch, trace, labels) && trace[|labels|] == s;
    Lengthens(opcodes, lowest, ch, trace, labels, l, Step(s, l));
  }

  lemma Witnessed(opcodes: map<nat, nat>, lowest: nat, ch: nat, trace: seq<Net>, labels: seq<Label>)
    requires Chained(Discipline(opcodes, lowest, ch), trace, labels) && Initial(trace[0])
    ensures Reachable(opcodes, lowest, ch, trace[|labels|])
  {
    assert IsNetRun(opcodes, lowest, ch, trace, labels);
  }

  lemma Lengthens(opcodes: map<nat, nat>, lowest: nat, ch: nat, trace: seq<Net>, labels: seq<Label>, l: Label, s': Net)
    requires IsNetRun(opcodes, lowest, ch, trace, labels) && Follows(opcodes, lowest, ch, trace[|labels|], l, s')
    ensures Reachable(opcodes, lowest, ch, s')
  {
    var link := Discipline(opcodes, lowest, ch);
    assert link(trace[|labels|], l, s');
    LongerChain(link, trace, labels, l, s');
    Witnessed(opcodes, lowest, ch, trace + [s'], labels + [l]);
  }

  lemma LocalFollows(opcodes: map<nat, nat>, lowest: nat, ch: nat, s: Net, a: nat, e: Event)
    requires Reachable(opcodes, lowest, ch, s) && CanStep(s, Local(a, e)) && Proper(opcodes, a, e) && !e.MakePlan? && !e.Reset?
    requires s.nodes[a].t.seen == map[]
    ensures Reachable(opcodes, lowest, ch, Step(s, Local(a, e)))
  {
    Continues(opcodes, lowest, ch, s, Local(a, e));
  }

  lemma LocalStep(s: Net, a: nat, e: Event, n: Node) returns (s': Net)
    requires CanStep(s, Local(a, e)) && n == Next(s.nodes[a], e)
    ensures s' == Step(s, Local(a, e)) && s'.nodes == s.nodes[a := n] && s'.decoding == s.decoding && s'.published == s.published
    ensures s'.air == s.air + NewWires(a, s.nodes[a], e) && s'.samples == s.samples + NewSamples(a, s.nodes[a], e)
    ensures s'.spent == SpentAfter(s.spent, s.nodes[a], e)
  {
    s' := Step(s, Local(a, e));
  }

  /** Events that put nothing on the air and frame nothing. */
  predicate Plain(e: Event) { e.OfferValue? || e.StartTick? || e.MakePlan? || e.Remember? }

  lemma SendsNothing(a: nat, n: Node, e: Event, spent: set<nat>)
    requires Enabled(n, e) && Plain(e)
    ensures NewWires(a, n, e) == {} && NewSamples(a, n, e) == map[] && SpentAfter(spent, n, e) == spent
  {}

  /** Nothing but the nodes differs, as far as turns go. */
  ghost predicate SameAir(s: Net, s': Net) {
    s'.decoding == s.decoding && s'.published == s.published && s'.air == s.air && s'.samples == s.samples && s'.spent == s.spent
  }

  lemma PlainStep(s: Net, a: nat, e: Event, n: Node) returns (s': Net)
    requires CanStep(s, Local(a, e)) && Plain(e) && n == Next(s.nodes[a], e)
    ensures s' == Step(s, Local(a, e)) && s'.nodes == s.nodes[a := n] && SameAir(s, s')
  {
    SendsNothing(a, s.nodes[a], e, s.spent);
    s' := LocalStep(s, a, e, n);
  }

  ghost predicate Both(c: Scene, s: Net, n: Node, m: Node) { s.nodes == map[c.a := n, c.b := m] }

  lemma MayStep(c: Scene, s: Net, n: Node, m: Node, e: Event)
    requires Both(c, s, n, m) && c.a != c.b && Enabled(n, e) && IsLocal(e) && (e.Enqueue? ==> e.tag !in s.samples)
    ensures c.a in s.nodes && s.nodes[c.a] == n && CanStep(s, Local(c.a, e))
  {}

  lemma BothAfter(c: Scene, s: Net, s': Net, n: Node, m: Node, after: Node)
    requires Both(c, s, n, m) && c.a != c.b && s'.nodes == s.nodes[c.a := after]
    ensures Both(c, s', after, m)
  {}

  /** A local step of node `a`, which has received nothing, other than a reset or a plan. */
  lemma Advances(opcodes: map<nat, nat>, c: Scene, s: Net, n: Node, m: Node, e: Event, after: Node) returns (s': Net)
    requires Reachable(opcodes, c.a, Ch(c), s) && Both(c, s, n, m) && c.a != c.b
    requires Enabled(n, e) && IsLocal(e) && (e.Enqueue? ==> e.tag !in s.samples) && !e.MakePlan? && !e.Reset?
    requires Proper(opcodes, c.a, e) && n.t.seen == map[] && after == Next(n, e)
    ensures Reachable(opcodes, c.a, Ch(c), s') && Both(c, s', after, m) && s'.decoding == s.decoding && s'.published == s.published
    ensures s'.air == s.air + NewWires(c.a, n, e) && s'.samples == s.samples + NewSamples(c.a, n, e) && s'.spent == SpentAfter(s.spent, n, e)
  {
    MayStep(c, s, n, m, e);
    LocalFollows(opcodes, c.a, Ch(c), s, c.a, e);
    s' := LocalStep(s, c.a, e, after);
    BothAfter(c, s, s', n, m, after);
  }

  lemma AdvancesPlain(opcodes: map<nat, nat>, c: Scene, s: Net, n: Node, m: Node, e: Event, after: Node) returns (s': Net)
    requires Reachable(opcodes, c.a, Ch(c), s) && Both(c, s, n, m) && c.a != c.b
    requires Enabled(n, e) && Plain(e) && !e.MakePlan? && Proper(opcodes, c.a, e) && n.t.seen == map[] && after == Next(n, e)
    ensures Reachable(opcodes, c.a, Ch(c), s') && Both(c, s', after, m) && SameAir(s, s')
  {
    MayStep(c, s, n, m, e);
    LocalFollows(opcodes, c.a, Ch(c), s, c.a, e);
    s' := PlainStep(s, c.a, e, after);
    BothAfter(c, s, s', n, m, after);
  }

  lemma PlanForgetsNothing(s: Net, a: nat, env: PlanEnv)
    requires CanStep(s, Local(a, MakePlan(env))) && s.nodes[a].t.seen == map[]
    ensures ForgetsOnlyDead(s, Local(a, MakePlan(env)))
  {}

  lemma PlanDisciplined(opcodes: map<nat, nat>, ch: nat, s: Net, a: nat, env: PlanEnv)
    requires CanStep(s, Local(a, MakePlan(env))) && Proper(opcodes, a, MakePlan(env)) && s.nodes[a].t.seen == map[]
    requires TurnMembers(env.local, env.peers)[0] == a && (!Initialized(s.nodes[a], ch) || Places(s, ch) == {})
    ensures Disciplined(opcodes, a, ch, s, Local(a, MakePlan(env)))
  {
    PlanForgetsNothing(s, a, env);
    assert ReclaimsLost(s, Local(a, MakePlan(env)), ch);
  }

  lemma PlanFollows(opcodes: map<nat, nat>, ch: nat, s: Net, a: nat, env: PlanEnv)
    requires Reachable(opcodes, a, ch, s) && CanStep(s, Local(a, MakePlan(env))) && Proper(opcodes, a, MakePlan(env))
    requires s.nodes[a].t.seen == map[] && TurnMembers(env.local, env.peers)[0] == a
    requires !Initialized(s.nodes[a], ch) || Places(s, ch) == {}
    ensures Reachable(opcodes, a, ch, Step(s, Local(a, MakePlan(env))))
  {
    PlanDisciplined(opcodes, ch, s, a, env);
    Continues(opcodes, a, ch, s, Local(a, MakePlan(env)));
  }

  function TheWire(c: Scene): Wire
    requires IsBridgeFrame(c.offer.payload)
  {
    Wire(c.a, c.b, c.offer.bridge.appKey, c.offer.bridge.element, Marked(Frame(c), true), c.tag)
  }

  ghost predicate At(c: Scene, s: Net, n: Node) { Both(c, s, n, FRESH_NODE) && s.decoding == map[] && s.published == map[] }
  ghost predicate NothingSent(s: Net) { s.air == {} && s.samples == map[] && s.spent == {} }
  ghost predicate Framed(c: Scene, s: Net, spent: set<nat>, air: set<Wire>)
    requires IsBridgeFrame(c.offer.payload)
  {
    && s.air == air && s.spent == spent && s.samples.Keys == {c.tag}
    && s.samples[c.tag].source == c.a && s.samples[c.tag].successor == c.b && s.samples[c.tag].channel == Ch(c)
  }

  lemma TakesOffer(opcodes: map<nat, nat>, c: Scene) returns (s: Net)
    requires Playable(opcodes, c)
    ensures Reachable(opcodes, c.a, Ch(c), s) && At(c, s, Offering(c)) && NothingSent(s)
  {
    s := Net(map[c.a := FRESH_NODE, c.b := FRESH_NODE], {}, map[], map[], {}, {}, map[], {});
    Starts(opcodes, c.a, Ch(c), s);
    Offers(c, EMPTY_TABLES);
    s := AdvancesPlain(opcodes, c, s, FRESH_NODE, FRESH_NODE, OfferValue(c.offer, true, true), Offering(c));
  }

  lemma CanPlan(opcodes: map<nat, nat>, c: Scene, s: Net)
    requires Playable(opcodes, c) && At(c, s, Offering(c))
    ensures c.a in s.nodes && s.nodes[c.a] == Offering(c)
    ensures CanStep(s, Local(c.a, MakePlan(Env(c, 0)))) && Proper(opcodes, c.a, MakePlan(Env(c, 0)))
    ensures TurnMembers(c.a, [c.b])[0] == c.a && !Initialized(s.nodes[c.a], Ch(c))
  {
    RingOfTwo(c);
  }

  lemma MayTakeTurn(opcodes: map<nat, nat>, c: Scene, s: Net)
    requires Playable(opcodes, c) && Reachable(opcodes, c.a, Ch(c), s) && At(c, s, Offering(c))
    ensures CanStep(s, Local(c.a, MakePlan(Env(c, 0)))) && Reachable(opcodes, c.a, Ch(c), Step(s, Local(c.a, MakePlan(Env(c, 0)))))
  {
    CanPlan(opcodes, c, s);
    PlanFollows(opcodes, Ch(c), s, c.a, Env(c, 0));
  }

  lemma TurnTaken(opcodes: map<nat, nat>, c: Scene, s0: Net) returns (s: Net)
    requires Playable(opcodes, c) && At(c, s0, Offering(c)) && NothingSent(s0)
    ensures CanStep(s0, Local(c.a, MakePlan(Env(c, 0)))) && s == Step(s0, Local(c.a, MakePlan(Env(c, 0))))
    ensures At(c, s, Permitting(c)) && NothingSent(s)
  {
    FirstPlan(c);
    CanPlan(opcodes, c, s0);
    BothAfter(c, s0, s0.(nodes := s0.nodes[c.a := Permitting(c)]), Offering(c), FRESH_NODE, Permitting(c));
    s := PlainStep(s0, c.a, MakePlan(Env(c, 0)), Permitting(c));
  }

  lemma TakesTurn(opcodes: map<nat, nat>, c: Scene, s0: Net) returns (s: Net)
    requires Playable(opcodes, c) && Reachable(opcodes, c.a, Ch(c), s0) && At(c, s0, Offering(c)) && NothingSent(s0)
    ensures Reachable(opcodes, c.a, Ch(c), s) && At(c, s, Permitting(c)) && NothingSent(s)
  {
    MayTakeTurn(opcodes, c, s0);
    s := TurnTaken(opcodes, c, s0);
  }

  lemma NewSampleIs(c: Scene)
    requires IsBridgeFrame(c.offer.payload)
    ensures var samples := NewSamples(c.a, Permitting(c), Enqueue(c.swarm, c.tag, 0));
            && samples.Keys == {c.tag} && samples[c.tag].source == c.a && samples[c.tag].successor == c.b
            && samples[c.tag].channel == Ch(c)
  {}

  lemma Frames(opcodes: map<nat, nat>, c: Scene, s0: Net) returns (s: Net)
    requires Playable(opcodes, c) && Reachable(opcodes, c.a, Ch(c), s0) && At(c, s0, Permitting(c)) && NothingSent(s0)
    ensures Reachable(opcodes, c.a, Ch(c), s) && Framed(c, s, {}, {})
    ensures At(c, s, Enqueued(c))
  {
    Enqueues(c);
    NewSampleIs(c);
    s := Advances(opcodes, c, s0, Permitting(c), FRESH_NODE, Enqueue(c.swarm, c.tag, 0), Enqueued(c));
  }

  lemma GivesTurn(opcodes: map<nat, nat>, c: Scene, s0: Net) returns (s: Net)
    requires Playable(opcodes, c) && Reachable(opcodes, c.a, Ch(c), s0) && Framed(c, s0, {}, {})
    requires At(c, s0, Enqueued(c))
    ensures Reachable(opcodes, c.a, Ch(c), s) && Framed(c, s, {c.tag}, {})
    ensures At(c, s, Unsending(c))
  {
    Spends(c);
    s := Advances(opcodes, c, s0, Enqueued(c), FRESH_NODE, SpendTurn(0), Unsending(c));
  }

  lemma Transmits(opcodes: map<nat, nat>, c: Scene, s0: Net) returns (s: Net)
    requires Playable(opcodes, c) && Reachable(opcodes, c.a, Ch(c), s0) && Framed(c, s0, {c.tag}, {})
    requires At(c, s0, Unsending(c))
    ensures Reachable(opcodes, c.a, Ch(c), s) && Framed(c, s, {c.tag}, {TheWire(c)}) && At(c, s, Admitting(c))
  {
    Admits(c);
    s := Advances(opcodes, c, s0, Unsending(c), FRESH_NODE, FirstSendAnswered(Admitted(c.handle), 0), Admitting(c));
  }

  lemma Notes(opcodes: map<nat, nat>, c: Scene, s0: Net) returns (s: Net)
    requires Playable(opcodes, c) && Reachable(opcodes, c.a, Ch(c), s0) && Framed(c, s0, {c.tag}, {TheWire(c)}) && At(c, s0, Admitting(c))
    ensures Reachable(opcodes, c.a, Ch(c), s) && Framed(c, s, {c.tag}, {TheWire(c)})
    ensures At(c, s, Noted(c))
  {
    Records(c);
    s := AdvancesPlain(opcodes, c, s0, Admitting(c), FRESH_NODE, Remember(0), Noted(c));
  }

  lemma Ends(opcodes: map<nat, nat>, c: Scene, s0: Net) returns (s: Net)
    requires Playable(opcodes, c) && Reachable(opcodes, c.a, Ch(c), s0) && Framed(c, s0, {c.tag}, {TheWire(c)})
    requires At(c, s0, Noted(c))
    ensures Reachable(opcodes, c.a, Ch(c), s) && Framed(c, s, {c.tag}, {TheWire(c)}) && At(c, s, Resting(c))
  {
    Finishes(c);
    s := Advances(opcodes, c, s0, Noted(c), FRESH_NODE, FinishSend, Resting(c));
  }

  /** Node `a` takes the turn on first use, sends its one copy, which carries the turn, and is idle again. */
  lemma Fans(opcodes: map<nat, nat>, c: Scene) returns (s: Net)
    requires Playable(opcodes, c)
    ensures Reachable(opcodes, c.a, Ch(c), s) && Framed(c, s, {c.tag}, {TheWire(c)}) && At(c, s, Resting(c))
  {
    s := TakesOffer(opcodes, c);
    s := TakesTurn(opcodes, c, s);
    s := Frames(opcodes, c, s);
    s := GivesTurn(opcodes, c, s);
    s := Transmits(opcodes, c, s);
    s := Notes(opcodes, c, s);
    s := Ends(opcodes, c, s);
  }

  // ---------------------------------------------------------------- the receiver publishes, and stays silent

  /** A node that has only started to decode the frame `w`. */
  function SeeingOnly(w: Wire): Node { FRESH_NODE.(t := EMPTY_TABLES.(seen := map[WireKey(w) := Seen(0, false)])) }

  function Seeing(c: Scene): Node
    requires IsBridgeFrame(c.offer.payload)
  {
    SeeingOnly(TheWire(c))
  }

  lemma Sees(w: Wire)
    requires IsDataFrame(w.data)
    ensures !IsAck(w.data) && Next(FRESH_NODE, ReceiveEvent(w, 0)) == SeeingOnly(w)
  {}

  lemma Takes(w: Wire, local: nat, members: seq<nat>)
    requires IsDataFrame(w.data) && w.data[3] == RELIABLE_DATA && local != 0
    ensures Permitted(Next(SeeingOnly(w), DecodeDone(Message(w), true, local, members, 0)), Channel(w.element, w.appKey, ChannelId(w.data)))
  {}

  lemma WireReads(opcodes: map<nat, nat>, c: Scene)
    requires Playable(opcodes, c)
    ensures var w := TheWire(c);
            IsDataFrame(w.data) && w.data[3] == RELIABLE_DATA && ChannelId(w.data) == c.offer.bridge.channel
  {
    WrapRoundTrip(c.offer.payload, 1, c.swarm, true);
  }

  lemma WireFits(opcodes: map<nat, nat>, c: Scene)
    requires Playable(opcodes, c)
    ensures var w := TheWire(c);
            TurnMarked(w.data) && w.dst == c.b && Ch(c) == Channel(w.element, w.appKey, ChannelId(w.data))
  {
    WireReads(opcodes, c);
  }

  lemma Delivers(opcodes: map<nat, nat>, c: Scene, s0: Net) returns (s: Net)
    requires Playable(opcodes, c) && Reachable(opcodes, c.a, Ch(c), s0) && Framed(c, s0, {c.tag}, {TheWire(c)}) && At(c, s0, Resting(c))
    ensures Reachable(opcodes, c.a, Ch(c), s) && Both(c, s, Resting(c), Seeing(c))
    ensures s.decoding == map[(c.b, WireKey(TheWire(c))) := TheWire(c)]
  {
    WireReads(opcodes, c);
    Sees(TheWire(c));
    var l := Deliver(c.b, TheWire(c), 0);
    s := Step(s0, l);
    Continues(opcodes, c.a, Ch(c), s0, l);
    StepShape(s0, l);
  }

  lemma MayPublish(c: Scene, s: Net, n: Node, w: Wire)
    requires c.a != c.b && Both(c, s, n, SeeingOnly(w)) && IsDataFrame(w.data) && s.decoding == map[(c.b, WireKey(w)) := w]
    ensures CanStep(s, Decode(c.b, w, true, c.b, [c.a, c.b], 0)) && s.nodes[c.b] == SeeingOnly(w)
  {}

  /** Node `b` publishes the marked copy `w` it was decoding and takes the turn. */
  lemma Publishes(opcodes: map<nat, nat>, c: Scene, s0: Net, n: Node, w: Wire) returns (s: Net, m: Node)
    requires 0 < c.a < c.b && Reachable(opcodes, c.a, Ch(c), s0) && Both(c, s0, n, SeeingOnly(w))
    requires TurnMarked(w.data) && Ch(c) == Channel(w.element, w.appKey, ChannelId(w.data)) && s0.decoding == map[(c.b, WireKey(w)) := w]
    ensures Reachable(opcodes, c.a, Ch(c), s) && Both(c, s, n, m) && Permitted(m, Ch(c))
  {
    Takes(w, c.b, [c.a, c.b]);
    MayPublish(c, s0, n, w);
    var l := Decode(c.b, w, true, c.b, [c.a, c.b], 0);
    s := Step(s0, l);
    m := Next(SeeingOnly(w), DecodeDone(Message(w), true, c.b, [c.a, c.b], 0));
    Continues(opcodes, c.a, Ch(c), s0, l);
    StepShape(s0, l);
    OtherAfter(c, s0, s, n, SeeingOnly(w), m);
  }

  lemma OtherAfter(c: Scene, s: Net, s': Net, n: Node, m: Node, after: Node)
    requires Both(c, s, n, m) && c.a != c.b && s'.nodes == s.nodes[c.b := after]
    ensures Both(c, s', n, after)
  {}

  lemma TakesNext(opcodes: map<nat, nat>, c: Scene, s0: Net, idle: Node, m: Node) returns (s: Net)
    requires Playable(opcodes, c) && Reachable(opcodes, c.a, Ch(c), s0) && Both(c, s0, idle, m)
    requires idle.work == NO_WORK && idle.t.pending == map[] && idle.t.latest == map[] && idle.t.seen == map[]
    ensures Reachable(opcodes, c.a, Ch(c), s) && Both(c, s, Running(idle.t, c, Planning, 0), m) && SameAir(s0, s)
  {
    Offers(c, idle.t);
    s := AdvancesPlain(opcodes, c, s0, idle, m, OfferValue(c.offer, true, true), Running(idle.t, c, Planning, 0));
  }

  /** Whatever node `b` holds meanwhile, `a` forgets its expired sample and takes the next offer. */
  lemma Waits(opcodes: map<nat, nat>, c: Scene, s0: Net, m: Node) returns (s: Net, n: Node)
    requires Playable(opcodes, c) && Reachable(opcodes, c.a, Ch(c), s0) && Both(c, s0, Resting(c), m)
    ensures Reachable(opcodes, c.a, Ch(c), s) && Both(c, s, n, m) && SameAir(s0, s)
    ensures n.work == Offering(c).work && n.t.pending == map[] && n.t.seen == map[] && n.t.turns == Ring(c, false)
  {
    Expires(c);
    var idle := Next(Resting(c), StartTick(LATER));
    s := AdvancesPlain(opcodes, c, s0, Resting(c), m, StartTick(LATER), idle);
    s := TakesNext(opcodes, c, s, idle, m);
    n := Running(idle.t, c, Planning, 0);
  }

  lemma HoldsInSilence(opcodes: map<nat, nat>, c: Scene) returns (s: Net, n: Node, m: Node)
    requires Playable(opcodes, c)
    ensures Reachable(opcodes, c.a, Ch(c), s) && Both(c, s, n, m) && Permitted(m, Ch(c))
    ensures n.work == Offering(c).work && n.t.turns == Ring(c, false)
  {
    s := Fans(opcodes, c);
    s := Delivers(opcodes, c, s);
    WireFits(opcodes, c);
    s, m := Publishes(opcodes, c, s, Resting(c), TheWire(c));
    s, n := Waits(opcodes, c, s, m);
  }

  /** A silent holder is reached by a disciplined run, and there the reclaim of the lowest member, due after
      its deadline, leaves two nodes permitted. */
  lemma SilentHolderReached(opcodes: map<nat, nat>, c: Scene) returns (s: Net)
    requires Playable(opcodes, c)
    ensures Reachable(opcodes, c.a, Ch(c), s) && CanStep(s, Local(c.a, MakePlan(Env(c, LATER))))
    ensures c.b in s.nodes && Permitted(s.nodes[c.b], Ch(c)) && !Permitted(s.nodes[c.a], Ch(c))
    ensures var s' := Step(s, Local(c.a, MakePlan(Env(c, LATER))));
            {c.a, c.b} <= s'.nodes.Keys && Permitted(s'.nodes[c.a], Ch(c)) && Permitted(s'.nodes[c.b], Ch(c))
  {
    var n, m: Node;
    s, n, m := HoldsInSilence(opcodes, c);
    RingOfTwo(c);
    SilentHolderBreaks(s, c.a, Env(c, LATER), Ch(c), c.b);
  }

  // ---------------------------------------------------------------- a late copy

  /** The only copy is still on the air when its sample expired and the sender has the next offer. */
  lemma CopyIsLate(opcodes: map<nat, nat>, c: Scene) returns (s: Net, n: Node)
    requires Playable(opcodes, c)
    ensures Reachable(opcodes, c.a, Ch(c), s) && Both(c, s, n, FRESH_NODE) && s.air == {TheWire(c)}
    ensures n.work == Offering(c).work && n.t.turns == Ring(c, false) && n.t.pending == map[]
  {
    s := Fans(opcodes, c);
    s, n := Waits(opcodes, c, s, FRESH_NODE);
  }

  lemma LateStart(c: Scene, s: Net, n: Node)
    requires c.a != c.b && Both(c, s, n, FRESH_NODE) && n.work == Offering(c).work && n.t.turns == Ring(c, false)
    ensures c.a in s.nodes && s.nodes[c.a] == n && c.b in s.nodes && s.nodes[c.b] == FRESH_NODE
    ensures CanStep(s, Local(c.a, MakePlan(Env(c, LATER)))) && NobodyHolds(s, Ch(c))
    ensures Initialized(n, Ch(c)) && n.t.turns[Ch(c)].reclaimAt <= LATER && n.work.job.value.offer == c.offer
  {}

  /** A disciplined run leads to a state in which nobody holds the turn, but its only copy is merely late: the due
      reclaim of the lowest member, then the copy, leave two nodes permitted. */
  lemma LateCopyReached(opcodes: map<nat, nat>, c: Scene) returns (s: Net)
    requires Playable(opcodes, c)
    ensures Reachable(opcodes, c.a, Ch(c), s) && NobodyHolds(s, Ch(c))
    ensures ReclaimThenCopy(s, c.a, Env(c, LATER), Ch(c), c.b, TheWire(c), [c.a, c.b], LATER)
  {
    var n: Node;
    s, n := CopyIsLate(opcodes, c);
    LateStart(c, s, n);
    RingOfTwo(c);
    WireFits(opcodes, c);
    LateCopyBreaks(s, c.a, Env(c, LATER), Ch(c), c.b, TheWire(c), [c.a, c.b], LATER);
  }

  // ---------------------------------------------------------------- a lost turn

  lemma Loses(opcodes: map<nat, nat>, c: Scene, s0: Net) returns (s: Net)
    requires Playable(opcodes, c) && Reachable(opcodes, c.a, Ch(c), s0) && Framed(c, s0, {c.tag}, {TheWire(c)}) && At(c, s0, Resting(c))
    ensures Reachable(opcodes, c.a, Ch(c), s) && Framed(c, s, {c.tag}, {}) && At(c, s, Resting(c))
  {
    var l := Drop(TheWire(c));
    s := Step(s0, l);
    Continues(opcodes, c.a, Ch(c), s0, l);
    StepShape(s0, l);
  }

  /** Once the only copy is lost and its sample expired, no place of the turn is left. */
  lemma TurnIsLost(c: Scene, s: Net, n: Node)
    requires IsBridgeFrame(c.offer.payload) && c.a != c.b && At(c, s, n) && Framed(c, s, {c.tag}, {})
    requires n.work == Offering(c).work && n.t.pending == map[] && n.t.turns == Ring(c, false)
    ensures Places(s, Ch(c)) == {} && c.tag in s.spent && (c.b, c.tag) !in s.published
  {
    assert !Live(s, c.b, c.tag);
    NoPlaces(s, Ch(c));
  }

  lemma CanReclaim(opcodes: map<nat, nat>, c: Scene, s: Net, n: Node)
    requires Playable(opcodes, c) && At(c, s, n) && n.work == Offering(c).work
    ensures c.a in s.nodes && CanStep(s, Local(c.a, MakePlan(Env(c, LATER)))) && Proper(opcodes, c.a, MakePlan(Env(c, LATER)))
    ensures TurnMembers(c.a, [c.b])[0] == c.a
  {
    RingOfTwo(c);
  }

  lemma PermitsAgain(c: Scene, n: Node) returns (after: Node)
    requires 0 < c.a < c.b && n.work == Offering(c).work && n.t.turns == Ring(c, false)
    ensures Enabled(n, MakePlan(Env(c, LATER))) && after == Next(n, MakePlan(Env(c, LATER))) && Permitted(after, Ch(c))
  {
    RingOfTwo(c);
    PlanReclaims(n.t, c.offer, false, Env(c, LATER));
    after := Next(n, MakePlan(Env(c, LATER)));
  }

  lemma MayReclaim(opcodes: map<nat, nat>, c: Scene, s: Net, n: Node)
    requires Playable(opcodes, c) && Reachable(opcodes, c.a, Ch(c), s) && At(c, s, n) && Framed(c, s, {c.tag}, {})
    requires n.work == Offering(c).work && n.t.pending == map[] && n.t.seen == map[] && n.t.turns == Ring(c, false)
    ensures CanStep(s, Local(c.a, MakePlan(Env(c, LATER)))) && Reachable(opcodes, c.a, Ch(c), Step(s, Local(c.a, MakePlan(Env(c, LATER)))))
  {
    TurnIsLost(c, s, n);
    CanReclaim(opcodes, c, s, n);
    PlanFollows(opcodes, Ch(c), s, c.a, Env(c, LATER));
  }

  lemma Reclaims(opcodes: map<nat, nat>, c: Scene, s0: Net, n: Node) returns (s: Net)
    requires Playable(opcodes, c) && Reachable(opcodes, c.a, Ch(c), s0) && At(c, s0, n) && Framed(c, s0, {c.tag}, {})
    requires n.work == Offering(c).work && n.t.pending == map[] && n.t.seen == map[] && n.t.turns == Ring(c, false)
    ensures Reachable(opcodes, c.a, Ch(c), s) && c.a in s.nodes && Permitted(s.nodes[c.a], Ch(c))
    ensures s.spent == s0.spent && s.samples == s0.samples && s.published == s0.published
  {
    MayReclaim(opcodes, c, s0, n);
    CanReclaim(opcodes, c, s0, n);
    var after := PermitsAgain(c, n);
    s := PlainStep(s0, c.a, MakePlan(Env(c, LATER)), after);
  }

  /** A turn lost with its only copy is reclaimed in a disciplined run: the lowest member holds it again,
      although the sample that carried it was never published. */
  lemma LostTurnReclaimed(opcodes: map<nat, nat>, c: Scene) returns (s: Net)
    requires Playable(opcodes, c)
    ensures Reachable(opcodes, c.a, Ch(c), s) && c.a in s.nodes && Permitted(s.nodes[c.a], Ch(c))
    ensures c.tag in s.spent && c.tag in s.samples && (s.samples[c.tag].successor, c.tag) !in s.published
  {
    s := Fans(opcodes, c);
    s := Loses(opcodes, c, s);
    var n: Node;
    s, n := Waits(opcodes, c, s, FRESH_NODE);
    s := Reclaims(opcodes, c, s, n);
  }
}
