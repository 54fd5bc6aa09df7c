/** Mutual exclusion of the turn: how the places of a token move with each step, who may mint one, and
    what follows for whole runs. */
module TurnTheorems {
  import opened MeshFrame
  import opened Ordered
  import opened TurnRing
  import opened MeshTables
  import opened MeshWorker
  import opened MeshEffects
  import opened MeshInvariant
  import opened MeshNetwork
  import opened MeshLogs
  import opened TurnTokens
  import opened TurnSafety

  /** The planned send creates a permission its node did not have. */
  predicate Mints(n: Node, e: Event, ch: nat)
    requires Enabled(n, e)
  {
    e.MakePlan? && !Permitted(n, ch) && Permitted(Next(n, e), ch)
  }

  lemma RingMints(t: Tables, o: Offer, resumed: bool, env: PlanEnv, sequence: nat, targets: seq<nat>, ch: nat)
    requires !TurnBefore(t.turns, ch).permitted
    requires TurnBefore(PlanRing(t, o, resumed, env, sequence, targets).0.turns, ch).permitted
    ensures ch == ChannelOf(o.bridge) && env.local != 0 && env.peers != []
    ensures TurnMembers(env.local, env.peers)[0] == env.local
    ensures !TurnBefore(t.turns, ch).initialized || TurnBefore(t.turns, ch).reclaimAt <= env.now
  {}

  lemma PlanMints(t: Tables, o: Offer, resumed: bool, env: PlanEnv, ch: nat)
    requires !TurnBefore(t.turns, ch).permitted && TurnBefore(PlanSend(t, o, resumed, env).0.turns, ch).permitted
    ensures ch == ChannelOf(o.bridge) && env.local != 0 && env.peers != []
    ensures TurnMembers(env.local, env.peers)[0] == env.local
    ensures !TurnBefore(t.turns, ch).initialized || TurnBefore(t.turns, ch).reclaimAt <= env.now
  {
    var (t1, probed) := Probe(t, env);
    var targets := Ascending(set a | a in env.peers + probed);
    if targets != [] {
      var counter := Allocate(t1.nextSequence, t1.pending.Keys);
      RingMints(t1.(nextSequence := counter), o, resumed, env, counter % 0x1_0000, targets, ch);
    }
  }

  /** Only a node that sees itself lowest mints, on first use or once the silence deadline has passed. */
  lemma OnlyLowestMints(n: Node, e: Event, ch: nat)
    requires Enabled(n, e) && Mints(n, e, ch)
    ensures ch == ChannelOf(n.work.job.value.offer.bridge) && e.env.local != 0 && e.env.peers != []
    ensures TurnMembers(e.env.local, e.env.peers)[0] == e.env.local
    ensures !TurnBefore(n.t.turns, ch).initialized || n.t.turns[ch].reclaimAt <= e.env.now
  {
    PlanMints(n.t, n.work.job.value.offer, n.work.job.value.resumed, e.env, ch);
  }

  /** Local events other than the three that concern the turn. */
  predicate TurnFree(e: Event) { IsLocal(e) && !e.MakePlan? && !e.SpendTurn? && !e.FinishSend? }

  lemma QuietTurns(n: Node, e: Event)
    requires Enabled(n, e) && Quiet(e) && TurnFree(e) && !e.Reset?
    ensures Next(n, e).t.turns == n.t.turns
  {
    match e
    case CheckAnswered(_) =>
    case OutboundAnswered(_, _) =>
    case OutboundStillNative =>
    case Remember(_) =>
    case FirstSendAnswered(_, _) =>
    case TakeCancellations(_) =>
    case CancelAnswered(_) =>
  }

  lemma GateTurns(n: Node, o: Offer, resumed: bool, ready: bool, coordinated: bool)
    ensures AfterGate(n, o, resumed, ready, coordinated).t.turns == n.t.turns
  {}

  lemma PlainTurns(n: Node, e: Event)
    requires Enabled(n, e) && (e.OfferValue? || e.ResumeNext? || e.Enqueue?)
    ensures Next(n, e).t.turns == n.t.turns
  {
    match e
    case OfferValue(o, ready, coordinated) => GateTurns(n, o, false, ready, coordinated);
    case ResumeNext(ready, coordinated) =>
      GateTurns(n.(work := n.work.(ready := n.work.ready[1..])), n.work.ready[0], true, ready, coordinated);
    case Enqueue(swarm, tag, now) =>
  }

  lemma FreeSameTurns(n: Node, e: Event)
    requires Enabled(n, e) && TurnFree(e) && !e.Reset?
    ensures Next(n, e).t.turns == n.t.turns
  {
    if e.StartTick? {
      TickEffect(n.t, e.now);
    } else if Quiet(e) {
      QuietTurns(n, e);
    } else {
      PlainTurns(n, e);
    }
  }

  lemma FreeTurns(n: Node, e: Event, ch: nat)
    requires Enabled(n, e) && TurnFree(e) && Permitted(Next(n, e), ch)
    ensures Permitted(n, ch)
  {
    if !e.Reset? { FreeSameTurns(n, e); }
  }

  lemma FreeJobs(n: Node, e: Event, ch: nat)
    requires Enabled(n, e) && TurnFree(e) && AboutToSpend(Next(n, e), ch)
    ensures AboutToSpend(n, ch)
  {}

  lemma PlanHolds(n: Node, e: Event, ch: nat)
    requires Enabled(n, e) && e.MakePlan? && Holds(Next(n, e), ch)
    ensures Holds(n, ch) || Mints(n, e, ch)
  {}

  lemma SpendHolds(n: Node, e: Event, ch: nat)
    requires Enabled(n, e) && e.SpendTurn?
    ensures ch == ChannelOf(n.work.job.value.offer.bridge) ==> !Holds(Next(n, e), ch)
    ensures ch != ChannelOf(n.work.job.value.offer.bridge) && Holds(Next(n, e), ch) ==> Holds(n, ch)
    ensures ch == ChannelOf(n.work.job.value.offer.bridge) && n.work.job.value.phase.plan.consumes ==> Holds(n, ch)
  {}

  lemma FinishHolds(n: Node, ch: nat)
    requires Enabled(n, FinishSend) && Holds(AfterFinish(n), ch)
    ensures Holds(n, ch)
         || (!n.work.job.value.phase.admitted && n.work.job.value.phase.plan.consumes && ch == ChannelOf(n.work.job.value.offer.bridge))
  {}

  // ---------------------------------------------------------------- places move, they do not multiply

  /** At most one place is exchanged for another. */
  ghost predicate Moves(before: set<Place>, after: set<Place>) {
    after <= before || exists x, y :: Exchanges(before, after, x, y)
  }

  ghost predicate Exchanges(before: set<Place>, after: set<Place>, x: Place, y: Place) {
    x in before && after <= before - {x} + {y}
  }

  lemma MovesSize(before: set<Place>, after: set<Place>)
    requires Moves(before, after)
    ensures |after| <= |before|
  {
    if after <= before {
      SubsetSize(after, before);
    } else {
      var x, y :| Exchanges(before, after, x, y);
      SubsetSize(after, before - {x} + {y});
    }
  }

  /** Samples in flight after a local step that neither spends nor withdraws. */
  lemma FlightKept(opcodes: map<nat, nat>, s: Net, a: nat, e: Event, s': Net, ch: nat, i: nat)
    requires NodesLogged(opcodes, s) && SpentAir(s) && CanStep(s, Local(a, e)) && TokenAfter(s, a, e, s')
    requires InFlight(s', ch, i) && i in s.spent
    ensures InFlight(s, ch, i)
  {
    var b := s.samples[i].successor;
    if Live(s', b, i) {
      LocalLive(opcodes, s, a, e, s', b, i);
    } else {
      BackKept(opcodes, s, a, e, s', i);
    }
  }

  ghost predicate FlightsKept(s: Net, s': Net, ch: nat) { forall i | i in s.spent && InFlight(s', ch, i) :: InFlight(s, ch, i) }

  lemma LocalFlights(opcodes: map<nat, nat>, s: Net, a: nat, e: Event, s': Net, ch: nat)
    requires NodesLogged(opcodes, s) && SpentAir(s) && CanStep(s, Local(a, e)) && TokenAfter(s, a, e, s')
    ensures FlightsKept(s, s', ch)
  {
    forall i | i in s.spent && InFlight(s', ch, i) ensures InFlight(s, ch, i) { FlightKept(opcodes, s, a, e, s', ch, i); }
  }

  lemma BackKept(opcodes: map<nat, nat>, s: Net, a: nat, e: Event, s': Net, i: nat)
    requires NodesLogged(opcodes, s) && CanStep(s, Local(a, e)) && LogsAfter(s, a, e, s') && i in s.samples
    requires s.samples[i].source in s'.nodes && TakesBack(s'.nodes[s.samples[i].source], i)
    ensures TakesBack(s.nodes[s.samples[i].source], i)
  {
    assert NodeLogged(opcodes, s.samples, s.framed, s.offered, a, s.nodes[a]);
    if s.samples[i].source == a && !e.Enqueue? { UnsentBefore(s.nodes[a], e); }
  }

  /** Node `a` became `n`: the places afterwards are old ones or listed in `extra`. */
  lemma PlacesFrom(s: Net, a: nat, n: Node, s': Net, ch: nat, extra: set<Place>)
    requires a in s.nodes && s'.nodes == s.nodes[a := n]
    requires Holds(n, ch) ==> Holds(s.nodes[a], ch) || At(a) in extra
    requires forall i | InFlight(s', ch, i) :: InFlight(s, ch, i) || Sent(i) in extra
    ensures Places(s', ch) <= Places(s, ch) + extra
  {
    forall p | IsPlace(s', ch, p) ensures p in Places(s, ch) + extra {
      match p
      case At(b) => assert b != a ==> IsPlace(s, ch, p);
      case Sent(i) => assert InFlight(s', ch, i);
    }
  }

  lemma FreeHolds(n: Node, e: Event, ch: nat)
    requires Enabled(n, e) && TurnFree(e) && Holds(Next(n, e), ch)
    ensures Holds(n, ch)
  {
    if Permitted(Next(n, e), ch) { FreeTurns(n, e, ch); } else { FreeJobs(n, e, ch); }
  }

  lemma FreePlaces(s: Net, a: nat, e: Event, s': Net, ch: nat)
    requires FlightsKept(s, s', ch) && CanStep(s, Local(a, e)) && TurnFree(e) && TokenAfter(s, a, e, s')
    ensures Places(s', ch) <= Places(s, ch)
  {
    if Holds(Next(s.nodes[a], e), ch) { FreeHolds(s.nodes[a], e, ch); }
    PlacesFrom(s, a, Next(s.nodes[a], e), s', ch, {});
  }

  lemma PlanPlaces(s: Net, a: nat, e: Event, s': Net, ch: nat)
    requires FlightsKept(s, s', ch) && CanStep(s, Local(a, e)) && e.MakePlan? && TokenAfter(s, a, e, s')
    ensures Places(s', ch) <= Places(s, ch) + (if Mints(s.nodes[a], e, ch) then {At(a)} else {})
  {
    if Holds(Next(s.nodes[a], e), ch) { PlanHolds(s.nodes[a], e, ch); }
    PlacesFrom(s, a, Next(s.nodes[a], e), s', ch, if Mints(s.nodes[a], e, ch) then {At(a)} else {});
  }

  lemma Exchange(s: Net, s': Net, ch: nat, x: Place, y: Place)
    requires x in Places(s, ch) && x !in Places(s', ch) && Places(s', ch) <= Places(s, ch) + {y}
    ensures Moves(Places(s, ch), Places(s', ch))
  {
    assert Exchanges(Places(s, ch), Places(s', ch), x, y);
  }

  lemma SpendsOwn(opcodes: map<nat, nat>, s: Net, a: nat, e: Event)
    requires NodesLogged(opcodes, s) && CanStep(s, Local(a, e)) && e.SpendTurn?
    ensures var job := s.nodes[a].work.job.value;
            && job.phase.plan.consumes && job.sample in s.samples && s.samples[job.sample].channel == ChannelOf(job.offer.bridge)
  {
    assert NodeLogged(opcodes, s.samples, s.framed, s.offered, a, s.nodes[a]);
  }

  lemma SpendHere(s: Net, a: nat, e: Event, s': Net, ch: nat)
    requires FlightsKept(s, s', ch) && CanStep(s, Local(a, e)) && e.SpendTurn? && TokenAfter(s, a, e, s')
    requires ch == ChannelOf(s.nodes[a].work.job.value.offer.bridge) && s.nodes[a].work.job.value.phase.plan.consumes
    ensures Moves(Places(s, ch), Places(s', ch))
  {
    var tag := s.nodes[a].work.job.value.sample;
    SpendHolds(s.nodes[a], e, ch);
    PlacesFrom(s, a, Next(s.nodes[a], e), s', ch, {Sent(tag)});
    assert IsPlace(s, ch, At(a)) && !IsPlace(s', ch, At(a));
    Exchange(s, s', ch, At(a), Sent(tag));
  }

  lemma SpendElsewhere(s: Net, a: nat, e: Event, s': Net, ch: nat)
    requires FlightsKept(s, s', ch) && CanStep(s, Local(a, e)) && e.SpendTurn? && TokenAfter(s, a, e, s')
    requires ch != ChannelOf(s.nodes[a].work.job.value.offer.bridge)
    requires s.nodes[a].work.job.value.sample in s'.samples
    requires s'.samples[s.nodes[a].work.job.value.sample].channel == ChannelOf(s.nodes[a].work.job.value.offer.bridge)
    ensures Places(s', ch) <= Places(s, ch)
  {
    SpendHolds(s.nodes[a], e, ch);
    assert !InFlight(s', ch, s.nodes[a].work.job.value.sample);
    PlacesFrom(s, a, Next(s.nodes[a], e), s', ch, {});
  }

  /** Spending moves the token from the node into its sample. */
  lemma SpendPlaces(opcodes: map<nat, nat>, s: Net, a: nat, e: Event, s': Net, ch: nat)
    requires NodesLogged(opcodes, s) && FlightsKept(s, s', ch) && CanStep(s, Local(a, e)) && e.SpendTurn? && TokenAfter(s, a, e, s')
    ensures Moves(Places(s, ch), Places(s', ch))
  {
    SpendsOwn(opcodes, s, a, e);
    if ch == ChannelOf(s.nodes[a].work.job.value.offer.bridge) { SpendHere(s, a, e, s', ch); } else { SpendElsewhere(s, a, e, s', ch); }
  }

  /** While no copy was admitted, a sample that consumed the turn is where the token is. */
  lemma UnsentPlace(opcodes: map<nat, nat>, s: Net, a: nat)
    requires NodesLogged(opcodes, s) && TokenOk(s) && a in s.nodes && s.nodes[a].work.job.Some?
    requires var phase := s.nodes[a].work.job.value.phase; phase.Sending? && !phase.admitted && phase.plan.consumes
    ensures InFlight(s, ChannelOf(s.nodes[a].work.job.value.offer.bridge), s.nodes[a].work.job.value.sample)
  {
    var job := s.nodes[a].work.job.value;
    assert NodeLogged(opcodes, s.samples, s.framed, s.offered, a, s.nodes[a]);
    assert NoCopies(s, job.sample);
    assert SpentNode(s.spent, s.nodes[a]);
    assert TakesBack(s.nodes[a], job.sample);
  }

  predicate Withdraws(n: Node, ch: nat) {
    && n.work.job.Some? && n.work.job.value.phase.Sending? && !n.work.job.value.phase.admitted
    && n.work.job.value.phase.plan.consumes && ch == ChannelOf(n.work.job.value.offer.bridge)
  }

  lemma FinishLimit(s: Net, a: nat, e: Event, s': Net, ch: nat)
    requires FlightsKept(s, s', ch) && CanStep(s, Local(a, e)) && e.FinishSend? && TokenAfter(s, a, e, s')
    ensures Places(s', ch) <= Places(s, ch) + (if Withdraws(s.nodes[a], ch) then {At(a)} else {})
    ensures Withdraws(s.nodes[a], ch) ==> !InFlight(s', ch, s.nodes[a].work.job.value.sample)
  {
    if Holds(AfterFinish(s.nodes[a]), ch) { FinishHolds(s.nodes[a], ch); }
    PlacesFrom(s, a, Next(s.nodes[a], e), s', ch, if Withdraws(s.nodes[a], ch) then {At(a)} else {});
  }

  /** Withdrawing a sample no copy of which was admitted takes its token back. */
  lemma FinishPlaces(opcodes: map<nat, nat>, s: Net, a: nat, e: Event, s': Net, ch: nat)
    requires FlightsKept(s, s', ch) && CanStep(s, Local(a, e)) && e.FinishSend? && TokenAfter(s, a, e, s')
    requires NodesLogged(opcodes, s) && TokenOk(s)
    ensures Moves(Places(s, ch), Places(s', ch))
  {
    FinishLimit(s, a, e, s', ch);
    if Withdraws(s.nodes[a], ch) {
      var tag := s.nodes[a].work.job.value.sample;
      UnsentPlace(opcodes, s, a);
      assert IsPlace(s, ch, Sent(tag)) && !IsPlace(s', ch, Sent(tag));
      Exchange(s, s', ch, Sent(tag), At(a));
    }
  }

  /** What receiving may do to the network besides the receiving node. */
  ghost predicate ReceivesOnly(s: Net, a: nat, e: Event, s': Net) {
    && a in s.nodes && Enabled(s.nodes[a], e) && !IsLocal(e) && ReceiveAfter(s, a, e, s')
    && (forall x | x in s'.decoding && x !in s.decoding :: AirLive(s, x.0, s'.decoding[x].sample))
    && (forall x | x in s'.decoding && x in s.decoding :: s'.decoding[x] == s.decoding[x])
    && (forall x | x in s.published :: x in s'.published)
  }

  /** Samples in flight after a receive step were in flight before. */
  lemma ReceivedFlight(s: Net, a: nat, e: Event, s': Net, ch: nat, i: nat)
    requires SpentAir(s) && ReceivesOnly(s, a, e, s') && InFlight(s', ch, i)
    ensures InFlight(s, ch, i)
  {
    ReceiveShrinks(s.nodes[a], e);
    if Live(s', s.samples[i].successor, i) { ReceiveLive(s, a, e, s', s.samples[i].successor, i); }
  }

  lemma ReceivePlaces(s: Net, a: nat, e: Event, s': Net, ch: nat)
    requires SpentAir(s) && ReceivesOnly(s, a, e, s') && (e.ReceiveAck? || e.ReceiveFrame?)
    ensures Places(s', ch) <= Places(s, ch)
  {
    ReceiveShrinks(s.nodes[a], e);
    assert Next(s.nodes[a], e).t.turns == s.nodes[a].t.turns;
    forall i | InFlight(s', ch, i) ensures InFlight(s, ch, i) { ReceivedFlight(s, a, e, s', ch, i); }
    PlacesFrom(s, a, Next(s.nodes[a], e), s', ch, {});
  }

  lemma DecodeTurns(n: Node, e: Event, ch: nat)
    requires Enabled(n, e) && e.DecodeDone? && Holds(Next(n, e), ch)
    ensures Holds(n, ch) || (e.delivered && TurnMarked(e.message.data)
              && ch == Channel(e.message.element, e.message.appKey, ChannelId(e.message.data)))
  {}

  /** The copy being decoded was not published before. */
  lemma FirstPublication(s: Net, l: Label)
    requires AirLogged(s) && TokenOk(s) && CanStep(s, l) && l.Decode?
    ensures l.w.sample in s.samples && (l.a, l.w.sample) !in s.published && Live(s, l.a, l.w.sample)
  {
    assert DecodeLive(s, l.a, l.w.sample);
  }

  lemma DecodesOnly(s: Net, l: Label)
    requires AirLogged(s) && CanStep(s, l) && l.Decode?
    ensures ReceivesOnly(s, l.a, DecodeDone(Message(l.w), l.delivered, l.local, l.members, l.when), Step(s, l))
  {
    StepShape(s, l);
  }

  /** The decoded copy is turn-marked, for this channel, and gets published. */
  ghost predicate TakesTurn(s: Net, l: Label, ch: nat)
    requires AirLogged(s) && CanStep(s, l) && l.Decode?
  {
    l.delivered && TurnMarked(l.w.data) && ch == s.samples[l.w.sample].channel
  }

  lemma TakenFlight(s: Net, l: Label, ch: nat)
    requires AirLogged(s) && TokenOk(s) && CanStep(s, l) && l.Decode? && TakesTurn(s, l, ch)
    ensures InFlight(s, ch, l.w.sample) && !InFlight(Step(s, l), ch, l.w.sample)
  {
    FirstPublication(s, l);
    assert CopyOk(s.samples, s.framed, l.w);
  }

  lemma DecodeLimit(s: Net, l: Label, s': Net, ch: nat)
    requires AirLogged(s) && TokenOk(s) && CanStep(s, l) && l.Decode? && s' == Step(s, l)
    ensures Places(s', ch) <= Places(s, ch) + (if TakesTurn(s, l, ch) then {At(l.a)} else {})
  {
    var e := DecodeDone(Message(l.w), l.delivered, l.local, l.members, l.when);
    DecodesOnly(s, l);
    if Holds(Next(s.nodes[l.a], e), ch) { DecodeTurns(s.nodes[l.a], e, ch); }
    forall i | InFlight(s', ch, i) ensures InFlight(s, ch, i) { ReceivedFlight(s, l.a, e, s', ch, i); }
    PlacesFrom(s, l.a, Next(s.nodes[l.a], e), s', ch, if TakesTurn(s, l, ch) then {At(l.a)} else {});
  }

  /** Publishing the turn-marked copy moves the token from the sample to its successor. */
  lemma DecodePlaces(s: Net, l: Label, s': Net, ch: nat)
    requires AirLogged(s) && TokenOk(s) && CanStep(s, l) && l.Decode? && s' == Step(s, l)
    ensures Moves(Places(s, ch), Places(s', ch))
  {
    DecodeLimit(s, l, s', ch);
    if TakesTurn(s, l, ch) {
      TakenFlight(s, l, ch);
      assert IsPlace(s, ch, Sent(l.w.sample)) && !IsPlace(s', ch, Sent(l.w.sample));
      Exchange(s, s', ch, Sent(l.w.sample), At(l.a));
    }
  }

  ghost predicate StepMints(s: Net, l: Label, ch: nat)
    requires CanStep(s, l)
  {
    l.Local? && Mints(s.nodes[l.a], l.e, ch)
  }

  lemma LocalPlaces(opcodes: map<nat, nat>, s: Net, a: nat, e: Event, s': Net, ch: nat)
    requires Logged(opcodes, s) && TokenOk(s) && CanStep(s, Local(a, e)) && TokenAfter(s, a, e, s')
    ensures Moves(Places(s, ch), Places(s', ch))
         || (Mints(s.nodes[a], e, ch) && Places(s', ch) <= Places(s, ch) + {At(a)})
  {
    LocalFlights(opcodes, s, a, e, s', ch);
    if TurnFree(e) {
      FreePlaces(s, a, e, s', ch);
    } else if e.MakePlan? {
      PlanPlaces(s, a, e, s', ch);
    } else if e.SpendTurn? {
      SpendPlaces(opcodes, s, a, e, s', ch);
    } else {
      FinishPlaces(opcodes, s, a, e, s', ch);
    }
  }

  lemma DropPlaces(s: Net, w: Wire, ch: nat)
    ensures Places(s.(air := s.air - {w}), ch) <= Places(s, ch)
  {
    var s' := s.(air := s.air - {w});
    forall p | IsPlace(s', ch, p) ensures IsPlace(s, ch, p) {
      if p.Sent? {
        var b := s.samples[p.tag].successor;
        if AirLive(s', b, p.tag) { assert AirLive(s, b, p.tag); }
        if DecodeLive(s', b, p.tag) { assert DecodeLive(s, b, p.tag); }
      }
    }
  }

  lemma DeliversOnly(s: Net, a: nat, w: Wire, now: Time)
    requires DecodingSeen(s) && CanStep(s, Deliver(a, w, now))
    ensures ReceivesOnly(s, a, ReceiveEvent(w, now), Step(s, Deliver(a, w, now)))
  {
    StepShape(s, Deliver(a, w, now));
    DeliverSeen(s, a, w, now);
    if Decodes(s, a, w, now) {
      DecodesData(s.nodes[a].t, w, now);
      assert AirLive(s, a, w.sample);
    }
  }

  lemma StepPlaces(opcodes: map<nat, nat>, s: Net, l: Label, ch: nat)
    requires Logged(opcodes, s) && TokenOk(s) && CanStep(s, l)
    ensures Moves(Places(s, ch), Places(Step(s, l), ch))
         || (l.Local? && Mints(s.nodes[l.a], l.e, ch) && Places(Step(s, l), ch) <= Places(s, ch) + {At(l.a)})
  {
    StepShape(s, l);
    match l
    case Local(a, e) => LocalPlaces(opcodes, s, a, e, Step(s, l), ch);
    case Deliver(a, w, now) =>
      DeliversOnly(s, a, w, now);
      ReceivePlaces(s, a, ReceiveEvent(w, now), Step(s, l), ch);
    case Decode(_, _, _, _, _, _) => DecodePlaces(s, l, Step(s, l), ch);
    case Drop(w) => DropPlaces(s, w, ch);
  }

  /** Sending, refusal of every copy, repair, duplication, loss, delivery, expiry and eviction never
      raise the number of tokens of a channel; a mint raises it by at most one, its own node's. */
  lemma TokensNeverMultiply(opcodes: map<nat, nat>, s: Net, l: Label, ch: nat)
    requires Logged(opcodes, s) && TokenOk(s) && CanStep(s, l)
    ensures |Places(Step(s, l), ch)| <= |Places(s, ch)| + (if StepMints(s, l, ch) then 1 else 0)
    ensures Places(s, ch) == {} && !StepMints(s, l, ch) ==> Places(Step(s, l), ch) == {}
  {
    StepPlaces(opcodes, s, l, ch);
    if Moves(Places(s, ch), Places(Step(s, l), ch)) {
      MovesSize(Places(s, ch), Places(Step(s, l), ch));
    } else {
      SubsetSize(Places(Step(s, l), ch), Places(s, ch) + {At(l.a)});
    }
  }

  // ---------------------------------------------------------------- whole runs

  predicate Initialized(n: Node, ch: nat) { TurnBefore(n.t.turns, ch).initialized }

  /** All nodes that compute a ring see the same lowest member, and that member is never reset. */
  ghost predicate Agreed(lowest: nat, l: Label) {
    l.Local? ==>
      && (l.e.MakePlan? && l.e.env.local != 0 && l.e.env.peers != [] ==> TurnMembers(l.e.env.local, l.e.env.peers)[0] == lowest)
      && (l.e.Reset? ==> l.a != lowest)
  }

  /** A turn is reclaimed after silence only when nobody holds it and no copy that carries it may arrive. */
  ghost predicate ReclaimsLost(s: Net, l: Label, ch: nat)
    requires CanStep(s, l)
  {
    StepMints(s, l, ch) && Initialized(s.nodes[l.a], ch) ==> Places(s, ch) == {}
  }

  ghost predicate Disciplined(opcodes: map<nat, nat>, lowest: nat, ch: nat, s: Net, l: Label) {
    && CanStep(s, l) && ProperLabel(opcodes, l) && ForgetsOnlyDead(s, l) && Agreed(lowest, l) && ReclaimsLost(s, l, ch)
  }

  ghost predicate Follows(opcodes: map<nat, nat>, lowest: nat, ch: nat, s: Net, l: Label, s': Net) {
    Disciplined(opcodes, lowest, ch, s, l) && s' == Step(s, l)
  }

  /** Every state is linked to the next by its label. */
  ghost predicate Chained<S, L>(link: (S, L, S) -> bool, trace: seq<S>, labels: seq<L>) {
    |trace| == |labels| + 1 && forall i | 0 <= i < |labels| :: link(trace[i], labels[i], trace[i + 1])
  }

  ghost function Discipline(opcodes: map<nat, nat>, lowest: nat, ch: nat): (Net, Label, Net) -> bool {
    (s, l, s') => Follows(opcodes, lowest, ch, s, l, s')
  }

  ghost predicate IsNetRun(opcodes: map<nat, nat>, lowest: nat, ch: nat, trace: seq<Net>, labels: seq<Label>) {
    Chained(Discipline(opcodes, lowest, ch), trace, labels) && Initial(trace[0])
  }

  /** One token at most, and none before the lowest member first used the channel. */
  ghost predicate OneToken(lowest: nat, ch: nat, s: Net) {
    |Places(s, ch)| <= 1 && (lowest in s.nodes && !Initialized(s.nodes[lowest], ch) ==> Places(s, ch) == {})
  }

  lemma FreeInitialized(n: Node, e: Event, ch: nat)
    requires Enabled(n, e) && TurnFree(e) && !e.Reset? && Initialized(n, ch)
    ensures Initialized(Next(n, e), ch)
  {
    FreeSameTurns(n, e);
  }

  /** Planning changes at most the turn of its channel, and only with a known ring. */
  lemma PlanTurns(t: Tables, o: Offer, resumed: bool, env: PlanEnv)
    ensures var after := PlanSend(t, o, resumed, env).0.turns; var c := ChannelOf(o.bridge);
            after in {t.turns, t.turns[c := TurnAt(t.turns, c, TurnMembers(env.local, env.peers), env.local, env.now)]}
  {
    var (t1, probed) := Probe(t, env);
    assert t1.turns == t.turns;
  }

  lemma PlanInitialized(turns: map<nat, Turn>, c: nat, members: seq<nat>, local: nat, now: Time, ch: nat)
    requires members != []
    ensures var after := turns[c := TurnAt(turns, c, members, local, now)];
            TurnBefore(turns, ch).initialized || c == ch ==> TurnBefore(after, ch).initialized
  {}

  lemma TurnInitialized(n: Node, e: Event, ch: nat)
    requires Enabled(n, e) && (e.MakePlan? || e.SpendTurn? || e.FinishSend?) && (Initialized(n, ch) || Mints(n, e, ch))
    ensures Initialized(Next(n, e), ch)
  {
    if e.MakePlan? {
      var offer := n.work.job.value.offer;
      PlanTurns(n.t, offer, n.work.job.value.resumed, e.env);
      PlanInitialized(n.t.turns, ChannelOf(offer.bridge), TurnMembers(e.env.local, e.env.peers), e.env.local, e.env.now, ch);
    }
  }

  lemma ReceiveInitialized(n: Node, e: Event, ch: nat)
    requires Enabled(n, e) && !IsLocal(e) && Initialized(n, ch)
    ensures Initialized(Next(n, e), ch)
  {
    if !e.DecodeDone? { assert Next(n, e).t.turns == n.t.turns; }
  }

  lemma StepInitialized(s: Net, l: Label, b: nat, ch: nat)
    requires CanStep(s, l) && b in s.nodes && (l.Local? && l.e.Reset? ==> l.a != b)
    requires Initialized(s.nodes[b], ch) || (StepMints(s, l, ch) && l.a == b)
    ensures Initialized(Step(s, l).nodes[b], ch)
  {
    StepShape(s, l);
    match l
    case Local(a, e) => if a == b { if TurnFree(e) { FreeInitialized(s.nodes[a], e, ch); } else { TurnInitialized(s.nodes[a], e, ch); } }
    case Deliver(a, w, now) => if a == b { ReceiveInitialized(s.nodes[a], ReceiveEvent(w, now), ch); }
    case Decode(a, w, delivered, local, members, now) =>
      if a == b { ReceiveInitialized(s.nodes[a], DecodeDone(Message(w), delivered, local, members, now), ch); }
    case Drop(_) =>
  }

  lemma MinterIsLowest(opcodes: map<nat, nat>, lowest: nat, ch: nat, s: Net, l: Label)
    requires Disciplined(opcodes, lowest, ch, s, l) && StepMints(s, l, ch)
    ensures l.a == lowest
  {
    OnlyLowestMints(s.nodes[l.a], l.e, ch);
  }

  lemma StepOneToken(opcodes: map<nat, nat>, lowest: nat, ch: nat, s: Net, l: Label)
    requires Logged(opcodes, s) && TokenOk(s) && Disciplined(opcodes, lowest, ch, s, l) && OneToken(lowest, ch, s)
    ensures OneToken(lowest, ch, Step(s, l))
  {
    TokensNeverMultiply(opcodes, s, l, ch);
    if StepMints(s, l, ch) {
      MinterIsLowest(opcodes, lowest, ch, s, l);
      StepInitialized(s, l, lowest, ch);
    } else if lowest in s.nodes && Initialized(s.nodes[lowest], ch) {
      StepInitialized(s, l, lowest, ch);
    } else {
      StepShape(s, l);
    }
  }

  lemma InitialTokens(lowest: nat, ch: nat, s: Net)
    requires Initial(s)
    ensures TokenOk(s) && OneToken(lowest, ch, s)
  {
    assert forall p :: !IsPlace(s, ch, p);
    assert Places(s, ch) == {};
  }

  lemma FollowsKeeps(opcodes: map<nat, nat>, lowest: nat, ch: nat, s: Net, l: Label, s': Net)
    requires Follows(opcodes, lowest, ch, s, l, s') && Logged(opcodes, s) && TokenOk(s) && OneToken(lowest, ch, s)
    ensures Logged(opcodes, s') && TokenOk(s') && OneToken(lowest, ch, s')
  {
    StepLogged(opcodes, s, l);
    StepTokenOk(opcodes, s, l);
    StepOneToken(opcodes, lowest, ch, s, l);
  }

  lemma {:induction false} ChainKeeps<S(!new), L(!new)>(link: (S, L, S) -> bool, inv: S -> bool, trace: seq<S>, labels: seq<L>, i: nat)
    requires Chained(link, trace, labels) && i <= |labels| && inv(trace[0])
    requires forall s, l, s' | link(s, l, s') && inv(s) :: inv(s')
    ensures inv(trace[i])
  {
    if i > 0 {
      ChainKeeps(link, inv, trace, labels, i - 1);
      assert link(trace[i - 1], labels[i - 1], trace[i]);
    }
  }

  ghost predicate TokenInv(opcodes: map<nat, nat>, lowest: nat, ch: nat, s: Net) {
    Logged(opcodes, s) && TokenOk(s) && OneToken(lowest, ch, s)
  }

  lemma StartsWell(opcodes: map<nat, nat>, lowest: nat, ch: nat, s: Net)
    requires Initial(s)
    ensures TokenInv(opcodes, lowest, ch, s)
  {
    InitialLogged(opcodes, s);
    InitialTokens(lowest, ch, s);
  }

  lemma DisciplineKeeps(opcodes: map<nat, nat>, lowest: nat, ch: nat)
    ensures forall s, l, s' | Discipline(opcodes, lowest, ch)(s, l, s') && TokenInv(opcodes, lowest, ch, s) :: TokenInv(opcodes, lowest, ch, s')
  {
    forall s, l, s' | Discipline(opcodes, lowest, ch)(s, l, s') && TokenInv(opcodes, lowest, ch, s) ensures TokenInv(opcodes, lowest, ch, s') {
      FollowsKeeps(opcodes, lowest, ch, s, l, s');
    }
  }

  lemma RunTokens(opcodes: map<nat, nat>, lowest: nat, ch: nat, trace: seq<Net>, labels: seq<Label>, i: nat)
    requires IsNetRun(opcodes, lowest, ch, trace, labels) && i <= |labels|
    ensures Logged(opcodes, trace[i]) && TokenOk(trace[i]) && OneToken(lowest, ch, trace[i])
  {
    StartsWell(opcodes, lowest, ch, trace[0]);
    DisciplineKeeps(opcodes, lowest, ch);
    ChainKeeps(Discipline(opcodes, lowest, ch), s => TokenInv(opcodes, lowest, ch, s), trace, labels, i);
  }

  lemma OnePlace(s: Net, ch: nat, x: Place, y: Place)
    requires |Places(s, ch)| <= 1 && IsPlace(s, ch, x) && IsPlace(s, ch, y)
    ensures x == y
  {
    SubsetSize({x, y}, Places(s, ch));
  }

  /** Mutual exclusion: in every disciplined run, at every moment, no two nodes are permitted on a channel,
      and no node is permitted while a sample that carries the turn is still to be published. */
  lemma MutualExclusion(opcodes: map<nat, nat>, lowest: nat, ch: nat, trace: seq<Net>, labels: seq<Label>, i: nat, a: nat)
    requires IsNetRun(opcodes, lowest, ch, trace, labels) && i <= |labels|
    requires a in trace[i].nodes && Permitted(trace[i].nodes[a], ch)
    ensures forall b | b in trace[i].nodes && b != a :: !Permitted(trace[i].nodes[b], ch)
    ensures forall tag :: !InFlight(trace[i], ch, tag)
  {
    RunTokens(opcodes, lowest, ch, trace, labels, i);
    OthersNotPermitted(trace[i], ch, a);
  }

  lemma OthersNotPermitted(s: Net, ch: nat, a: nat)
    requires |Places(s, ch)| <= 1 && a in s.nodes && Permitted(s.nodes[a], ch)
    ensures forall b | b in s.nodes && b != a :: !Permitted(s.nodes[b], ch)
    ensures forall tag :: !InFlight(s, ch, tag)
  {
    forall p | IsPlace(s, ch, p) ensures p == At(a) { OnePlace(s, ch, At(a), p); }
    forall b | b in s.nodes && Permitted(s.nodes[b], ch) ensures b == a { assert IsPlace(s, ch, At(b)); }
    forall tag ensures !InFlight(s, ch, tag) { assert !IsPlace(s, ch, Sent(tag)); }
  }

  // ---------------------------------------------------------------- exactly when a reclaim is safe

  /** Planning a send puts no copy on the air and takes none away. */
  lemma PlanKeepsFlight(s: Net, a: nat, e: Event, s': Net, ch: nat, i: nat)
    requires CanStep(s, Local(a, e)) && e.MakePlan? && TokenAfter(s, a, e, s') && InFlight(s, ch, i)
    ensures InFlight(s', ch, i)
  {
    var n, after := s.nodes[a], Next(s.nodes[a], e);
    assert after.t.pending == n.t.pending && after.work.outbound == n.work.outbound;
    var b := s.samples[i].successor;
    assert AirLive(s, b, i) ==> AirLive(s', b, i);
    assert DecodeLive(s, b, i) ==> DecodeLive(s', b, i);
    assert SourceLive(n, i, b) ==> SourceLive(after, i, b);
  }

  lemma MintKeeps(s: Net, a: nat, e: Event, s': Net, ch: nat)
    requires CanStep(s, Local(a, e)) && Mints(s.nodes[a], e, ch) && TokenAfter(s, a, e, s')
    ensures Places(s, ch) + {At(a)} <= Places(s', ch) && At(a) !in Places(s, ch)
  {
    assert IsPlace(s', ch, At(a));
    forall p | IsPlace(s, ch, p) ensures IsPlace(s', ch, p) {
      match p
      case At(b) => assert b != a ==> s'.nodes[b] == s.nodes[b];
      case Sent(i) => PlanKeepsFlight(s, a, e, s', ch, i);
    }
  }

  lemma Between(a: set<Place>, b: set<Place>, c: set<Place>)
    requires a + b <= c <= a + b
    ensures c == a + b
  {}

  lemma MintAdds(opcodes: map<nat, nat>, s: Net, a: nat, e: Event, s': Net, ch: nat)
    requires NodesLogged(opcodes, s) && CanStep(s, Local(a, e)) && Mints(s.nodes[a], e, ch) && SpentAir(s) && TokenAfter(s, a, e, s')
    ensures Places(s', ch) == Places(s, ch) + {At(a)} && At(a) !in Places(s, ch)
  {
    MintKeeps(s, a, e, s', ch);
    LocalFlights(opcodes, s, a, e, s', ch);
    PlanPlaces(s, a, e, s', ch);
    Between(Places(s, ch), {At(a)}, Places(s', ch));
  }

  ghost predicate NobodyHolds(s: Net, ch: nat) { forall b | b in s.nodes :: !Holds(s.nodes[b], ch) }

  /** No sample that carries the turn can still be published by its successor or taken back. */
  ghost predicate NoTurnOnItsWay(s: Net, ch: nat) {
    forall i | i in s.spent && i in s.samples && s.samples[i].channel == ch && (s.samples[i].successor, i) !in s.published :: !Recoverable(s, i)
  }

  lemma NoPlaces(s: Net, ch: nat)
    ensures Places(s, ch) == {} <==> NobodyHolds(s, ch) && NoTurnOnItsWay(s, ch)
  {
    if Places(s, ch) == {} {
      forall b | b in s.nodes ensures !Holds(s.nodes[b], ch) { assert !IsPlace(s, ch, At(b)); }
      forall i | i in s.spent && i in s.samples && s.samples[i].channel == ch && (s.samples[i].successor, i) !in s.published
        ensures !Recoverable(s, i)
      {
        assert !IsPlace(s, ch, Sent(i));
      }
    } else {
      var p :| p in Places(s, ch);
      assert IsPlace(s, ch, p);
    }
  }

  lemma OneMore(before: set<Place>, after: set<Place>, x: Place)
    requires after == before + {x} && x !in before
    ensures |after| == |before| + 1 && (|after| <= 1 <==> before == {})
  {}

  /** A mint leaves one token exactly when the turn was really lost: nobody held it, and no copy that
      carried it could still arrive. Samples whose copies are all gone do not stand in the way. */
  lemma ReclaimSafeIff(opcodes: map<nat, nat>, s: Net, l: Label, ch: nat)
    requires Logged(opcodes, s) && TokenOk(s) && CanStep(s, l) && StepMints(s, l, ch)
    ensures |Places(Step(s, l), ch)| == |Places(s, ch)| + 1
    ensures |Places(Step(s, l), ch)| <= 1 <==> NobodyHolds(s, ch) && NoTurnOnItsWay(s, ch)
  {
    StepShape(s, l);
    MintAdds(opcodes, s, l.a, l.e, Step(s, l), ch);
    OneMore(Places(s, ch), Places(Step(s, l), ch), At(l.a));
    NoPlaces(s, ch);
  }

  lemma PlanReclaims(t: Tables, o: Offer, resumed: bool, env: PlanEnv)
    requires env.local != 0 && env.peers != [] && TurnMembers(env.local, env.peers)[0] == env.local
    requires TurnBefore(t.turns, ChannelOf(o.bridge)).initialized && TurnBefore(t.turns, ChannelOf(o.bridge)).reclaimAt <= env.now
    ensures TurnBefore(PlanSend(t, o, resumed, env).0.turns, ChannelOf(o.bridge)).permitted
  {
    var (t1, probed) := Probe(t, env);
    assert env.peers[0] in Ascending(set a | a in env.peers + probed);
  }

  lemma ReclaimPermits(n: Node, env: PlanEnv)
    requires Enabled(n, MakePlan(env)) && env.local != 0 && env.peers != [] && TurnMembers(env.local, env.peers)[0] == env.local
    requires var ch := ChannelOf(n.work.job.value.offer.bridge); Initialized(n, ch) && n.t.turns[ch].reclaimAt <= env.now
    ensures Permitted(Next(n, MakePlan(env)), ChannelOf(n.work.job.value.offer.bridge))
  {
    PlanReclaims(n.t, n.work.job.value.offer, n.work.job.value.resumed, env);
  }

  /** It is not enough that no turn-marked copy is outstanding: whenever a silent node still holds the
      turn, the reclaim of the lowest member after its deadline leaves two nodes permitted. */
  lemma SilentHolderBreaks(s: Net, a: nat, env: PlanEnv, ch: nat, b: nat)
    requires CanStep(s, Local(a, MakePlan(env))) && ch == ChannelOf(s.nodes[a].work.job.value.offer.bridge)
    requires env.local != 0 && env.peers != [] && TurnMembers(env.local, env.peers)[0] == env.local
    requires Initialized(s.nodes[a], ch) && s.nodes[a].t.turns[ch].reclaimAt <= env.now
    requires b in s.nodes && b != a && Permitted(s.nodes[b], ch)
    ensures var s' := Step(s, Local(a, MakePlan(env))); Permitted(s'.nodes[a], ch) && Permitted(s'.nodes[b], ch)
  {
    ReclaimPermits(s.nodes[a], env);
    StepShape(s, Local(a, MakePlan(env)));
  }

  lemma CopyTaken(n: Node, w: Wire, members: seq<nat>, local: nat, now: Time)
    requires TurnMarked(w.data) && WireKey(w) !in n.t.seen && local != 0
    ensures Enabled(n, ReceiveEvent(w, now)) && FrameReceived(n.t, w.src, w.appKey, w.data, now).1
    ensures var m := Next(n, ReceiveEvent(w, now)); var e := DecodeDone(Message(w), true, local, members, now);
            Enabled(m, e) && Permitted(Next(m, e), Channel(w.element, w.appKey, ChannelId(w.data)))
  {}

  /** Two steps deliver and publish a marked copy its receiver has not seen; nobody else changes. */
  lemma CopyArrives(s: Net, b: nat, w: Wire, members: seq<nat>, now: Time) returns (s': Net)
    requires b in s.nodes && b != 0 && w in s.air && w.dst == b && TurnMarked(w.data) && WireKey(w) !in s.nodes[b].t.seen
    ensures CanStep(s, Deliver(b, w, now)) && CanStep(Step(s, Deliver(b, w, now)), Decode(b, w, true, b, members, now))
    ensures s' == Step(Step(s, Deliver(b, w, now)), Decode(b, w, true, b, members, now))
    ensures b in s'.nodes && Permitted(s'.nodes[b], Channel(w.element, w.appKey, ChannelId(w.data)))
    ensures forall a | a in s.nodes && a != b :: a in s'.nodes && s'.nodes[a] == s.nodes[a]
  {
    CopyTaken(s.nodes[b], w, members, b, now);
    var mid := Step(s, Deliver(b, w, now));
    StepShape(s, Deliver(b, w, now));
    assert mid.nodes[b] == Next(s.nodes[b], ReceiveEvent(w, now)) && (b, WireKey(w)) in mid.decoding;
    s' := Step(mid, Decode(b, w, true, b, members, now));
    StepShape(mid, Decode(b, w, true, b, members, now));
  }

  /** The plan of `a`, the delivery of `w` to `b` and its publication follow each other, and then both nodes are permitted. */
  ghost predicate ReclaimThenCopy(s: Net, a: nat, env: PlanEnv, ch: nat, b: nat, w: Wire, members: seq<nat>, now: Time) {
    && CanStep(s, Local(a, MakePlan(env)))
    && var s1 := Step(s, Local(a, MakePlan(env)));
    && CanStep(s1, Deliver(b, w, now))
    && var s2 := Step(s1, Deliver(b, w, now));
    && CanStep(s2, Decode(b, w, true, b, members, now))
    && var s3 := Step(s2, Decode(b, w, true, b, members, now));
    {a, b} <= s3.nodes.Keys && Permitted(s3.nodes[a], ch) && Permitted(s3.nodes[b], ch)
  }

  /** Nor is it enough that nobody holds the turn: while a marked copy its receiver has not seen is still on
      the air, the due reclaim and the arrival of the copy leave two nodes permitted. */
  lemma LateCopyBreaks(s: Net, a: nat, env: PlanEnv, ch: nat, b: nat, w: Wire, members: seq<nat>, now: Time)
    requires CanStep(s, Local(a, MakePlan(env))) && ch == ChannelOf(s.nodes[a].work.job.value.offer.bridge)
    requires env.local != 0 && env.peers != [] && TurnMembers(env.local, env.peers)[0] == env.local
    requires Initialized(s.nodes[a], ch) && s.nodes[a].t.turns[ch].reclaimAt <= env.now
    requires b in s.nodes && a != b && b != 0 && w in s.air && w.dst == b && WireKey(w) !in s.nodes[b].t.seen
    requires TurnMarked(w.data) && ch == Channel(w.element, w.appKey, ChannelId(w.data))
    ensures ReclaimThenCopy(s, a, env, ch, b, w, members, now)
  {
    ReclaimPermits(s.nodes[a], env);
    StepShape(s, Local(a, MakePlan(env)));
    var s3 := CopyArrives(Step(s, Local(a, MakePlan(env))), b, w, members, now);
  }

  // ---------------------------------------------------------------- one marked copy per sample

  lemma RingHandsOn(t: Tables, o: Offer, resumed: bool, env: PlanEnv, sequence: nat, targets: seq<nat>)
    ensures var plan := PlanRing(t, o, resumed, env, sequence, targets).1;
            plan.Some? && plan.value.consumes ==>
              env.peers != [] && plan.value.successor == Successor(TurnMembers(env.local, env.peers), env.local)
  {}

  /** A send that consumes the turn hands it to the ring successor of its node. */
  lemma PlanHandsOn(t: Tables, o: Offer, resumed: bool, env: PlanEnv, plan: Plan)
    requires PlanSend(t, o, resumed, env).1 == Some(plan) && plan.consumes && env.local !in env.peers
    ensures plan.successor == Successor(TurnMembers(env.local, env.peers), env.local) && plan.successor in env.peers
  {
    var (t1, probed) := Probe(t, env);
    var counter := Allocate(t1.nextSequence, t1.pending.Keys);
    RingHandsOn(t1.(nextSequence := counter), o, resumed, env, counter % 0x1_0000, Ascending(set a | a in env.peers + probed));
    SuccessorIsPeer(env.local, env.peers);
  }

  /** The successor is one of the destinations and the only one whose copy is turn-marked. */
  lemma OneMarkedCopy(plan: Plan, wrapped: DataFrame) returns (k: nat)
    requires PlanOk(plan) && plan.consumes
    ensures k < |plan.targets| && plan.targets[k] == plan.successor
    ensures forall j | 0 <= j < |plan.targets| :: Marked(wrapped, plan.targets[j] == plan.successor)[3] == RELIABLE_DATA <==> j == k
  {
    k :| 0 <= k < |plan.targets| && plan.targets[k] == plan.successor;
  }
}
