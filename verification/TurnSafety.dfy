/** Turn-token safety over whole runs: no step but a mint by the lowest member raises the number of
    tokens of a channel, and with an agreed lowest member two nodes are never both permitted. */
module TurnSafety {
  import opened MeshFrame
  import opened MeshTables
  import opened MeshWorker
  import opened MeshInvariant
  import opened MeshNetwork
  import opened MeshLogs
  import opened TurnTokens

  // ---------------------------------------------------------------- local steps keep the invariant

  ghost predicate TokenAfter(s: Net, a: nat, e: Event, s': Net)
    requires CanStep(s, Local(a, e))
  {
    LogsAfter(s, a, e, s') && s'.spent == SpentAfter(s.spent, s.nodes[a], e)
  }

  /** A tag withdrawn by a failed send has left no trace. */
  lemma WithdrawnHidden(s: Net, a: nat, e: Event, i: nat)
    requires CanStep(s, Local(a, e)) && UnsentHidden(s) && i in s.spent && i !in SpentAfter(s.spent, s.nodes[a], e)
    ensures NoCopies(s, i) && e.FinishSend? && s.nodes[a].work.job.value.sample == i
  {}

  lemma SpentChange(spent: set<nat>, n: Node, e: Event)
    requires Enabled(n, e)
    ensures var after := SpentAfter(spent, n, e);
            spent <= after || (e.FinishSend? && after == spent - {n.work.job.value.sample})
  {}

  lemma WithdrawnElsewhere(opcodes: map<nat, nat>, s: Net, a: nat, b: nat)
    requires NodesLogged(opcodes, s) && a in s.nodes && Enabled(s.nodes[a], FinishSend)
    requires b in s.nodes && b != a && SpentNode(s.spent, s.nodes[b])
    ensures SpentNode(s.spent - {s.nodes[a].work.job.value.sample}, s.nodes[b])
  {
    assert NodeLogged(opcodes, s.samples, s.framed, s.offered, b, s.nodes[b]);
    assert NodeLogged(opcodes, s.samples, s.framed, s.offered, a, s.nodes[a]);
    OthersSpent(opcodes, s.samples, s.framed, b, s.spent, s.nodes[b], s.nodes[a].work.job.value.sample);
  }

  lemma OtherSpentNode(opcodes: map<nat, nat>, s: Net, a: nat, e: Event, b: nat)
    requires NodesLogged(opcodes, s) && CanStep(s, Local(a, e)) && b in s.nodes && b != a && SpentNode(s.spent, s.nodes[b])
    ensures SpentNode(SpentAfter(s.spent, s.nodes[a], e), s.nodes[b])
  {
    SpentChange(s.spent, s.nodes[a], e);
    if s.spent <= SpentAfter(s.spent, s.nodes[a], e) {
      MoreSpent(s.spent, SpentAfter(s.spent, s.nodes[a], e), s.nodes[b]);
    } else {
      WithdrawnElsewhere(opcodes, s, a, b);
    }
  }

  lemma LocalSpentNodes(opcodes: map<nat, nat>, s: Net, a: nat, e: Event, s': Net)
    requires NodesLogged(opcodes, s) && TokenOk(s) && CanStep(s, Local(a, e)) && TokenAfter(s, a, e, s')
    ensures forall b | b in s'.nodes :: SpentNode(s'.spent, s'.nodes[b])
  {
    forall b | b in s'.nodes ensures SpentNode(s'.spent, s'.nodes[b]) {
      if b == a {
        assert NodeLogged(opcodes, s.samples, s.framed, s.offered, a, s.nodes[a]);
        LocalSpent(opcodes, s.samples, s.framed, a, s.spent, s.nodes[a], e);
      } else {
        OtherSpentNode(opcodes, s, a, e, b);
      }
    }
  }

  lemma MoreSpent(spent: set<nat>, more: set<nat>, n: Node)
    requires SpentNode(spent, n) && spent <= more
    ensures SpentNode(more, n)
  {}

  lemma NewWiresSpent(n: Node, a: nat, e: Event, spent: set<nat>, w: Wire)
    requires Enabled(n, e) && SpentNode(spent, n) && w in NewWires(a, n, e) && TurnMarked(w.data)
    requires n.work.job.Some? ==> 0 !in Targets(n.work.job.value)
    ensures w.sample in SpentAfter(spent, n, e)
  {
    if e.OutboundAnswered? { assert n.work.outbound[0] in n.work.outbound; }
  }

  function Targets(job: Job): seq<nat> { if job.phase.Planning? then [] else job.phase.plan.targets }

  lemma NewWireSpent(opcodes: map<nat, nat>, s: Net, a: nat, e: Event, w: Wire)
    requires NodesLogged(opcodes, s) && TokenOk(s) && CanStep(s, Local(a, e)) && w in NewWires(a, s.nodes[a], e) && TurnMarked(w.data)
    ensures w.sample in SpentAfter(s.spent, s.nodes[a], e)
  {
    assert NodeLogged(opcodes, s.samples, s.framed, s.offered, a, s.nodes[a]);
    NewWiresSpent(s.nodes[a], a, e, s.spent, w);
  }

  lemma LocalSpentAir(opcodes: map<nat, nat>, s: Net, a: nat, e: Event, s': Net)
    requires NodesLogged(opcodes, s) && AirLogged(s) && TokenOk(s) && CanStep(s, Local(a, e)) && TokenAfter(s, a, e, s')
    ensures SpentAir(s')
  {
    SpentLogged(opcodes, s, a, e);
    forall i | i in s.spent && i !in s'.spent ensures NoCopies(s, i) { WithdrawnHidden(s, a, e, i); }
    forall w | w in NewWires(a, s.nodes[a], e) && TurnMarked(w.data) ensures w.sample in s'.spent { NewWireSpent(opcodes, s, a, e, w); }
    SpentAirStep(s, s', NewWires(a, s.nodes[a], e));
  }

  lemma SpentAirStep(s: Net, s': Net, added: set<Wire>)
    requires SpentAir(s) && s'.air == s.air + added && s'.decoding == s.decoding
    requires forall i | i in s.spent && i !in s'.spent :: NoCopies(s, i)
    requires forall w | w in added && TurnMarked(w.data) :: w.sample in s'.spent
    requires forall i | i in s'.spent :: i in s'.samples
    ensures SpentAir(s')
  {}

  lemma SpentLogged(opcodes: map<nat, nat>, s: Net, a: nat, e: Event)
    requires NodesLogged(opcodes, s) && CanStep(s, Local(a, e)) && (forall i | i in s.spent :: i in s.samples)
    ensures forall i | i in SpentAfter(s.spent, s.nodes[a], e) :: i in s.samples
  {
    assert NodeLogged(opcodes, s.samples, s.framed, s.offered, a, s.nodes[a]);
  }

  // ---------------------------------------------------------------- unsent samples stay hidden

  lemma FreshHidden(s: Net, i: nat)
    requires AirLogged(s) && PublishedFramed(s) && i !in s.samples
    ensures NoCopies(s, i)
  {}

  /** The running send of the stepping node. */
  lemma UnsentBefore(n: Node, e: Event)
    requires NodeOk(n) && Enabled(n, e) && IsLocal(e) && Unsent(Next(n, e)) && !e.Enqueue?
    ensures Unsent(n) && n.work.job.value.sample == Next(n, e).work.job.value.sample && NewWires(0, n, e) == {}
  {}

  lemma StillHidden(s: Net, s': Net, added: set<Wire>, i: nat)
    requires NoCopies(s, i) && s'.air == s.air + added && s'.decoding == s.decoding && s'.published == s.published
    requires forall w | w in added && IsDataFrame(w.data) :: w.sample != i
    ensures NoCopies(s', i)
  {}

  lemma OwnHidden(opcodes: map<nat, nat>, s: Net, a: nat, e: Event)
    requires Logged(opcodes, s) && TokenOk(s) && CanStep(s, Local(a, e)) && Unsent(Next(s.nodes[a], e))
    ensures NoCopies(s, Next(s.nodes[a], e).work.job.value.sample) && NewWires(a, s.nodes[a], e) == {}
  {
    assert NodeLogged(opcodes, s.samples, s.framed, s.offered, a, s.nodes[a]);
    if e.Enqueue? { FreshHidden(s, e.tag); } else { UnsentBefore(s.nodes[a], e); }
  }

  lemma OtherHidden(opcodes: map<nat, nat>, s: Net, a: nat, e: Event, b: nat)
    requires Logged(opcodes, s) && CanStep(s, Local(a, e)) && b in s.nodes && b != a && Unsent(s.nodes[b])
    ensures forall w | w in NewWires(a, s.nodes[a], e) && IsDataFrame(w.data) :: w.sample != s.nodes[b].work.job.value.sample
  {
    assert NodeLogged(opcodes, s.samples, s.framed, s.offered, b, s.nodes[b]);
    forall w | w in NewWires(a, s.nodes[a], e) && IsDataFrame(w.data) ensures w.sample != s.nodes[b].work.job.value.sample {
      EmitsOwn(opcodes, s, a, e, w);
    }
  }

  lemma NodeHidden(opcodes: map<nat, nat>, s: Net, a: nat, e: Event, s': Net, b: nat)
    requires Logged(opcodes, s) && TokenOk(s) && CanStep(s, Local(a, e)) && TokenAfter(s, a, e, s')
    requires b in s'.nodes && Unsent(s'.nodes[b])
    ensures NoCopies(s', s'.nodes[b].work.job.value.sample)
  {
    if b == a { OwnHidden(opcodes, s, a, e); } else { OtherHidden(opcodes, s, a, e, b); }
    StillHidden(s, s', NewWires(a, s.nodes[a], e), s'.nodes[b].work.job.value.sample);
  }

  lemma LocalHidden(opcodes: map<nat, nat>, s: Net, a: nat, e: Event, s': Net)
    requires Logged(opcodes, s) && TokenOk(s) && CanStep(s, Local(a, e)) && TokenAfter(s, a, e, s')
    ensures UnsentHidden(s')
  {
    forall b | b in s'.nodes && Unsent(s'.nodes[b]) ensures NoCopies(s', s'.nodes[b].work.job.value.sample) {
      NodeHidden(opcodes, s, a, e, s', b);
    }
  }

  // ---------------------------------------------------------------- published samples stay remembered

  ghost predicate RememberedAt(s: Net, a: nat, i: nat)
    requires a in s.nodes && i in s.samples
  {
    (s.samples[i].key in s.nodes[a].t.seen && s.nodes[a].t.seen[s.samples[i].key].delivered) || !Live(s, a, i)
  }

  lemma LocalRememberedAt(opcodes: map<nat, nat>, s: Net, a: nat, e: Event, s': Net, b: nat, i: nat)
    requires NodesLogged(opcodes, s) && CanStep(s, Local(a, e)) && TokenAfter(s, a, e, s') && ForgetsOnlyDead(s, Local(a, e))
    requires b in s.nodes && i in s.samples && RememberedAt(s, b, i)
    ensures RememberedAt(s', b, i)
  {
    LocalSeen(s.nodes[a], e);
    if Live(s', b, i) {
      LocalLive(opcodes, s, a, e, s', b, i);
    }
  }

  lemma LocalRemembered(opcodes: map<nat, nat>, s: Net, a: nat, e: Event, s': Net)
    requires Logged(opcodes, s) && TokenOk(s) && CanStep(s, Local(a, e)) && TokenAfter(s, a, e, s') && ForgetsOnlyDead(s, Local(a, e))
    ensures Remembered(s')
  {
    forall x | x in s'.published && x.0 in s'.nodes && x.1 in s'.samples ensures RememberedAt(s', x.0, x.1) {
      assert RememberedAt(s, x.0, x.1);
      LocalRememberedAt(opcodes, s, a, e, s', x.0, x.1);
    }
  }

  /** The key being decoded is not forgotten: its own copy is live. */
  lemma DecodingKept(s: Net, a: nat, e: Event, k: SeenKey)
    requires AirLogged(s) && DecodingSeen(s) && CanStep(s, Local(a, e)) && ForgetsOnlyDead(s, Local(a, e))
    requires (a, k) in s.decoding
    ensures k in Next(s.nodes[a], e).t.seen && !Next(s.nodes[a], e).t.seen[k].delivered
  {
    LocalSeen(s.nodes[a], e);
    assert DecodeLive(s, a, s.decoding[(a, k)].sample);
  }

  lemma LocalDecoding(s: Net, a: nat, e: Event, s': Net)
    requires AirLogged(s) && DecodingSeen(s) && CanStep(s, Local(a, e)) && ForgetsOnlyDead(s, Local(a, e))
    requires s'.nodes == s.nodes[a := Next(s.nodes[a], e)] && s'.decoding == s.decoding
    ensures DecodingSeen(s')
  {
    forall x | x in s'.decoding && x.0 in s'.nodes ensures x.1 in s'.nodes[x.0].t.seen && !s'.nodes[x.0].t.seen[x.1].delivered {
      if x.0 == a { DecodingKept(s, a, e, x.1); }
    }
  }

  lemma LocalTokenOk(opcodes: map<nat, nat>, s: Net, a: nat, e: Event, s': Net)
    requires Logged(opcodes, s) && TokenOk(s) && CanStep(s, Local(a, e)) && TokenAfter(s, a, e, s') && ForgetsOnlyDead(s, Local(a, e))
    ensures TokenOk(s')
  {
    LocalSpentNodes(opcodes, s, a, e, s');
    LocalSpentAir(opcodes, s, a, e, s');
    LocalHidden(opcodes, s, a, e, s');
    LocalRemembered(opcodes, s, a, e, s');
    LocalDecoding(s, a, e, s');
  }

  // ---------------------------------------------------------------- receive steps keep the invariant

  lemma ReceiveSpent(spent: set<nat>, n: Node, e: Event)
    requires SpentNode(spent, n) && Enabled(n, e) && !IsLocal(e)
    ensures SpentNode(spent, Next(n, e)) && Next(n, e).work == n.work
  {
    ReceiveShrinks(n, e);
    ShrinkSpent(spent, n, Next(n, e));
  }

  /** Receiving changes no running send and puts nothing on the air. */
  lemma ReceiveHidden(s: Net, a: nat, e: Event, s': Net)
    requires UnsentHidden(s) && a in s.nodes && Enabled(s.nodes[a], e) && !IsLocal(e) && ReceiveAfter(s, a, e, s')
    requires forall x | x in s'.decoding :: if x in s.decoding then s'.decoding[x] == s.decoding[x] else AirLive(s, x.0, s'.decoding[x].sample)
    requires forall x | x in s'.published && x !in s.published :: DecodeLive(s, x.0, x.1)
    ensures UnsentHidden(s')
  {
    ReceiveShrinks(s.nodes[a], e);
    forall b | b in s'.nodes && Unsent(s'.nodes[b]) ensures NoCopies(s', s'.nodes[b].work.job.value.sample) {
      assert Unsent(s.nodes[b]) && s.nodes[b].work == s'.nodes[b].work;
    }
  }

  lemma DeliverRemembered(s: Net, a: nat, e: Event, s': Net)
    requires Remembered(s) && a in s.nodes && Enabled(s.nodes[a], e) && !IsLocal(e) && ReceiveAfter(s, a, e, s')
    requires forall x | x in s'.decoding && x !in s.decoding :: AirLive(s, x.0, s'.decoding[x].sample)
    requires forall x | x in s'.decoding && x in s.decoding :: s'.decoding[x] == s.decoding[x]
    requires forall k | k in s.nodes[a].t.seen :: k in s'.nodes[a].t.seen && s'.nodes[a].t.seen[k] == s.nodes[a].t.seen[k]
    requires s'.published == s.published
    ensures Remembered(s')
  {
    forall x | x in s'.published && x.0 in s'.nodes && x.1 in s'.samples ensures RememberedAt(s', x.0, x.1) {
      assert RememberedAt(s, x.0, x.1);
      if Live(s', x.0, x.1) { ReceiveLive(s, a, e, s', x.0, x.1); }
    }
  }

  lemma DeliverSeen(s: Net, a: nat, w: Wire, now: Time)
    requires CanStep(s, Deliver(a, w, now))
    ensures var n := s.nodes[a].t.seen; var after := Next(s.nodes[a], ReceiveEvent(w, now)).t.seen;
            && (forall k | k in n :: k in after && after[k] == n[k])
            && (Decodes(s, a, w, now) ==> WireKey(w) !in n && WireKey(w) in after && !after[WireKey(w)].delivered)
  {}

  lemma ReceiveTokenOk(s: Net, a: nat, e: Event, s': Net)
    requires TokenOk(s) && a in s.nodes && Enabled(s.nodes[a], e) && !IsLocal(e) && ReceiveAfter(s, a, e, s')
    requires forall x | x in s'.decoding :: if x in s.decoding then s'.decoding[x] == s.decoding[x]
               else AirLive(s, x.0, s'.decoding[x].sample) && (TurnMarked(s'.decoding[x].data) ==> s'.decoding[x].sample in s.spent)
    requires forall x | x in s'.published && x !in s.published :: DecodeLive(s, x.0, x.1)
    requires Remembered(s') && DecodingSeen(s')
    ensures TokenOk(s')
  {
    ReceiveSpent(s.spent, s.nodes[a], e);
    ReceiveHidden(s, a, e, s');
  }

  lemma DeliverDecoding(s: Net, a: nat, w: Wire, now: Time, s': Net)
    requires DecodingSeen(s) && CanStep(s, Deliver(a, w, now)) && s' == Step(s, Deliver(a, w, now))
    ensures DecodingSeen(s')
  {
    StepShape(s, Deliver(a, w, now));
    DeliverSeen(s, a, w, now);
  }

  lemma DecodedIsLive(s: Net, a: nat, w: Wire, now: Time)
    requires CanStep(s, Deliver(a, w, now))
    ensures Decodes(s, a, w, now) ==> AirLive(s, a, w.sample)
  {
    if Decodes(s, a, w, now) {
      DecodesData(s.nodes[a].t, w, now);
      assert w in s.air && w.dst == a && IsDataFrame(w.data);
    }
  }

  lemma NewDecoding(s: Net, a: nat, w: Wire, now: Time, s': Net)
    requires SpentAir(s) && CanStep(s, Deliver(a, w, now))
    requires s'.decoding == if Decodes(s, a, w, now) then s.decoding[(a, WireKey(w)) := w] else s.decoding
    requires Decodes(s, a, w, now) ==> (a, WireKey(w)) !in s.decoding
    ensures forall x | x in s'.decoding :: if x in s.decoding then s'.decoding[x] == s.decoding[x]
              else AirLive(s, x.0, s'.decoding[x].sample) && (TurnMarked(s'.decoding[x].data) ==> s'.decoding[x].sample in s.spent)
  {
    DecodedIsLive(s, a, w, now);
  }

  lemma DeliverTokenOk(s: Net, a: nat, w: Wire, now: Time, s': Net)
    requires AirLogged(s) && TokenOk(s) && CanStep(s, Deliver(a, w, now)) && s' == Step(s, Deliver(a, w, now))
    ensures TokenOk(s')
  {
    var e := ReceiveEvent(w, now);
    StepShape(s, Deliver(a, w, now));
    DeliverSeen(s, a, w, now);
    NewDecoding(s, a, w, now, s');
    DeliverRemembered(s, a, e, s');
    DeliverDecoding(s, a, w, now, s');
    ReceiveTokenOk(s, a, e, s');
  }

  /** A decoded frame updates or removes the entry of its key alone. */
  lemma DecodeSeen(s: Net, l: Label)
    requires CanStep(s, l) && l.Decode? && DecodingSeen(s)
    ensures var n := s.nodes[l.a].t.seen; var key := WireKey(l.w);
            var after := Next(s.nodes[l.a], DecodeDone(Message(l.w), l.delivered, l.local, l.members, l.when)).t.seen;
            && key in n && !n[key].delivered
            && (if l.delivered then after == n[key := Seen(l.when, true)] else after == n - {key})
  {}

  lemma DecodeRemembered(s: Net, l: Label, s': Net)
    requires AirLogged(s) && Remembered(s) && DecodingSeen(s) && CanStep(s, l) && l.Decode? && s' == Step(s, l)
    ensures Remembered(s')
  {
    var e := DecodeDone(Message(l.w), l.delivered, l.local, l.members, l.when);
    StepShape(s, l);
    DecodeSeen(s, l);
    forall x | x in s'.published && x.0 in s'.nodes && x.1 in s'.samples ensures RememberedAt(s', x.0, x.1) {
      if x in s.published {
        assert RememberedAt(s, x.0, x.1);
        if Live(s', x.0, x.1) { ReceiveLive(s, l.a, e, s', x.0, x.1); }
      }
    }
  }

  lemma DecodeDecoding(s: Net, l: Label, s': Net)
    requires AirLogged(s) && DecodingSeen(s) && CanStep(s, l) && l.Decode? && s' == Step(s, l)
    ensures DecodingSeen(s')
  {
    StepShape(s, l);
    DecodeSeen(s, l);
  }

  lemma DecodeTokenOk(s: Net, l: Label, s': Net)
    requires AirLogged(s) && TokenOk(s) && CanStep(s, l) && l.Decode? && s' == Step(s, l)
    ensures TokenOk(s')
  {
    StepShape(s, l);
    assert (l.a, WireKey(l.w)) in s.decoding;
    assert DecodeLive(s, l.a, l.w.sample);
    DecodeRemembered(s, l, s');
    DecodeDecoding(s, l, s');
    ReceiveTokenOk(s, l.a, DecodeDone(Message(l.w), l.delivered, l.local, l.members, l.when), s');
  }

  lemma DropTokenOk(s: Net, w: Wire)
    requires TokenOk(s) && w in s.air
    ensures TokenOk(s.(air := s.air - {w}))
  {
    var s' := s.(air := s.air - {w});
    forall x | x in s'.published && x.0 in s'.nodes && x.1 in s'.samples ensures RememberedAt(s', x.0, x.1) {
      assert RememberedAt(s, x.0, x.1);
      if AirLive(s', x.0, x.1) { assert AirLive(s, x.0, x.1); }
      if DecodeLive(s', x.0, x.1) { assert DecodeLive(s, x.0, x.1); }
    }
  }

  /** Every step keeps what the tokens rely on, as long as receivers forget only dead keys. */
  lemma StepTokenOk(opcodes: map<nat, nat>, s: Net, l: Label)
    requires Logged(opcodes, s) && TokenOk(s) && CanStep(s, l) && ForgetsOnlyDead(s, l)
    ensures TokenOk(Step(s, l))
  {
    match l
    case Local(a, e) =>
      StepShape(s, l);
      LocalTokenOk(opcodes, s, a, e, Step(s, l));
    case Deliver(a, w, now) => DeliverTokenOk(s, a, w, now, Step(s, l));
    case Decode(_, _, _, _, _, _) => DecodeTokenOk(s, l, Step(s, l));
    case Drop(w) => DropTokenOk(s, w);
  }
}
