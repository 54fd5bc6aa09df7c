/** Handle conservation over whole runs, and the one way a handle is lost. */
module MeshRuns {
  import opened MeshFrame
  import opened MeshTables
  import opened MeshWorker
  import opened MeshHandles
  import opened MeshInvariant

  // ---------------------------------------------------------------- reachable states of one node

  /** Some run of one node ends in `n`. */
  ghost predicate RunsTo(n: Node) { exists trace, events :: IsRun(trace, events) && trace[|events|] == n }

  lemma RunsAtFirst()
    ensures RunsTo(FRESH_NODE)
  {
    var none: seq<Event> := [];
    assert IsRun([FRESH_NODE], none) && [FRESH_NODE][|none|] == FRESH_NODE;
  }

  lemma RunsOn(n: Node, e: Event, after: Node)
    requires RunsTo(n) && Enabled(n, e) && after == Next(n, e)
    ensures RunsTo(after)
  {
    var trace, events :| IsRun(trace, events) && trace[|events|] == n;
    Extends(trace, events, e, after);
  }

  lemma RunsToOk(n: Node)
    requires RunsTo(n)
    ensures NodeOk(n)
  {
    var trace, events :| IsRun(trace, events) && trace[|events|] == n;
    RunKeeps(trace, events, |events|);
  }

  lemma Extends(trace: seq<Node>, events: seq<Event>, e: Event, after: Node)
    requires IsRun(trace, events) && Enabled(trace[|events|], e) && after == Next(trace[|events|], e)
    ensures RunsTo(after)
  {
    var longer, more := trace + [after], events + [e];
    forall i | 0 <= i < |more| ensures Enabled(longer[i], more[i]) && longer[i + 1] == Next(longer[i], more[i]) {
      if i < |events| { assert Enabled(trace[i], events[i]) && trace[i + 1] == Next(trace[i], events[i]); }
    }
    assert IsRun(longer, more) && longer[|more|] == after;
  }

  // ---------------------------------------------------------------- the ledger of a run

  lemma OkRecordsNothing(n: Node)
    requires NodeOk(n)
    ensures NothingRecorded(n)
  {
    if n.work.job.Some? && NothingAdmitted(n.work.job.value) {
      var q := n.work.job.value.phase.plan.sequence;
      if q in n.t.pending { NoTransfersNoHandles(n.t.pending[q].awaiting); }
    }
  }

  /** Events up to position `i` are enabled where they occur. */
  ghost predicate Enableds(trace: seq<Node>, events: seq<Event>) {
    |trace| == |events| + 1 && forall j | 0 <= j < |events| :: Enabled(trace[j], events[j])
  }

  ghost function IssuedUpTo(trace: seq<Node>, events: seq<Event>, i: nat): multiset<Handle>
    requires i <= |events| && Enableds(trace, events)
  {
    if i == 0 then multiset{} else IssuedUpTo(trace, events, i - 1) + Issued(trace[i - 1], events[i - 1])
  }

  ghost function SettledUpTo(trace: seq<Node>, events: seq<Event>, i: nat): multiset<Handle>
    requires i <= |events| && Enableds(trace, events)
  {
    if i == 0 then multiset{} else SettledUpTo(trace, events, i - 1) + Settled(trace[i - 1], events[i - 1])
  }

  ghost function LostUpTo(trace: seq<Node>, events: seq<Event>, i: nat): multiset<Handle>
    requires i <= |events| && Enableds(trace, events)
  {
    if i == 0 then multiset{} else LostUpTo(trace, events, i - 1) + Lost(trace[i - 1], events[i - 1])
  }

  lemma SumsStep(trace: seq<Node>, events: seq<Event>, i: nat, h: Handle)
    requires Enableds(trace, events) && i < |events|
    ensures IssuedUpTo(trace, events, i + 1)[h] == IssuedUpTo(trace, events, i)[h] + Issued(trace[i], events[i])[h]
    ensures SettledUpTo(trace, events, i + 1)[h] == SettledUpTo(trace, events, i)[h] + Settled(trace[i], events[i])[h]
    ensures LostUpTo(trace, events, i + 1)[h] == LostUpTo(trace, events, i)[h] + Lost(trace[i], events[i])[h]
  {}

  lemma StepConserves(n: Node, e: Event, after: Node, h: Handle)
    requires NodeOk(n) && Enabled(n, e) && after == Next(n, e)
    ensures Owned(after, h) + Settled(n, e)[h] + Lost(n, e)[h] == Owned(n, h) + Issued(n, e)[h]
  {
    OkRecordsNothing(n);
    EventConserves(n, e, h);
  }

  ghost predicate Balanced(trace: seq<Node>, events: seq<Event>, i: nat, h: Handle)
    requires Enableds(trace, events) && i <= |events|
  {
    Owned(trace[i], h) + SettledUpTo(trace, events, i)[h] + LostUpTo(trace, events, i)[h] == IssuedUpTo(trace, events, i)[h]
  }

  lemma NothingOwned(h: Handle)
    ensures Owned(FRESH_NODE, h) == 0
  {
    assert SampleCounts(EMPTY_TABLES.pending, h) == map[];
  }

  lemma StaysBalanced(trace: seq<Node>, events: seq<Event>, i: nat, h: Handle)
    requires IsRun(trace, events) && i < |events| && NodeOk(trace[i]) && Balanced(trace, events, i, h)
    ensures Balanced(trace, events, i + 1, h)
  {
    StepConserves(trace[i], events[i], trace[i + 1], h);
    SumsStep(trace, events, i, h);
  }

  /** In every run, at every point, every returned handle is in exactly one place, settled, or lost. */
  lemma {:induction false} RunConserves(trace: seq<Node>, events: seq<Event>, i: nat, h: Handle)
    requires IsRun(trace, events) && i <= |events|
    ensures Balanced(trace, events, i, h)
  {
    if i == 0 {
      NothingOwned(h);
    } else {
      RunConserves(trace, events, i - 1, h);
      RunKeeps(trace, events, i - 1);
      StaysBalanced(trace, events, i - 1, h);
    }
  }

  /** Recording a handle finds its peer already acknowledged and the group slot already taken. */
  predicate OverwritesPrimary(n: Node, e: Event) {
    && e.Remember? && n.work.held.Some? && n.work.held.value.handle.transfer != 0
    && n.work.held.value.sequence in n.t.pending
    && n.work.held.value.destination !in n.t.pending[n.work.held.value.sequence].awaiting
    && n.t.pending[n.work.held.value.sequence].primary.Some?
  }

  lemma EventLoses(n: Node, e: Event)
    requires Enabled(n, e)
    ensures !OverwritesPrimary(n, e) ==> Lost(n, e) == multiset{}
    ensures OverwritesPrimary(n, e) ==> Lost(n, e) == multiset{n.t.pending[n.work.held.value.sequence].primary.value}
  {}

  ghost predicate OverwritesNothing(trace: seq<Node>, events: seq<Event>, i: nat)
    requires i <= |events| < |trace|
  {
    forall j | 0 <= j < i :: !OverwritesPrimary(trace[j], events[j])
  }

  /** A run loses a handle exactly when some event overwrites an occupied group slot. */
  lemma {:induction false} LossIffOverwrite(trace: seq<Node>, events: seq<Event>, i: nat)
    requires IsRun(trace, events) && i <= |events|
    ensures LostUpTo(trace, events, i) == multiset{} <==> OverwritesNothing(trace, events, i)
  {
    if i > 0 {
      LossIffOverwrite(trace, events, i - 1);
      EventLoses(trace[i - 1], events[i - 1]);
      assert OverwritesNothing(trace, events, i)
        <==> OverwritesNothing(trace, events, i - 1) && !OverwritesPrimary(trace[i - 1], events[i - 1]);
    }
  }

  /** A peer's receipt overtakes the recording of its send: the handle takes the group slot. */
  lemma EarlyReceipt(n: Node, h: Handle, m: Received, now: Time) returns (after: Node)
    requires NodeOk(n) && Enabled(n, FirstSendAnswered(Admitted(h), now)) && h.transfer != 0
    requires var phase := n.work.job.value.phase; var q := phase.plan.sequence;
             && q in n.t.pending && m.source == phase.plan.targets[phase.next] && m.source in n.t.pending[q].awaiting
             && Sequence(m.data) == q && IsAck(m.data) && AckMatches(n.t, m.appKey, m.data)
    ensures after == Next(Next(n, FirstSendAnswered(Admitted(h), now)), ReceiveAck(m))
    ensures var phase := n.work.job.value.phase; var q := phase.plan.sequence;
            && after.work == n.work.(job := Some(n.work.job.value.(phase := phase.(next := phase.next + 1, admitted := true))),
                                     held := Some(Check(q, m.source, h)))
            && q in after.t.pending
            && after.t.pending[q] == n.t.pending[q].(awaiting := n.t.pending[q].awaiting - {m.source})
  {
    var n1 := Next(n, FirstSendAnswered(Admitted(h), now));
    after := Next(n1, ReceiveAck(m));
  }

  lemma RecordedInGroupSlot(n: Node, now: Time) returns (after: Node)
    requires NodeOk(n) && Enabled(n, Remember(now)) && n.work.held.value.handle.transfer != 0
    requires var c := n.work.held.value; c.sequence in n.t.pending && c.destination !in n.t.pending[c.sequence].awaiting
    ensures after == Next(n, Remember(now)) && after.work == n.work.(held := None)
    ensures n.work.held.value.sequence in after.t.pending
    ensures after.t.pending[n.work.held.value.sequence]
            == n.t.pending[n.work.held.value.sequence].(primary := Some(n.work.held.value.handle))
  {
    after := Next(n, Remember(now));
  }

  /** One early receipt, then the recording of its handle. */
  lemma EarlyReceiptRecorded(n: Node, h: Handle, m: Received, now: Time) returns (after: Node)
    requires NodeOk(n) && Enabled(n, FirstSendAnswered(Admitted(h), now)) && h.transfer != 0
    requires var phase := n.work.job.value.phase; var q := phase.plan.sequence;
             && q in n.t.pending && m.source == phase.plan.targets[phase.next] && m.source in n.t.pending[q].awaiting
             && Sequence(m.data) == q && IsAck(m.data) && AckMatches(n.t, m.appKey, m.data)
    ensures after == Next(Next(Next(n, FirstSendAnswered(Admitted(h), now)), ReceiveAck(m)), Remember(now))
    ensures var phase := n.work.job.value.phase; var q := phase.plan.sequence;
            && after.work == n.work.(job := Some(n.work.job.value.(phase := phase.(next := phase.next + 1, admitted := true))), held := None)
            && q in after.t.pending
            && after.t.pending[q] == n.t.pending[q].(awaiting := n.t.pending[q].awaiting - {m.source}, primary := Some(h))
    ensures NodeOk(after)
  {
    EventKeeps(n, FirstSendAnswered(Admitted(h), now));
    EventKeeps(Next(n, FirstSendAnswered(Admitted(h), now)), ReceiveAck(m));
    var mid := EarlyReceipt(n, h, m, now);
    EventKeeps(mid, Remember(now));
    after := RecordedInGroupSlot(mid, now);
  }

  /** Two copies of a pending sample are still to be sent, and both their receipts already match it. */
  ghost predicate AboutToLose(n: Node, m1: Received, m2: Received) {
    && InPhase(n) && n.work.job.value.phase.Sending?
    && var phase := n.work.job.value.phase; var q := phase.plan.sequence;
    && phase.next + 1 < |phase.plan.targets| && q in n.t.pending
    && m1.source == phase.plan.targets[phase.next] && m2.source == phase.plan.targets[phase.next + 1]
    && {m1.source, m2.source} <= n.t.pending[q].awaiting.Keys
    && IsAck(m1.data) && IsAck(m2.data) && Sequence(m1.data) == q && Sequence(m2.data) == q
    && AckMatches(n.t, m1.appKey, m1.data) && AckMatches(n.t, m2.appKey, m2.data)
  }

  /** The family of runs that lose one: two consecutive destinations of a fan-out acknowledge before
      the send routine records their handles. From any node about to make those two sends, the
      second recording drops the first handle. */
  lemma EarlyReceiptsLose(n: Node, h1: Handle, h2: Handle, m1: Received, m2: Received, now: Time) returns (lost: Node)
    requires NodeOk(n) && AboutToLose(n, m1, m2) && h1.transfer != 0 && h2.transfer != 0
    ensures lost == Next(Next(Next(Next(Next(n, FirstSendAnswered(Admitted(h1), now)), ReceiveAck(m1)), Remember(now)),
                              FirstSendAnswered(Admitted(h2), now)), ReceiveAck(m2))
    ensures Enabled(lost, Remember(now)) && Lost(lost, Remember(now)) == multiset{h1}
  {
    assert m1.source != m2.source by { assert PlanOk(n.work.job.value.phase.plan); }
    var recorded := EarlyReceiptRecorded(n, h1, m1, now);
    lost := EarlyReceipt(recorded, h2, m2, now);
  }
}
