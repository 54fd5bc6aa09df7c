/** What a tick may do to the tables, stated without its loops. */
module MeshEffects {
  import opened MeshFrame
  import opened Ordered
  import opened MeshTables

  /** Only retry bookkeeping changed; no transfer handle moved and the repair budget still holds. */
  ghost predicate Retried(p: Pending, q: Pending) {
    && q == p.(awaiting := q.awaiting)
    && q.awaiting.Keys == p.awaiting.Keys
    && forall a | a in p.awaiting ::
         q.awaiting[a].transfer == p.awaiting[a].transfer
         && (p.awaiting[a].attempts <= MAX_ATTEMPTS ==> q.awaiting[a].attempts <= MAX_ATTEMPTS)
  }

  /** `item` is a receipt query or a marked repair of sample `p` for one awaited peer. */
  ghost predicate ItemFor(p: Pending, item: Outbound) {
    && item.destination in p.awaiting
    && item.appKey == p.appKey && item.element == p.element && !item.acknowledgement && item.sample == p.sample
    && (item.data == QueryFor(p.data) || item.data == Marked(p.data, item.destination == p.successor))
  }

  ghost predicate Extends(p: Pending, before: seq<Outbound>, after: seq<Outbound>) {
    && |before| <= |after| && after[..|before|] == before
    && (forall i | |before| <= i < |after| :: ItemFor(p, after[i]))
    && (|before| <= MAX_OUTBOUND ==> |after| <= MAX_OUTBOUND)
  }

  lemma ExtendsTransitive(p: Pending, q: Pending, a: seq<Outbound>, b: seq<Outbound>, c: seq<Outbound>)
    requires Retried(p, q) && Extends(p, a, b) && Extends(q, b, c)
    ensures Extends(p, a, c)
  {
    assert c[..|a|] == c[..|b|][..|a|];
    forall i | |a| <= i < |c| ensures ItemFor(p, c[i]) {
      if i < |b| { assert c[i] == c[..|b|][i]; }
    }
  }

  ghost predicate OnlySample(t: Tables, k: nat, after: Tables) {
    k in t.pending && k in after.pending && after == t.(pending := t.pending[k := after.pending[k]])
    && Retried(t.pending[k], after.pending[k])
  }

  lemma Untouched(t: Tables, k: nat)
    requires k in t.pending
    ensures OnlySample(t, k, t)
  {
    assert t.pending == t.pending[k := t.pending[k]];
  }

  lemma WithTargetEffect(a: Pass, k: nat, peer: nat, target: Target)
    requires k in a.t.pending && peer in a.t.pending[k].awaiting
    requires target.transfer == a.t.pending[k].awaiting[peer].transfer
    requires a.t.pending[k].awaiting[peer].attempts <= MAX_ATTEMPTS ==> target.attempts <= MAX_ATTEMPTS
    ensures OnlySample(a.t, k, WithTarget(a, k, peer, target).t)
  {}

  lemma CheckTargetEffect(a: Pass, k: nat, peer: nat, now: Time)
    requires k in a.t.pending && peer in a.t.pending[k].awaiting
    ensures var r := CheckTarget(a, k, peer, now);
            OnlySample(a.t, k, r.t) && r.outbound == a.outbound && r.scheduled == a.scheduled && r.expired == a.expired
  {
    Untouched(a.t, k);
    WithTargetEffect(a, k, peer, a.t.pending[k].awaiting[peer].(checkAt := now + TRANSFER_CHECK_PERIOD));
  }

  lemma QueryOrRepairEffect(a: Pass, k: nat, peer: nat, now: Time)
    requires k in a.t.pending && peer in a.t.pending[k].awaiting && |a.outbound| < MAX_OUTBOUND
    ensures var r := QueryOrRepair(a, k, peer, now);
            OnlySample(a.t, k, r.t) && Extends(a.t.pending[k], a.outbound, r.outbound)
  {
    var target := a.t.pending[k].awaiting[peer];
    Untouched(a.t, k);
    if target.queryAt <= now && target.retryAt > now {
      WithTargetEffect(a, k, peer, Queried(target, now));
    } else if target.attempts < MAX_ATTEMPTS {
      WithTargetEffect(a, k, peer, Repaired(target, now));
    }
  }

  lemma TargetStepEffect(a: Pass, k: nat, peer: nat, now: Time)
    requires k in a.t.pending
    ensures var r := TargetStep(a, k, peer, now);
            OnlySample(a.t, k, r.t) && Extends(a.t.pending[k], a.outbound, r.outbound)
  {
    Untouched(a.t, k);
    if |a.outbound| < MAX_OUTBOUND && peer in a.t.pending[k].awaiting {
      CheckTargetEffect(a, k, peer, now);
      var b := CheckTarget(a, k, peer, now);
      QueryOrRepairEffect(b, k, peer, now);
      ExtendsTransitive(a.t.pending[k], b.t.pending[k], a.outbound, b.outbound, QueryOrRepair(b, k, peer, now).outbound);
    }
  }

  lemma {:induction false} TargetsPassEffect(a: Pass, k: nat, peers: seq<nat>, now: Time)
    requires k in a.t.pending
    ensures var r := TargetsPass(a, k, peers, now);
            OnlySample(a.t, k, r.t) && Extends(a.t.pending[k], a.outbound, r.outbound)
    decreases |peers|
  {
    if peers == [] {
      Untouched(a.t, k);
    } else {
      var b := TargetStep(a, k, peers[0], now);
      TargetStepEffect(a, k, peers[0], now);
      TargetsPassEffect(b, k, peers[1..], now);
      ExtendsTransitive(a.t.pending[k], b.t.pending[k], a.outbound, b.outbound, TargetsPass(b, k, peers[1..], now).outbound);
    }
  }

  /** The waiting value that repairs sample `p`, if any. */
  ghost predicate Coalesces(t: Tables, p: Pending) {
    p.channel in t.latest && |t.latest[p.channel].payload| >= VENDOR_PREFIX_BYTES + BRIDGE_FRAME_PREFIX_BYTES
  }

  /** Sample `k` after the tick: its frame carries the waiting value of its channel, or is unchanged. */
  ghost predicate Renewed(latest: map<nat, Offer>, k: nat, p: Pending, q: Pending) {
    && Retried(p.(data := q.data, age := q.age), q)
    && (|| (q.data == p.data && q.age == p.age)
        || (&& p.channel in latest
            && |latest[p.channel].payload| >= VENDOR_PREFIX_BYTES + BRIDGE_FRAME_PREFIX_BYTES
            && q.data == WrapData(latest[p.channel].payload, k, SwarmId(p.data)) && q.age == latest[p.channel].age))
  }

  ghost predicate SubMap(small: map<nat, Offer>, big: map<nat, Offer>) {
    forall c | c in small :: c in big && small[c] == big[c]
  }

  ghost predicate Drops(p: Pending, now: Time) { p.awaiting == map[] || Expired(p, now) }

  lemma DropEffect(a: Pass, k: nat, now: Time)
    requires k in a.t.pending && Drops(a.t.pending[k], now)
    ensures var r := SampleStep(a, k, now);
            && r.t == a.t.(pending := a.t.pending - {k}, cancellations := r.t.cancellations, peers := r.t.peers)
            && r.outbound == a.outbound && r.checks == a.checks
  {}

  /** What the tick keeps of one sample: renewed, with its queries and repairs appended. */
  ghost predicate Keeps(a: Pass, k: nat, r: Pass)
    requires k in a.t.pending
  {
    var p := a.t.pending[k];
    && k in r.t.pending
    && r.t == a.t.(pending := a.t.pending[k := r.t.pending[k]], latest := r.t.latest)
    && Renewed(a.t.latest, k, p, r.t.pending[k])
    && Extends(r.t.pending[k], a.outbound, r.outbound)
    && (if Coalesces(a.t, p) then r.t.latest == a.t.latest - {p.channel} && r.t.pending[k].age == a.t.latest[p.channel].age
        else r.t.latest == a.t.latest && r.t.pending[k].age == p.age)
  }

  lemma ExtendsRetried(p: Pending, q: Pending, before: seq<Outbound>, after: seq<Outbound>)
    requires Retried(p, q) && Extends(p, before, after)
    ensures Extends(q, before, after)
  {}

  /** Coalescing alone: the frame and its age, and the emptied slot. */
  ghost predicate Coalesced(t: Tables, k: nat, after: Tables)
    requires k in t.pending
  {
    var p := t.pending[k];
    && k in after.pending
    && after == t.(pending := t.pending[k := after.pending[k]], latest := after.latest)
    && after.pending[k] == p.(data := after.pending[k].data, age := after.pending[k].age)
    && (if Coalesces(t, p)
        then && after.latest == t.latest - {p.channel} && after.pending[k].age == t.latest[p.channel].age
             && after.pending[k].data == WrapData(t.latest[p.channel].payload, k, SwarmId(p.data))
        else after.latest == t.latest && after.pending[k].age == p.age && after.pending[k].data == p.data)
  }

  lemma CoalesceEffect(t: Tables, k: nat)
    requires k in t.pending
    ensures Coalesced(t, k, Coalesce(t, k))
  {
    Untouched(t, k);
  }

  lemma RenewedFrom(latest: map<nat, Offer>, k: nat, p: Pending, c: Pending, q: Pending)
    requires c == p.(data := c.data, age := c.age) && Renewed(latest, k, p, c) && Retried(c, q)
    ensures Renewed(latest, k, p, q)
  {}

  lemma KeepEffect(a: Pass, k: nat, now: Time)
    requires k in a.t.pending && !Drops(a.t.pending[k], now)
    ensures Keeps(a, k, SampleStep(a, k, now))
  {
    var c := Coalesce(a.t, k);
    var peers := Ascending(a.t.pending[k].awaiting.Keys);
    CoalesceEffect(a.t, k);
    TargetsPassEffect(a.(t := c), k, peers, now);
    KeepCompose(a, k, c, TargetsPass(a.(t := c), k, peers, now));
  }

  lemma KeepCompose(a: Pass, k: nat, c: Tables, r: Pass)
    requires k in a.t.pending && Coalesced(a.t, k, c) && OnlySample(c, k, r.t) && Extends(c.pending[k], a.outbound, r.outbound)
    ensures Keeps(a, k, r)
  {
    ExtendsRetried(c.pending[k], r.t.pending[k], a.outbound, r.outbound);
    assert Renewed(a.t.latest, k, a.t.pending[k], c.pending[k]);
    RenewedFrom(a.t.latest, k, a.t.pending[k], c.pending[k], r.t.pending[k]);
    assert r.t.pending == a.t.pending[k := r.t.pending[k]];
  }

  // ---------------------------------------------------------------- the whole pass over samples

  /** Fate of sample `k`: dropped exactly when it is complete or expired, otherwise renewed. */
  ghost predicate Fate(t0: Tables, k: nat, t: Tables, now: Time)
    requires k in t0.pending
  {
    if Drops(t0.pending[k], now) then k !in t.pending
    else k in t.pending && Renewed(t0.latest, k, t0.pending[k], t.pending[k])
  }

  ghost predicate Fates(t0: Tables, done: set<nat>, t: Tables, now: Time) {
    && (forall k | k in t.pending :: k in t0.pending)
    && (forall k | k in t0.pending && k !in done :: k in t.pending && t.pending[k] == t0.pending[k])
    && (forall k | k in done && k in t0.pending :: Fate(t0, k, t, now))
  }

  /** A waiting value stays in its slot or moves into a processed sample of its channel. */
  ghost predicate ValueKept(t: Tables, done: set<nat>, c: nat, age: nat) {
    || (c in t.latest && t.latest[c].age == age)
    || (exists k | k in done :: k in t.pending && t.pending[k].channel == c && t.pending[k].age == age)
  }

  ghost predicate SlotsKept(t0: Tables, done: set<nat>, t: Tables) {
    && SubMap(t.latest, t0.latest)
    && forall c | c in t0.latest :: ValueKept(t, done, c, t0.latest[c].age)
  }

  ghost predicate Source(t: Tables, item: Outbound, k: nat) { k in t.pending && ItemFor(t.pending[k], item) }

  /** Every item after the first ones was built for a processed sample that is still pending. */
  ghost predicate Built(first: seq<Outbound>, outbound: seq<Outbound>, done: set<nat>, t: Tables) {
    && |first| <= |outbound| <= MAX_OUTBOUND && outbound[..|first|] == first
    && forall i | |first| <= i < |outbound| :: exists k | k in done :: Source(t, outbound[i], k)
  }

  ghost predicate OnlySamples(t0: Tables, t: Tables) {
    t == t0.(pending := t.pending, latest := t.latest, cancellations := t.cancellations, peers := t.peers)
  }

  /** One step of the pass, without its loops. */
  ghost predicate Stepped(a: Pass, k: nat, r: Pass, now: Time)
    requires k in a.t.pending
  {
    if Drops(a.t.pending[k], now)
    then r.t == a.t.(pending := a.t.pending - {k}, cancellations := r.t.cancellations, peers := r.t.peers) && r.outbound == a.outbound
    else Keeps(a, k, r)
  }

  lemma SampleStepEffect(a: Pass, k: nat, now: Time)
    requires k in a.t.pending
    ensures Stepped(a, k, SampleStep(a, k, now), now)
  {
    if Drops(a.t.pending[k], now) { DropEffect(a, k, now); } else { KeepEffect(a, k, now); }
  }

  lemma RenewedMonotone(small: map<nat, Offer>, big: map<nat, Offer>, k: nat, p: Pending, q: Pending)
    requires SubMap(small, big) && Renewed(small, k, p, q)
    ensures Renewed(big, k, p, q)
  {}

  lemma FatesStep(t0: Tables, done: set<nat>, a: Pass, k: nat, r: Pass, now: Time)
    requires Fates(t0, done, a.t, now) && SubMap(a.t.latest, t0.latest) && k in t0.pending && k !in done
    requires Stepped(a, k, r, now)
    ensures Fates(t0, done + {k}, r.t, now)
  {
    assert a.t.pending[k] == t0.pending[k];
    forall j | j in done + {k} && j in t0.pending ensures Fate(t0, j, r.t, now) {
      if j != k {
        assert Fate(t0, j, a.t, now);
      } else if !Drops(a.t.pending[k], now) {
        RenewedMonotone(a.t.latest, t0.latest, k, a.t.pending[k], r.t.pending[k]);
      }
    }
  }

  lemma SlotsStep(t0: Tables, done: set<nat>, a: Pass, k: nat, r: Pass, now: Time)
    requires SlotsKept(t0, done, a.t) && k in a.t.pending && k !in done && Stepped(a, k, r, now)
    ensures SlotsKept(t0, done + {k}, r.t)
  {
    forall c | c in t0.latest ensures ValueKept(r.t, done + {k}, c, t0.latest[c].age) {
      var age := t0.latest[c].age;
      if c in a.t.latest {
        if c !in r.t.latest {
          assert k in r.t.pending && r.t.pending[k].channel == c && r.t.pending[k].age == age;
        }
      } else {
        var j :| j in done && j in a.t.pending && a.t.pending[j].channel == c && a.t.pending[j].age == age;
        assert j in r.t.pending && r.t.pending[j] == a.t.pending[j];
      }
    }
  }

  lemma BuiltStep(first: seq<Outbound>, done: set<nat>, a: Pass, k: nat, r: Pass, now: Time)
    requires Built(first, a.outbound, done, a.t) && k in a.t.pending && k !in done && Stepped(a, k, r, now)
    ensures Built(first, r.outbound, done + {k}, r.t)
  {
    forall i | |first| <= i < |r.outbound| ensures exists j | j in done + {k} :: Source(r.t, r.outbound[i], j) {
      if i < |a.outbound| {
        assert r.outbound[i] == r.outbound[..|a.outbound|][i];
        var j :| j in done && Source(a.t, a.outbound[i], j);
        assert Source(r.t, r.outbound[i], j);
      } else {
        assert Source(r.t, r.outbound[i], k);
      }
    }
    assert r.outbound[..|first|] == r.outbound[..|a.outbound|][..|first|];
  }

  ghost predicate Summary(t0: Tables, first: seq<Outbound>, done: set<nat>, a: Pass, now: Time) {
    OnlySamples(t0, a.t) && Fates(t0, done, a.t, now) && SlotsKept(t0, done, a.t) && Built(first, a.outbound, done, a.t)
  }

  lemma SummaryStep(t0: Tables, first: seq<Outbound>, done: set<nat>, a: Pass, k: nat, r: Pass, now: Time)
    requires Summary(t0, first, done, a, now) && k in t0.pending && k !in done && Stepped(a, k, r, now)
    ensures Summary(t0, first, done + {k}, r, now)
  {
    FatesStep(t0, done, a, k, r, now);
    SlotsStep(t0, done, a, k, r, now);
    BuiltStep(first, done, a, k, r, now);
  }

  function Processed(done: set<nat>, keys: seq<nat>): set<nat>
    decreases |keys|
  {
    if keys == [] then done else Processed(done + {keys[0]}, keys[1..])
  }

  lemma {:induction false} ProcessedAll(done: set<nat>, keys: seq<nat>)
    ensures forall k :: k in Processed(done, keys) <==> k in done || k in keys
    decreases |keys|
  {
    if keys != [] { ProcessedAll(done + {keys[0]}, keys[1..]); }
  }

  lemma {:induction false} SamplesPassSummary(t0: Tables, first: seq<Outbound>, done: set<nat>, a: Pass, keys: seq<nat>, now: Time)
    requires Summary(t0, first, done, a, now) && StrictlySorted(keys)
    requires forall k | k in keys :: k in t0.pending && k !in done
    ensures Summary(t0, first, Processed(done, keys), SamplesPass(a, keys, now), now)
    decreases |keys|
  {
    if keys != [] {
      var r := SampleStep(a, keys[0], now);
      StepSummary(t0, first, done, a, keys[0], now);
      SamplesPassSummary(t0, first, done + {keys[0]}, r, keys[1..], now);
    }
  }

  lemma StepSummary(t0: Tables, first: seq<Outbound>, done: set<nat>, a: Pass, k: nat, now: Time)
    requires Summary(t0, first, done, a, now) && k in t0.pending && k !in done
    ensures Summary(t0, first, done + {k}, SampleStep(a, k, now), now)
  {
    assert k in a.t.pending;
    SampleStepEffect(a, k, now);
    SummaryStep(t0, first, done, a, k, SampleStep(a, k, now), now);
  }

  // ---------------------------------------------------------------- values leaving their slots

  ghost predicate Emptied(t: Tables, after: Tables, o: Offer) {
    exists c | c in t.latest :: c !in after.latest && t.latest[c] == o
  }

  /** Each waiting value either still waits or has become ready; ready values have left their slots. */
  ghost predicate Released(t: Tables, ready: seq<Offer>, after: Tables, out: seq<Offer>) {
    && after == t.(latest := after.latest) && SubMap(after.latest, t.latest)
    && |ready| <= |out| && out[..|ready|] == ready
    && (forall c | c in t.latest && c !in after.latest :: t.latest[c] in out[|ready|..])
    && (forall i | |ready| <= i < |out| :: Emptied(t, after, out[i]))
  }

  lemma {:induction false} ReadyPassReleases(t: Tables, ready: seq<Offer>, channels: seq<nat>)
    ensures Released(t, ready, ReadyPass(t, ready, channels).0, ReadyPass(t, ready, channels).1)
    decreases |channels|
  {
    if channels == [] {
    } else if channels[0] !in t.latest || Busy(t.pending, channels[0]) {
      ReadyPassReleases(t, ready, channels[1..]);
    } else {
      var c := channels[0];
      var mid := t.(latest := t.latest - {c});
      ReadyPassReleases(mid, ready + [t.latest[c]], channels[1..]);
      var (after, out) := ReadyPass(mid, ready + [t.latest[c]], channels[1..]);
      ReleasedStep(t, ready, c, mid, after, out);
    }
  }

  lemma ReleasedStep(t: Tables, ready: seq<Offer>, c: nat, mid: Tables, after: Tables, out: seq<Offer>)
    requires c in t.latest && mid == t.(latest := t.latest - {c}) && Released(mid, ready + [t.latest[c]], after, out)
    ensures Released(t, ready, after, out)
  {
    assert out[..|ready|] == out[..|ready| + 1][..|ready|];
    assert out[|ready|] == out[..|ready| + 1][|ready|] == t.latest[c];
    assert out[|ready|..] == [t.latest[c]] + out[|ready| + 1..];
    forall i | |ready| <= i < |out| ensures Emptied(t, after, out[i]) {
      if i == |ready| {
        assert c in t.latest && c !in after.latest;
      } else {
        assert Emptied(mid, after, out[i]);
        var d :| d in mid.latest && d !in after.latest && mid.latest[d] == out[i];
        assert d in t.latest;
      }
    }
  }

  // ---------------------------------------------------------------- the whole tick

  function AckCount(t: Tables): nat { if |t.acks| < MAX_ACKS_PER_TICK then |t.acks| else MAX_ACKS_PER_TICK }

  lemma {:induction false} AckItemsAre(acks: seq<Ack>)
    ensures |AckItems(acks)| == |acks|
    ensures forall i | 0 <= i < |acks| :: AckItems(acks)[i]
              == Outbound(acks[i].destination, acks[i].appKey, 0, false, true, acks[i].data, None, 0)
  {
    if acks != [] { AckItemsAre(acks[1..]); }
  }

  ghost predicate SampleItem(t: Tables, item: Outbound) { exists k | k in t.pending :: Source(t, item, k) }

  ghost predicate AckItem(t: Tables, item: Outbound) {
    exists i | 0 <= i < AckCount(t) :: item
      == Outbound(t.acks[i].destination, t.acks[i].appKey, 0, false, true, t.acks[i].data, None, 0)
  }

  /** Where a value waiting before the tick is afterwards. */
  ghost predicate ValueAfterTick(tick: Tick, c: nat, offer: Offer) {
    || (c in tick.t.latest && tick.t.latest[c] == offer)
    || offer in tick.ready
    || (exists k | k in tick.t.pending :: tick.t.pending[k].channel == c && tick.t.pending[k].age == offer.age)
  }

  ghost predicate TickSummary(t: Tables, tick: Tick, now: Time) {
    && tick.t == t.(pending := tick.t.pending, latest := tick.t.latest, cancellations := tick.t.cancellations,
                    peers := tick.t.peers, seen := PurgeSeen(t.seen, now), acks := t.acks[AckCount(t)..])
    && Fates(t, t.pending.Keys, tick.t, now)
    && SubMap(tick.t.latest, t.latest)
    && (forall c | c in t.latest :: ValueAfterTick(tick, c, t.latest[c]))
    && (forall o | o in tick.ready :: Emptied(t, tick.t, o))
    && |tick.outbound| <= MAX_OUTBOUND
    && (forall item | item in tick.outbound :: AckItem(t, item) || SampleItem(tick.t, item))
  }

  lemma ProcessedIs(keys: seq<nat>, all: set<nat>)
    requires forall k :: k in keys <==> k in all
    ensures Processed({}, keys) == all
  {
    ProcessedAll({}, keys);
  }

  lemma SamplesSummary(start: Pass, now: Time)
    requires Summary(start.t, start.outbound, {}, start, now)
    ensures Summary(start.t, start.outbound, start.t.pending.Keys, SamplesPass(start, Ascending(start.t.pending.Keys), now), now)
  {
    var keys := Ascending(start.t.pending.Keys);
    ProcessedIs(keys, start.t.pending.Keys);
    SamplesPassSummary(start.t, start.outbound, {}, start, keys, now);
  }

  lemma StartSummary(t: Tables, now: Time)
    ensures var start := TickStart(t, now);
            && start.t == t.(seen := PurgeSeen(t.seen, now), acks := t.acks[AckCount(t)..])
            && |start.outbound| == AckCount(t)
            && (forall i | 0 <= i < AckCount(t) :: start.outbound[i]
                  == Outbound(t.acks[i].destination, t.acks[i].appKey, 0, false, true, t.acks[i].data, None, 0))
            && Summary(start.t, start.outbound, {}, start, now)
  {
    AckItemsAre(t.acks[..AckCount(t)]);
  }

  lemma TickEffect(t: Tables, now: Time)
    ensures TickSummary(t, TickLocked(t, now), now)
  {
    var start := TickStart(t, now);
    var a := SamplesPass(start, Ascending(t.pending.Keys), now);
    StartSummary(t, now);
    SamplesSummary(start, now);
    ReadyPassReleases(a.t, [], Ascending(a.t.latest.Keys));
    TickCompose(t, start, a, TickLocked(t, now), now);
  }

  lemma TickCompose(t: Tables, start: Pass, a: Pass, tick: Tick, now: Time)
    requires start.t == t.(seen := PurgeSeen(t.seen, now), acks := t.acks[AckCount(t)..])
    requires |start.outbound| == AckCount(t)
    requires forall i | 0 <= i < AckCount(t) :: start.outbound[i]
              == Outbound(t.acks[i].destination, t.acks[i].appKey, 0, false, true, t.acks[i].data, None, 0)
    requires Summary(start.t, start.outbound, t.pending.Keys, a, now)
    requires Released(a.t, [], tick.t, tick.ready) && tick.outbound == a.outbound
    ensures TickSummary(t, tick, now)
  {
    TickValues(t, start, a, tick, now);
    forall item | item in tick.outbound ensures AckItem(t, item) || SampleItem(tick.t, item) {
      var i :| 0 <= i < |a.outbound| && a.outbound[i] == item;
      if i < |start.outbound| {
        assert item == start.outbound[i];
      } else {
        var k :| k in t.pending.Keys && Source(a.t, item, k);
        assert Source(tick.t, item, k);
      }
    }
    assert Fates(t, t.pending.Keys, tick.t, now) by {
      forall k | k in t.pending ensures Fate(t, k, tick.t, now) { assert Fate(start.t, k, a.t, now); }
    }
  }

  lemma TickValues(t: Tables, start: Pass, a: Pass, tick: Tick, now: Time)
    requires start.t == t.(seen := PurgeSeen(t.seen, now), acks := t.acks[AckCount(t)..])
    requires Summary(start.t, start.outbound, t.pending.Keys, a, now)
    requires Released(a.t, [], tick.t, tick.ready)
    ensures forall c | c in t.latest :: ValueAfterTick(tick, c, t.latest[c])
    ensures forall o | o in tick.ready :: Emptied(t, tick.t, o)
    ensures SubMap(tick.t.latest, t.latest)
  {
    assert tick.ready[0..] == tick.ready;
    forall c | c in t.latest ensures ValueAfterTick(tick, c, t.latest[c]) {
      assert ValueKept(a.t, t.pending.Keys, c, t.latest[c].age);
    }
    forall o | o in tick.ready ensures Emptied(t, tick.t, o) {
      var i :| 0 <= i < |tick.ready| && tick.ready[i] == o;
      assert Emptied(a.t, tick.t, tick.ready[i]);
      var c :| c in a.t.latest && c !in tick.t.latest && a.t.latest[c] == o;
      assert c in t.latest;
    }
  }
}
