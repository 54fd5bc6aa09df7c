/** At-most-once publication by one receiver, between resets, whatever the interleaving of duplicates,
    failed decodes, queries and worker ticks. */
module AtMostOnce {
  import opened MeshFrame
  import opened MeshTables
  import opened MeshWorker
  import opened MeshEffects
  import opened MeshLogs
  import MeshNetwork

  /** What happened at this receiver: the clock, when each key was last stored or published, the keys the
      bridge is decoding, and every successful publication. */
  datatype Diary = Diary(clock: Time, touched: map<SeenKey, Time>, decoding: set<SeenKey>, published: multiset<SeenKey>)

  function MessageKey(m: Received): SeenKey { KeyOf(m.source, m.appKey, m.data) }

  function TimeOf(e: Event, clock: Time): Time {
    match e
    case StartTick(now) => now
    case ReceiveFrame(_, now) => now
    case DecodeDone(_, _, _, _, now) => now
    case _ => clock
  }

  predicate StartsDecoding(n: Node, e: Event)
    requires Enabled(n, e)
  {
    e.ReceiveFrame? && FrameReceived(n.t, e.message.source, e.message.appKey, e.message.data, e.now).1
  }

  function Noted(n: Node, d: Diary, e: Event): Diary
    requires Enabled(n, e)
  {
    var clock := TimeOf(e, d.clock);
    if StartsDecoding(n, e) then
      Diary(clock, d.touched[MessageKey(e.message) := e.now], d.decoding + {MessageKey(e.message)}, d.published)
    else if e.DecodeDone? && e.delivered then
      Diary(clock, d.touched[MessageKey(e.message) := e.now], d.decoding - {MessageKey(e.message)},
            d.published + multiset{MessageKey(e.message)})
    else if e.DecodeDone? then
      Diary(clock, d.touched - {MessageKey(e.message)}, d.decoding - {MessageKey(e.message)}, d.published)
    else d.(clock := clock)
  }

  predicate Recent(d: Diary, k: SeenKey, now: Time) { k in d.touched ==> now - d.touched[k] <= SEEN_RETENTION }

  /** Between resets, with a steady clock: every data copy arrives, and every decode ends, within the
      retention of its key, and the bridge finishes only what it started. */
  predicate Timely(d: Diary, e: Event) {
    && !e.Reset? && d.clock <= TimeOf(e, d.clock)
    && (e.ReceiveFrame? && IsDataFrame(e.message.data) ==> Recent(d, MessageKey(e.message), e.now))
    && (e.DecodeDone? ==> MessageKey(e.message) in d.decoding && Recent(d, MessageKey(e.message), e.now))
  }

  /** The receive table is the recent part of the diary. */
  ghost predicate TableIsRecent(t: Tables, d: Diary) {
    && (forall k | k in t.seen :: k in d.touched && t.seen[k].last == d.touched[k])
    && (forall k | k in d.touched && Recent(d, k, d.clock) :: k in t.seen)
  }

  ghost predicate PublishedOnce(t: Tables, d: Diary) {
    && (forall k | k in d.decoding :: k in d.touched && k !in d.published && (k in t.seen ==> !t.seen[k].delivered))
    && (forall k | k in d.published :: d.published[k] == 1 && k in d.touched && (k in t.seen ==> t.seen[k].delivered))
    && (forall k | k in t.seen && t.seen[k].delivered :: k in d.published)
  }

  ghost predicate OnceOk(t: Tables, d: Diary) { TableIsRecent(t, d) && PublishedOnce(t, d) }

  lemma PurgeOnce(t: Tables, d: Diary, now: Time, after: Tables)
    requires OnceOk(t, d) && d.clock <= now && after.seen == PurgeSeen(t.seen, now)
    ensures OnceOk(after, d.(clock := now))
  {}

  lemma TickOnce(t: Tables, d: Diary, now: Time)
    requires OnceOk(t, d) && d.clock <= now
    ensures OnceOk(TickLocked(t, now).t, d.(clock := now))
  {
    TickEffect(t, now);
    PurgeOnce(t, d, now, TickLocked(t, now).t);
  }

  lemma SeenAfterFrame(n: Node, e: Event)
    requires Enabled(n, e) && e.ReceiveFrame?
    ensures StartsDecoding(n, e) <==> IsDataFrame(e.message.data) && MessageKey(e.message) !in n.t.seen
    ensures Next(n, e).t.seen
            == if StartsDecoding(n, e) then n.t.seen[MessageKey(e.message) := Seen(e.now, false)] else n.t.seen
  {}

  lemma NewEntry(t: Tables, d: Diary, k: SeenKey, now: Time, after: Tables)
    requires OnceOk(t, d) && k !in t.seen && d.clock <= now && Recent(d, k, now) && after.seen == t.seen[k := Seen(now, false)]
    ensures OnceOk(after, Diary(now, d.touched[k := now], d.decoding + {k}, d.published))
  {}

  lemma OldEntries(t: Tables, d: Diary, now: Time, after: Tables)
    requires OnceOk(t, d) && d.clock <= now && after.seen == t.seen
    ensures OnceOk(after, d.(clock := now))
  {}

  lemma FrameOnce(n: Node, d: Diary, e: Event)
    requires OnceOk(n.t, d) && Enabled(n, e) && e.ReceiveFrame? && Timely(d, e)
    ensures OnceOk(Next(n, e).t, Noted(n, d, e))
  {
    SeenAfterFrame(n, e);
    if StartsDecoding(n, e) {
      NewEntry(n.t, d, MessageKey(e.message), e.now, Next(n, e).t);
    } else {
      OldEntries(n.t, d, e.now, Next(n, e).t);
    }
  }

  lemma SeenAfterDecode(n: Node, e: Event)
    requires Enabled(n, e) && e.DecodeDone? && MessageKey(e.message) in n.t.seen
    ensures Next(n, e).t.seen
            == if e.delivered then n.t.seen[MessageKey(e.message) := Seen(e.now, true)] else n.t.seen - {MessageKey(e.message)}
  {}

  lemma Delivered(t: Tables, d: Diary, k: SeenKey, now: Time, after: Tables)
    requires OnceOk(t, d) && k in d.decoding && d.clock <= now && after.seen == t.seen[k := Seen(now, true)]
    ensures OnceOk(after, Diary(now, d.touched[k := now], d.decoding - {k}, d.published + multiset{k}))
  {}

  lemma Undelivered(t: Tables, d: Diary, k: SeenKey, now: Time, after: Tables)
    requires OnceOk(t, d) && k in d.decoding && d.clock <= now && after.seen == t.seen - {k}
    ensures OnceOk(after, Diary(now, d.touched - {k}, d.decoding - {k}, d.published))
  {}

  lemma DecodeOnce(n: Node, d: Diary, e: Event)
    requires OnceOk(n.t, d) && Enabled(n, e) && e.DecodeDone? && Timely(d, e)
    ensures OnceOk(Next(n, e).t, Noted(n, d, e))
  {
    var k := MessageKey(e.message);
    assert Recent(d, k, d.clock) && k in n.t.seen;
    SeenAfterDecode(n, e);
    if e.delivered {
      Delivered(n.t, d, k, e.now, Next(n, e).t);
    } else {
      Undelivered(n.t, d, k, e.now, Next(n, e).t);
    }
  }

  lemma EventOnce(n: Node, d: Diary, e: Event)
    requires OnceOk(n.t, d) && Enabled(n, e) && Timely(d, e)
    ensures OnceOk(Next(n, e).t, Noted(n, d, e))
  {
    if e.StartTick? {
      TickOnce(n.t, d, e.now);
    } else if e.ReceiveFrame? {
      FrameOnce(n, d, e);
    } else if e.DecodeDone? {
      DecodeOnce(n, d, e);
    } else if MeshNetwork.IsLocal(e) {
      LocalSameSeen(n, e);
    } else {
      AckShrinks(n.t, e.message.source, e.message.appKey, e.message.data);
    }
  }

  ghost function DiaryAt(trace: seq<Node>, events: seq<Event>, i: nat): Diary
    requires IsRun(trace, events) && i <= |events|
  {
    if i == 0 then Diary(0, map[], {}, multiset{}) else Noted(trace[i - 1], DiaryAt(trace, events, i - 1), events[i - 1])
  }

  ghost predicate TimelyRun(trace: seq<Node>, events: seq<Event>) {
    IsRun(trace, events) && forall i | 0 <= i < |events| :: Timely(DiaryAt(trace, events, i), events[i])
  }

  lemma {:induction false} RunOnce(trace: seq<Node>, events: seq<Event>, i: nat)
    requires TimelyRun(trace, events) && i <= |events|
    ensures OnceOk(trace[i].t, DiaryAt(trace, events, i))
  {
    if i > 0 {
      RunOnce(trace, events, i - 1);
      EventOnce(trace[i - 1], DiaryAt(trace, events, i - 1), events[i - 1]);
    }
  }

  /** Successful publications of key `k` among the first `i` events. */
  ghost function Publications(events: seq<Event>, i: nat, k: SeenKey): nat
    requires i <= |events|
  {
    if i == 0 then 0
    else Publications(events, i - 1, k)
         + (if events[i - 1].DecodeDone? && events[i - 1].delivered && MessageKey(events[i - 1].message) == k then 1 else 0)
  }

  lemma {:induction false} DiaryCounts(trace: seq<Node>, events: seq<Event>, i: nat, k: SeenKey)
    requires IsRun(trace, events) && i <= |events|
    ensures DiaryAt(trace, events, i).published[k] == Publications(events, i, k)
  {
    if i > 0 { DiaryCounts(trace, events, i - 1, k); }
  }

  /** Each (source, key index, swarm, opcode, sequence) is published at most once. */
  lemma PublishedAtMostOnce(trace: seq<Node>, events: seq<Event>, k: SeenKey)
    requires TimelyRun(trace, events)
    ensures Publications(events, |events|, k) <= 1
  {
    RunOnce(trace, events, |events|);
    DiaryCounts(trace, events, |events|, k);
  }

  /** What a receipt promises: once a key is marked delivered it was published, exactly once. */
  lemma DeliveredMeansPublished(trace: seq<Node>, events: seq<Event>, k: SeenKey)
    requires TimelyRun(trace, events)
    requires k in trace[|events|].t.seen && trace[|events|].t.seen[k].delivered
    ensures Publications(events, |events|, k) == 1
  {
    RunOnce(trace, events, |events|);
    DiaryCounts(trace, events, |events|, k);
  }

  /** The retention is what protects a key: a further copy is decoded again exactly when a tick found the
      entry older than 90 s. */
  lemma DecodedAgainIff(t: Tables, m: Received, tick: Time, now: Time)
    requires IsDataFrame(m.data) && MessageKey(m) in t.seen
    ensures FrameReceived(TickLocked(t, tick).t, m.source, m.appKey, m.data, now).1
            <==> tick - t.seen[MessageKey(m)].last > SEEN_RETENTION
  {
    TickEffect(t, tick);
  }
}
