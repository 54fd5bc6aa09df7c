/** Whole runs: the cache stays what a parse of the exported tree gives, an observer that replays the
    dispatched events holds exactly the cached keys, and children go before their parents. */
module CacheRuns {
  import opened CacheTables
  import opened CacheTheorems
  import opened CacheSnapshots

  // ---------------------------------------------------------------- children before parents

  /** `a` is an ancestor object of `b`: shallower kind, and `b` lies strictly below it. */
  predicate ParentOf(a: Key, b: Key) { Rank(a.0) < Rank(b.0) && IsChild(a.1, b.1) }

  ghost predicate ChildrenFirst(events: seq<Event>) {
    forall i, j | 0 <= i < j < |events| && events[i].Removed? && events[j].Removed? :: !ParentOf(events[i].key, events[j].key)
  }

  lemma ChildTransitive(a: Path, b: Path, c: Path)
    requires (a == b || IsChild(a, b)) && IsChild(b, c)
    ensures IsChild(a, c)
  {
    if a != b {
      assert c[..|b|][..|a|] == c[..|a|];
      assert c[|a|] == c[..|b|][|a|] == b[|a|];
    }
  }

  lemma BatchWasCached(t: Tables, kind: Kind, path: Path, events: seq<Event>, j: nat)
    requires RemovalBatch(Gone(t, kind, path), events) && j < |events|
    ensures events[j].Removed? && (events[j].key.1 == path || Has(t, events[j].key))
  {
    assert Removed(events[j].key) in events;
    assert events[j].key in Gone(t, kind, path);
  }

  lemma StillCached(t: Tables, kind: Kind, path: Path, k: Key)
    requires k.1 == path || Has(RemoveKind(t, kind, path), k)
    ensures k.1 == path || Has(t, k)
  {
    RemoveAt(t, kind, path, k);
  }

  /** The events of the first removed interface, and the rest. */
  lemma FirstRemoval(t: Tables, path: Path, ifaces: seq<Interface>, events: seq<Event>) returns (n: nat)
    requires RemovalEvents(t, path, ifaces, events) && ifaces != [] && ifaces[0].Typed?
    ensures n <= |events| && RemovalBatch(Gone(t, ifaces[0].kind, path), events[..n])
    ensures RemovalEvents(RemoveKind(t, ifaces[0].kind, path), path, ifaces[1..], events[n..])
  {
    var kind := ifaces[0].kind;
    n :| 0 <= n <= |events| && RemovalBatch(Gone(t, kind, path), events[..n])
         && RemovalEvents(RemoveKind(t, kind, path), path, ifaces[1..], events[n..]);
  }

  lemma {:induction false} RemovedWereCached(t: Tables, path: Path, ifaces: seq<Interface>, events: seq<Event>, j: nat)
    requires RemovalEvents(t, path, ifaces, events) && j < |events|
    ensures events[j].Removed? && (events[j].key.1 == path || Has(t, events[j].key))
    decreases |ifaces|
  {
    if !ifaces[0].Typed? {
      RemovedWereCached(t, path, ifaces[1..], events, j);
    } else {
      var kind := ifaces[0].kind;
      var n := FirstRemoval(t, path, ifaces, events);
      if j < n {
        BatchWasCached(t, kind, path, events[..n], j);
      } else {
        RemovedWereCached(RemoveKind(t, kind, path), path, ifaces[1..], events[n..], j - n);
        assert events[n..][j - n] == events[j];
        StillCached(t, kind, path, events[j].key);
      }
    }
  }

  lemma LaterIsNoChild(t: Tables, kind: Kind, path: Path, first: Key, later: Key)
    requires first in Gone(t, kind, path) && (later.1 == path || Has(RemoveKind(t, kind, path), later))
    ensures !ParentOf(first, later)
  {
    RemoveAt(t, kind, path, later);
    if ParentOf(first, later) { ChildTransitive(path, first.1, later.1); }
  }

  /** Within the events of one InterfacesRemoved signal children are removed before their parents. */
  lemma {:induction false} RemovalChildrenFirst(t: Tables, path: Path, ifaces: seq<Interface>, events: seq<Event>)
    requires RemovalEvents(t, path, ifaces, events)
    ensures ChildrenFirst(events)
    decreases |ifaces|
  {
    if ifaces == [] {
    } else if !ifaces[0].Typed? {
      RemovalChildrenFirst(t, path, ifaces[1..], events);
    } else {
      var kind := ifaces[0].kind;
      var n := FirstRemoval(t, path, ifaces, events);
      RemovalChildrenFirst(RemoveKind(t, kind, path), path, ifaces[1..], events[n..]);
      SplitChildrenFirst(t, kind, path, ifaces[1..], events, n);
    }
  }

  lemma SplitChildrenFirst(t: Tables, kind: Kind, path: Path, rest: seq<Interface>, events: seq<Event>, n: nat)
    requires n <= |events| && RemovalBatch(Gone(t, kind, path), events[..n])
    requires RemovalEvents(RemoveKind(t, kind, path), path, rest, events[n..]) && ChildrenFirst(events[n..])
    ensures ChildrenFirst(events)
  {
    forall i, j | 0 <= i < j < |events| && events[i].Removed? && events[j].Removed? ensures !ParentOf(events[i].key, events[j].key) {
      if j < n {
        assert events[..n][i] == events[i] && events[..n][j] == events[j];
      } else if i >= n {
        assert events[n..][i - n] == events[i] && events[n..][j - n] == events[j];
      } else {
        RemovedWereCached(RemoveKind(t, kind, path), path, rest, events[n..], j - n);
        assert Removed(events[i].key) in events[..n] by { assert events[..n][i] == events[i]; }
        LaterIsNoChild(t, kind, path, events[i].key, events[j].key);
      }
    }
  }

  lemma AdditionsRemoveNothing(t: Tables, path: Path, ifaces: Interfaces)
    ensures forall i | 0 <= i < |ProcessEvents(t, path, ifaces)| :: ProcessEvents(t, path, ifaces)[i].Added?
  {}

  lemma {:induction false} AllAdditions(t: Tables, objects: Objects, order: seq<Path>)
    requires forall p | p in order :: p in objects
    ensures forall i | 0 <= i < |ProcessAllEvents(t, objects, order)| :: ProcessAllEvents(t, objects, order)[i].Added?
    decreases |order|
  {
    if order != [] {
      AdditionsRemoveNothing(t, order[0], objects[order[0]]);
      AllAdditions(ProcessObject(t, order[0], objects[order[0]]), objects, order[1..]);
    }
  }

  lemma ThenAdditions(gone: set<Key>, events: seq<Event>, n: nat)
    requires n <= |events| && RemovalBatch(gone, events[..n]) && forall i | 0 <= i < |events[n..]| :: events[n..][i].Added?
    ensures ChildrenFirst(events)
  {
    assert forall j | n <= j < |events| :: events[j] == events[n..][j - n];
    assert forall j | 0 <= j < n :: events[j] == events[..n][j];
  }

  /** ... and within one refresh. */
  lemma RefreshChildrenFirst(t: Tables, objects: Objects, device: Path, order: seq<Path>, events: seq<Event>)
    requires (forall p | p in order :: p in objects) && RefreshEvents(t, objects, device, order, events)
    ensures ChildrenFirst(events)
  {
    if order != [] {
      var n :| 0 <= n <= |events| && RemovalBatch(StaleKeys(t, objects, device), events[..n])
               && events[n..] == ProcessAllEvents(DropStale(t, objects, device), objects, order);
      AllAdditions(DropStale(t, objects, device), objects, order);
      ThenAdditions(StaleKeys(t, objects, device), events, n);
    }
  }

  // ---------------------------------------------------------------- daemon replacement

  datatype Answer = NoAnswer | Answered(objects: Objects)

  /** A change of the bus owner: an old owner's objects are forgotten, a new owner's are loaded. */
  function OwnerChanged(t: Tables, previous: string, owner: string, answer: Answer, order: seq<Path>): Tables
    requires answer.Answered? ==> forall p | p in order :: p in answer.objects
  {
    if previous == owner then t
    else
      var cleared := if previous != "" then EMPTY else t;
      if owner != "" && answer.Answered? then ProcessAll(cleared, answer.objects, order) else cleared
  }

  ghost predicate OwnerEvents(t: Tables, previous: string, owner: string, answer: Answer, order: seq<Path>, events: seq<Event>)
    requires answer.Answered? ==> forall p | p in order :: p in answer.objects
  {
    if previous == owner then events == []
    else
      exists n | 0 <= n <= |events| ::
        RemovalBatch(if previous != "" then Keys(t) else {}, events[..n])
        && events[n..] == if owner != "" && answer.Answered?
                          then ProcessAllEvents(if previous != "" then EMPTY else t, answer.objects, order) else []
  }

  lemma ClearedThenLoaded(t: Tables, gone: set<Key>, cleared: Tables, objects: Objects, order: seq<Path>, events: seq<Event>, n: nat)
    requires (forall p | p in order :: p in objects) && n <= |events| && RemovalBatch(gone, events[..n]) && Keys(t) - gone == Keys(cleared)
    requires events[n..] == ProcessAllEvents(cleared, objects, order)
    ensures Replay(Keys(t), events) == Keys(ProcessAll(cleared, objects, order)) && ChildrenFirst(events)
  {
    SplitReplay(Keys(t), events, n);
    BatchReplays(Keys(t), gone, events[..n]);
    ProcessAllReplays(cleared, objects, order);
    AllAdditions(cleared, objects, order);
    ThenAdditions(gone, events, n);
  }

  lemma NoKeys()
    ensures Keys(EMPTY) == {}
  {
    assert forall k :: !Has(EMPTY, k);
  }

  /** A daemon replacement tells the observer everything, children first. */
  lemma OwnerReplays(t: Tables, previous: string, owner: string, answer: Answer, order: seq<Path>, events: seq<Event>)
    requires answer.Answered? ==> forall p | p in order :: p in answer.objects
    requires OwnerEvents(t, previous, owner, answer, order, events)
    ensures Replay(Keys(t), events) == Keys(OwnerChanged(t, previous, owner, answer, order)) && ChildrenFirst(events)
  {
    if previous != owner {
      var gone := if previous != "" then Keys(t) else {};
      var cleared := if previous != "" then EMPTY else t;
      var loads := owner != "" && answer.Answered?;
      var n :| 0 <= n <= |events| && RemovalBatch(gone, events[..n])
               && events[n..] == if loads then ProcessAllEvents(cleared, answer.objects, order) else [];
      NoKeys();
      assert Keys(t) - gone == Keys(cleared);
      ClearedThenLoaded(t, gone, cleared, if loads then answer.objects else map[], if loads then order else [], events, n);
    }
  }

  /** After a daemon replacement with a successful reload the tables are the new snapshot alone,
      whatever was cached and in whatever order the objects are processed. */
  lemma ReplacementIsBatch(t: Tables, previous: string, owner: string, objects: Objects, order: seq<Path>)
    requires previous != owner && previous != "" && owner != "" && Lists(order, objects.Keys)
    ensures OwnerChanged(t, previous, owner, Answered(objects), order) == Batch(objects)
  {
    ReloadIsBatch(objects, order);
  }

  // ---------------------------------------------------------------- runs

  datatype Signal =
    | InterfacesAdded(path: Path, ifaces: Interfaces)
    | InterfacesRemoved(path: Path, lost: seq<Interface>)
    | PropertiesChanged(key: Key, changed: Properties, invalidated: set<Property>)
    | Refresh(device: Path, answered: bool, order: seq<Path>)
    | DaemonReplaced(previous: string, owner: string, objects: Objects, order: seq<Path>)
    | Missed(objects: Objects)

  /** What the daemon exports, what is cached, and what an observer has replayed. */
  datatype World = World(exported: Objects, cache: Tables, observed: set<Key>)

  function LosesAll(objects: Objects, path: Path, ifaces: seq<Interface>): Objects
    decreases |ifaces|
  {
    if ifaces == [] then objects
    else LosesAll(if ifaces[0].Typed? then LosesTree(objects, ifaces[0].kind, path) else objects, path, ifaces[1..])
  }

  /** A refresh that gets as far as a snapshot: it names a device and its call is answered. */
  predicate Fetches(s: Signal) { s.Refresh? && s.device != "" && s.answered }

  /** The signals of a well-formed daemon: changes of exported objects, complete snapshots. A missed signal
      leaves the daemon with any other tree. */
  ghost predicate WellFormed(w: World, s: Signal) {
    match s
    case InterfacesAdded(_, _) => true
    case InterfacesRemoved(_, _) => true
    case PropertiesChanged(key, _, _) => Exports(w.exported, key)
    case Refresh(device, _, order) => Fetches(s) ==> Lists(order, Concerned(w.exported, device))
    case DaemonReplaced(previous, owner, objects, order) => previous != owner && previous != "" && owner != "" && Lists(order, objects.Keys)
    case Missed(_) => true
  }

  function ExportedAfter(w: World, s: Signal): Objects
    requires WellFormed(w, s)
  {
    match s
    case InterfacesAdded(path, ifaces) => Gains(w.exported, path, ifaces)
    case InterfacesRemoved(path, lost) => LosesAll(w.exported, path, lost)
    case PropertiesChanged(key, changed, invalidated) => Changes(w.exported, key, changed, invalidated)
    case Refresh(_, _, _) => w.exported
    case DaemonReplaced(_, _, objects, _) => objects
    case Missed(objects) => objects
  }

  function CachedAfter(w: World, s: Signal): Tables
    requires WellFormed(w, s)
  {
    match s
    case InterfacesAdded(path, ifaces) => ProcessObject(w.cache, path, ifaces)
    case InterfacesRemoved(path, lost) => RemoveAll(w.cache, path, lost)
    case PropertiesChanged(key, changed, invalidated) => ChangeProperties(w.cache, key.1, Typed(key.0), changed, invalidated)
    case Refresh(device, _, order) => if Fetches(s) then Refreshed(w.cache, w.exported, device, order) else w.cache
    case DaemonReplaced(previous, owner, objects, order) => OwnerChanged(w.cache, previous, owner, Answered(objects), order)
    case Missed(_) => w.cache
  }

  ghost predicate Dispatches(w: World, s: Signal, events: seq<Event>)
    requires WellFormed(w, s)
  {
    match s
    case InterfacesAdded(path, ifaces) => events == ProcessEvents(w.cache, path, ifaces)
    case InterfacesRemoved(path, lost) => RemovalEvents(w.cache, path, lost, events)
    case PropertiesChanged(key, changed, invalidated) => events == ChangeEvents(w.cache, key.1, Typed(key.0), changed, invalidated)
    case Refresh(device, _, order) => if Fetches(s) then RefreshEvents(w.cache, w.exported, device, order, events) else events == []
    case DaemonReplaced(previous, owner, objects, order) => OwnerEvents(w.cache, previous, owner, Answered(objects), order, events)
    case Missed(_) => events == []
  }

  ghost predicate Handles(w: World, s: Signal, w': World) {
    && WellFormed(w, s) && w'.exported == ExportedAfter(w, s) && w'.cache == CachedAfter(w, s)
    && exists events :: Dispatches(w, s, events) && w'.observed == Replay(w.observed, events)
  }

  lemma {:induction false} RemoveAllAgrees(objects: Objects, path: Path, ifaces: seq<Interface>)
    ensures RemoveAll(Batch(objects), path, ifaces) == Batch(LosesAll(objects, path, ifaces))
    decreases |ifaces|
  {
    if ifaces != [] {
      if ifaces[0].Typed? {
        RemovedAgrees(objects, ifaces[0].kind, path);
        RemoveAllAgrees(LosesTree(objects, ifaces[0].kind, path), path, ifaces[1..]);
      } else {
        RemoveAllAgrees(objects, path, ifaces[1..]);
      }
    }
  }

  /** Refreshing from a snapshot the cache already agrees with changes nothing. */
  lemma RefreshAgrees(objects: Objects, device: Path, order: seq<Path>)
    requires Lists(order, Concerned(objects, device))
    ensures Refreshed(Batch(objects), objects, device, order) == Batch(objects)
  {
    forall k ensures SameAt(Refreshed(Batch(objects), objects, device, order), Batch(objects), k) {
      RefreshedAt(Batch(objects), objects, device, order, k);
      BatchAt(objects, k);
    }
    SameTables(Refreshed(Batch(objects), objects, device, order), Batch(objects));
  }

  /** The handlers follow the signal: it arrives, and a property change is caught in every property. */
  ghost predicate Followed(w: World, s: Signal) {
    && !s.Missed?
    && (s.PropertiesChanged? && Exports(w.exported, s.key) ==>
          forall p :: Caught(s.key.0, p, PropertiesOf(w.exported, s.key), s.changed, s.invalidated))
  }

  /** A signal that is followed keeps an agreeing cache in agreement; a daemon replacement restores agreement. */
  lemma CacheAgrees(w: World, s: Signal)
    requires WellFormed(w, s) && (s.DaemonReplaced? || (Followed(w, s) && w.cache == Batch(w.exported)))
    ensures CachedAfter(w, s) == Batch(ExportedAfter(w, s))
  {
    match s
    case InterfacesAdded(path, ifaces) => AddedAgrees(w.exported, path, ifaces);
    case InterfacesRemoved(path, lost) => RemoveAllAgrees(w.exported, path, lost);
    case PropertiesChanged(key, changed, invalidated) => ChangeAgreesIff(w.exported, key, changed, invalidated);
    case Refresh(device, _, order) => if Fetches(s) { RefreshAgrees(w.exported, device, order); }
    case DaemonReplaced(previous, owner, objects, order) => ReplacementIsBatch(w.cache, previous, owner, objects, order);
  }

  /** The refresh erases cached entries without an event. */
  ghost predicate Silences(w: World, s: Signal) {
    Fetches(s) && s.order == [] && exists k: Key | k in Keys(w.cache) :: k.0 != DeviceKind && IsChild(s.device, k.1)
  }

  lemma EventsReplay(w: World, s: Signal, events: seq<Event>)
    requires WellFormed(w, s) && Dispatches(w, s, events) && w.observed == Keys(w.cache) && !Silences(w, s)
    ensures Replay(w.observed, events) == Keys(CachedAfter(w, s))
  {
    match s
    case InterfacesAdded(path, ifaces) => ProcessReplays(w.cache, path, ifaces);
    case InterfacesRemoved(path, lost) => RemovalReplays(w.cache, path, lost, events);
    case PropertiesChanged(key, changed, invalidated) => ChangeReplays(w.cache, key.1, Typed(key.0), changed, invalidated);
    case Refresh(device, _, order) =>
      assert forall k | Has(w.cache, k) :: k in Keys(w.cache);
      if Fetches(s) { RefreshReplaysIff(w.cache, w.exported, device, order, events); }
    case DaemonReplaced(previous, owner, objects, order) =>
      OwnerReplays(w.cache, previous, owner, Answered(objects), order, events);
    case Missed(_) =>
  }

  /** Every handler keeps the agreement of cache and observer, whatever was missed before, unless it is a
      refresh that silently erases. */
  lemma SignalObserves(w: World, s: Signal, w': World)
    requires Handles(w, s, w') && w.observed == Keys(w.cache) && !Silences(w, s)
    ensures w'.observed == Keys(w'.cache)
  {
    var events :| Dispatches(w, s, events) && w'.observed == Replay(w.observed, events);
    EventsReplay(w, s, events);
  }

  lemma AgreementIsNotSilenced(w: World, s: Signal)
    requires WellFormed(w, s) && w.cache == Batch(w.exported)
    ensures !Silences(w, s)
  {
    if Fetches(s) && s.order == [] {
      assert forall p :: p in Concerned(w.exported, s.device) ==> p in s.order;
      assert forall k | k in Keys(w.cache) :: Has(w.cache, k);
      NothingBelow(w.exported, s.device);
    }
  }

  lemma NothingBelow(objects: Objects, device: Path)
    requires Concerned(objects, device) == {}
    ensures forall k | Has(Batch(objects), k) && k.0 != DeviceKind :: !IsChild(device, k.1)
  {
    forall k | Has(Batch(objects), k) && k.0 != DeviceKind ensures !IsChild(device, k.1) {
      BatchAt(objects, k);
      assert IsChild(device, k.1) ==> k.1 in Concerned(objects, device);
    }
  }

  /** `trace` starts with an empty daemon and cache and handles the signals one after the other. */
  ghost predicate IsRun(trace: seq<World>, signals: seq<Signal>) {
    && |trace| == |signals| + 1 && trace[0] == World(map[], EMPTY, {})
    && forall i | 0 <= i < |signals| :: Handles(trace[i], signals[i], trace[i + 1])
  }

  /** Since the start or the last daemon replacement every signal was followed. */
  ghost predicate InStep(trace: seq<World>, signals: seq<Signal>, i: nat)
    requires i <= |signals| < |trace|
  {
    i == 0 || signals[i - 1].DaemonReplaced? || (Followed(trace[i - 1], signals[i - 1]) && InStep(trace, signals, i - 1))
  }

  lemma AgreesAfter(w: World, s: Signal, w': World)
    requires Handles(w, s, w') && (s.DaemonReplaced? || (Followed(w, s) && w.cache == Batch(w.exported)))
    ensures w'.cache == Batch(w'.exported)
  {
    CacheAgrees(w, s);
  }

  /** Over every run the tables equal a parse from scratch whenever every signal was followed since the last
      daemon replacement. */
  lemma {:induction false} RunAgrees(trace: seq<World>, signals: seq<Signal>, i: nat)
    requires IsRun(trace, signals) && i <= |signals| && InStep(trace, signals, i)
    ensures trace[i].cache == Batch(trace[i].exported)
  {
    if i == 0 {
      assert EMPTY == Batch(map[]);
    } else {
      if !signals[i - 1].DaemonReplaced? { RunAgrees(trace, signals, i - 1); }
      AgreesAfter(trace[i - 1], signals[i - 1], trace[i]);
    }
  }

  /** A property change takes an agreeing cache out of agreement exactly when it is not caught. */
  lemma ChangeStaysIff(trace: seq<World>, signals: seq<Signal>, i: nat)
    requires IsRun(trace, signals) && i < |signals| && InStep(trace, signals, i) && signals[i].PropertiesChanged?
    ensures trace[i + 1].cache == Batch(trace[i + 1].exported) <==> InStep(trace, signals, i + 1)
  {
    RunAgrees(trace, signals, i);
    assert Handles(trace[i], signals[i], trace[i + 1]);
    ChangeAgreesIff(trace[i].exported, signals[i].key, signals[i].changed, signals[i].invalidated);
  }

  /** Over every run, missed signals or not, the observer's key sets are the cached ones, as long as no
      refresh erased silently. */
  lemma {:induction false} RunObserves(trace: seq<World>, signals: seq<Signal>, i: nat)
    requires IsRun(trace, signals) && i <= |signals| && forall j | 0 <= j < i :: !Silences(trace[j], signals[j])
    ensures trace[i].observed == Keys(trace[i].cache)
  {
    if i == 0 {
      NoKeys();
    } else {
      RunObserves(trace, signals, i - 1);
      SignalObserves(trace[i - 1], signals[i - 1], trace[i]);
    }
  }

  lemma FollowedStep(w: World, s: Signal, w': World)
    requires Handles(w, s, w') && Followed(w, s) && w.cache == Batch(w.exported) && w.observed == Keys(w.cache)
    ensures w'.cache == Batch(w'.exported) && w'.observed == Keys(w'.cache)
  {
    CacheAgrees(w, s);
    AgreementIsNotSilenced(w, s);
    SignalObserves(w, s, w');
  }

  /** While every signal is followed nothing is silenced: daemon, cache and observer agree throughout. */
  lemma {:induction false} FaithfulRun(trace: seq<World>, signals: seq<Signal>, i: nat)
    requires IsRun(trace, signals) && i <= |signals|
    requires forall j | 0 <= j < i :: Followed(trace[j], signals[j])
    ensures InStep(trace, signals, i) && trace[i].cache == Batch(trace[i].exported) && trace[i].observed == Keys(trace[i].cache)
  {
    if i == 0 {
      assert EMPTY == Batch(map[]);
      NoKeys();
    } else {
      FaithfulRun(trace, signals, i - 1);
      FollowedStep(trace[i - 1], signals[i - 1], trace[i]);
    }
  }

  /** A refresh repairs whatever was missed below its device, unless a path changed its interface kind: then,
      and only then, the tables below the device still differ from the tree. */
  lemma RefreshRepairsIff(w: World, s: Signal, w': World)
    requires Handles(w, s, w') && Fetches(s)
    ensures (forall k: Key | k.0 != DeviceKind && IsChild(s.device, k.1) :: SameAt(w'.cache, Batch(w'.exported), k))
            <==> KindsKept(w.cache, w.exported, s.device)
    ensures Exports(w'.exported, (DeviceKind, s.device)) ==> SameAt(w'.cache, Batch(w'.exported), (DeviceKind, s.device))
  {
    ReconcilesExactlyIff(w.cache, w.exported, s.device, s.order);
    Reconciles(w.cache, w.exported, s.device, s.order, (DeviceKind, s.device));
    BatchAt(w.exported, (DeviceKind, s.device));
  }
}
