/** Reconciliation with an authoritative snapshot, and the event stream an observer can replay. */
module CacheSnapshots {
  import opened CacheTables
  import opened CacheTheorems

  // ---------------------------------------------------------------- processing many objects, in any order

  lemma {:induction false} ProcessAllAt(t: Tables, objects: Objects, order: seq<Path>, k: Key)
    requires forall p | p in order :: p in objects
    ensures Has(ProcessAll(t, objects, order), k) <==> Has(t, k) || (k.1 in order && Exports(objects, k))
    ensures k.1 in order && Exports(objects, k) ==> Lookup(ProcessAll(t, objects, order), k) == Parsed(k, PropertiesOf(objects, k))
    ensures !(k.1 in order && Exports(objects, k)) && Has(t, k) ==> Lookup(ProcessAll(t, objects, order), k) == Lookup(t, k)
    decreases |order|
  {
    if order != [] {
      assert order == [order[0]] + order[1..];
      ProcessAt(t, order[0], objects[order[0]], k);
      ProcessAllAt(ProcessObject(t, order[0], objects[order[0]]), objects, order[1..], k);
    }
  }

  /** The result does not depend on the order of the snapshot's objects. */
  lemma OrderIrrelevant(t: Tables, objects: Objects, one: seq<Path>, other: seq<Path>, paths: set<Path>)
    requires Lists(one, paths) && Lists(other, paths) && forall p | p in paths :: p in objects
    ensures ProcessAll(t, objects, one) == ProcessAll(t, objects, other)
  {
    forall k ensures SameAt(ProcessAll(t, objects, one), ProcessAll(t, objects, other), k) {
      ProcessAllAt(t, objects, one, k);
      ProcessAllAt(t, objects, other, k);
      assert k.1 in one <==> k.1 in paths;
      assert k.1 in other <==> k.1 in paths;
    }
    SameTables(ProcessAll(t, objects, one), ProcessAll(t, objects, other));
  }

  /** After a daemon replacement with a successful reload the tables are the new snapshot alone. */
  lemma ReloadIsBatch(objects: Objects, order: seq<Path>)
    requires Lists(order, objects.Keys)
    ensures ProcessAll(EMPTY, objects, order) == Batch(objects)
  {
    forall k ensures SameAt(ProcessAll(EMPTY, objects, order), Batch(objects), k) {
      ProcessAllAt(EMPTY, objects, order, k);
      BatchAt(objects, k);
      assert k.1 in objects.Keys <==> k.1 in order;
    }
    SameTables(ProcessAll(EMPTY, objects, order), Batch(objects));
  }

  // ---------------------------------------------------------------- refreshing one device

  function Refreshed(t: Tables, objects: Objects, device: Path, order: seq<Path>): Tables
    requires forall p | p in order :: p in objects
  {
    ProcessAll(DropStale(t, objects, device), objects, order)
  }

  lemma RefreshedAt(t: Tables, objects: Objects, device: Path, order: seq<Path>, k: Key)
    requires Lists(order, Concerned(objects, device))
    ensures var after := Refreshed(t, objects, device, order); var exported := Concerns(device, k.1) && Exports(objects, k);
            && (Has(after, k) <==> exported || (Has(t, k) && !Stale(objects, device, k)))
            && (exported ==> Lookup(after, k) == Parsed(k, PropertiesOf(objects, k)))
            && (!exported && Has(t, k) && !Stale(objects, device, k) ==> Lookup(after, k) == Lookup(t, k))
  {
    DropAt(t, objects, device, k);
    ProcessAllAt(DropStale(t, objects, device), objects, order, k);
    assert k.1 in Concerned(objects, device) <==> k.1 in order;
  }

  /** Reconciliation: below the device only snapshot paths stay cached, every exported object there is
      cached with its parsed value, and everything else is untouched. */
  lemma Reconciles(t: Tables, objects: Objects, device: Path, order: seq<Path>, k: Key)
    requires Lists(order, Concerned(objects, device))
    ensures var after := Refreshed(t, objects, device, order);
            && (Has(after, k) && k.0 != DeviceKind && IsChild(device, k.1) ==> k.1 in objects)
            && (Concerns(device, k.1) && Exports(objects, k) ==> Has(after, k) && Lookup(after, k) == Parsed(k, PropertiesOf(objects, k)))
            && (!Concerns(device, k.1) ==> SameAt(after, t, k))
  {
    RefreshedAt(t, objects, device, order, k);
  }

  /** No path keeps a cached object of a kind it no longer exports while another kind appears there. */
  ghost predicate KindsKept(t: Tables, objects: Objects, device: Path) {
    forall k | Has(t, k) && k.0 != DeviceKind && IsChild(device, k.1) && k.1 in objects :: Exports(objects, k)
  }

  /** Below the device the tables equal the snapshot exactly when no path changed its interface kind. */
  lemma ReconcilesExactlyIff(t: Tables, objects: Objects, device: Path, order: seq<Path>)
    requires Lists(order, Concerned(objects, device))
    ensures (forall k: Key | k.0 != DeviceKind && IsChild(device, k.1) :: SameAt(Refreshed(t, objects, device, order), Batch(objects), k))
            <==> KindsKept(t, objects, device)
  {
    var after := Refreshed(t, objects, device, order);
    forall k: Key | k.0 != DeviceKind && IsChild(device, k.1)
      ensures SameAt(after, Batch(objects), k) <==> (Has(t, k) && k.1 in objects ==> Exports(objects, k))
    {
      RefreshedAt(t, objects, device, order, k);
      BatchAt(objects, k);
    }
  }

  /** A sibling that merely shares a name prefix is untouched. */
  lemma SiblingsUntouched(t: Tables, objects: Objects, device: Path, order: seq<Path>, kind: Kind, suffix: string)
    requires Lists(order, Concerned(objects, device)) && suffix != "" && suffix[0] != '/'
    ensures SameAt(Refreshed(t, objects, device, order), t, (kind, device + suffix))
  {
    assert (device + suffix)[|device|] == suffix[0];
    Reconciles(t, objects, device, order, (kind, device + suffix));
  }

  // ---------------------------------------------------------------- replaying events

  lemma {:induction false} ReplayAppend(ks: set<Key>, a: seq<Event>, b: seq<Event>)
    ensures Replay(ks, a + b) == Replay(Replay(ks, a), b)
    decreases |a|
  {
    if a == [] {
      assert a + b == b;
    } else {
      assert (a + b)[1..] == a[1..] + b;
      var e := a[0];
      ReplayAppend(if e.Added? then ks + {e.key} else if e.Removed? then ks - {e.key} else ks, a[1..], b);
    }
  }

  lemma {:induction false} ReplayRemovals(ks: set<Key>, events: seq<Event>)
    requires forall i | 0 <= i < |events| :: events[i].Removed?
    ensures forall k :: k in Replay(ks, events) <==> k in ks && Removed(k) !in events
    decreases |events|
  {
    if events != [] {
      assert events == [events[0]] + events[1..];
      ReplayRemovals(ks - {events[0].key}, events[1..]);
    }
  }

  lemma {:induction false} ReplayUnchanged(ks: set<Key>, events: seq<Event>)
    requires forall i | 0 <= i < |events| :: events[i].Changed? || events[i].ValueChanged?
    ensures Replay(ks, events) == ks
    decreases |events|
  {
    if events != [] { ReplayUnchanged(ks, events[1..]); }
  }

  lemma BatchReplays(ks: set<Key>, gone: set<Key>, events: seq<Event>)
    requires RemovalBatch(gone, events)
    ensures Replay(ks, events) == ks - gone
  {
    ReplayRemovals(ks, events);
  }

  lemma AddedReplays(t: Tables, k: Key, ifaces: Interfaces, ks: set<Key>)
    requires Has(t, k) ==> k in ks
    ensures Replay(ks, AddedIf(t, k, ifaces)) == Gain(ks, k, ifaces)
  {
    var events := AddedIf(t, k, ifaces);
    if events != [] { assert events[1..] == []; }
  }

  function Gain(ks: set<Key>, k: Key, ifaces: Interfaces): set<Key> { if Typed(k.0) in ifaces then ks + {k} else ks }

  lemma FourReplay(ks: set<Key>, a: seq<Event>, b: seq<Event>, c: seq<Event>, d: seq<Event>)
    ensures Replay(ks, a + b + c + d) == Replay(Replay(Replay(Replay(ks, a), b), c), d)
  {
    ReplayAppend(ks, a + b + c, d);
    ReplayAppend(ks, a + b, c);
    ReplayAppend(ks, a, b);
  }

  lemma GainedKey(t: Tables, path: Path, ifaces: Interfaces, ks: set<Key>, k: Key)
    requires ks == Gain(Gain(Gain(Gain(Keys(t), (DeviceKind, path), ifaces), (ServiceKind, path), ifaces),
                             (CharacteristicKind, path), ifaces), (DescriptorKind, path), ifaces)
    ensures k in ks <==> Has(t, k) || (k.1 == path && Typed(k.0) in ifaces)
  {
    match k.0
    case DeviceKind => assert k == (DeviceKind, k.1);
    case ServiceKind => assert k == (ServiceKind, k.1);
    case CharacteristicKind => assert k == (CharacteristicKind, k.1);
    case DescriptorKind => assert k == (DescriptorKind, k.1);
  }

  lemma GainedKeys(t: Tables, path: Path, ifaces: Interfaces, ks: set<Key>)
    requires ks == Gain(Gain(Gain(Gain(Keys(t), (DeviceKind, path), ifaces), (ServiceKind, path), ifaces),
                             (CharacteristicKind, path), ifaces), (DescriptorKind, path), ifaces)
    ensures ks == Keys(ProcessObject(t, path, ifaces))
  {
    forall k ensures k in ks <==> k in Keys(ProcessObject(t, path, ifaces)) {
      GainedKey(t, path, ifaces, ks, k);
      ProcessAt(t, path, ifaces, k);
    }
  }

  lemma ProcessReplays(t: Tables, path: Path, ifaces: Interfaces)
    ensures Replay(Keys(t), ProcessEvents(t, path, ifaces)) == Keys(ProcessObject(t, path, ifaces))
  {
    var d, s, c, x: Key := (DeviceKind, path), (ServiceKind, path), (CharacteristicKind, path), (DescriptorKind, path);
    FourReplay(Keys(t), AddedIf(t, d, ifaces), AddedIf(t, s, ifaces), AddedIf(t, c, ifaces), AddedIf(t, x, ifaces));
    AddedReplays(t, d, ifaces, Keys(t));
    AddedReplays(t, s, ifaces, Gain(Keys(t), d, ifaces));
    AddedReplays(t, c, ifaces, Gain(Gain(Keys(t), d, ifaces), s, ifaces));
    AddedReplays(t, x, ifaces, Gain(Gain(Gain(Keys(t), d, ifaces), s, ifaces), c, ifaces));
    GainedKeys(t, path, ifaces, Replay(Keys(t), ProcessEvents(t, path, ifaces)));
  }

  lemma {:induction false} ProcessAllReplays(t: Tables, objects: Objects, order: seq<Path>)
    requires forall p | p in order :: p in objects
    ensures Replay(Keys(t), ProcessAllEvents(t, objects, order)) == Keys(ProcessAll(t, objects, order))
    decreases |order|
  {
    if order != [] {
      var first := ProcessEvents(t, order[0], objects[order[0]]);
      var next := ProcessObject(t, order[0], objects[order[0]]);
      ProcessReplays(t, order[0], objects[order[0]]);
      ProcessAllReplays(next, objects, order[1..]);
      ReplayAppend(Keys(t), first, ProcessAllEvents(next, objects, order[1..]));
    }
  }

  lemma RemovedKeys(t: Tables, kind: Kind, path: Path)
    ensures Keys(t) - Gone(t, kind, path) == Keys(RemoveKind(t, kind, path))
  {
    forall k ensures k in Keys(t) - Gone(t, kind, path) <==> Has(RemoveKind(t, kind, path), k) { RemoveAt(t, kind, path, k); }
  }

  lemma SplitReplay(ks: set<Key>, events: seq<Event>, n: nat)
    requires n <= |events|
    ensures Replay(ks, events) == Replay(Replay(ks, events[..n]), events[n..])
  {
    assert events == events[..n] + events[n..];
    ReplayAppend(ks, events[..n], events[n..]);
  }

  /** Replaying the events of one InterfacesRemoved signal gives the keys still cached. */
  lemma {:induction false} RemovalReplays(t: Tables, path: Path, ifaces: seq<Interface>, events: seq<Event>)
    requires RemovalEvents(t, path, ifaces, events)
    ensures Replay(Keys(t), events) == Keys(RemoveAll(t, path, ifaces))
    decreases |ifaces|
  {
    if ifaces != [] {
      if ifaces[0].Typed? {
        var kind := ifaces[0].kind;
        var n :| 0 <= n <= |events| && RemovalBatch(Gone(t, kind, path), events[..n])
                 && RemovalEvents(RemoveKind(t, kind, path), path, ifaces[1..], events[n..]);
        SplitReplay(Keys(t), events, n);
        BatchReplays(Keys(t), Gone(t, kind, path), events[..n]);
        RemovedKeys(t, kind, path);
        RemovalReplays(RemoveKind(t, kind, path), path, ifaces[1..], events[n..]);
      } else {
        RemovalReplays(t, path, ifaces[1..], events);
      }
    }
  }

  lemma ChangeReplays(t: Tables, path: Path, iface: Interface, changed: Properties, invalidated: set<Property>)
    ensures Replay(Keys(t), ChangeEvents(t, path, iface, changed, invalidated))
            == Keys(ChangeProperties(t, path, iface, changed, invalidated))
  {
    ReplayUnchanged(Keys(t), ChangeEvents(t, path, iface, changed, invalidated));
    forall k ensures Has(ChangeProperties(t, path, iface, changed, invalidated), k) <==> Has(t, k) { ChangeKeepsKey(t, path, iface, changed, invalidated, k); }
  }

  lemma ChangeKeepsKey(t: Tables, path: Path, iface: Interface, changed: Properties, invalidated: set<Property>, k: Key)
    ensures Has(ChangeProperties(t, path, iface, changed, invalidated), k) <==> Has(t, k)
  {}

  /** Events of a refresh: stale removals, then additions; none are sent when the snapshot knows nothing
      of the device. */
  ghost predicate RefreshEvents(t: Tables, objects: Objects, device: Path, order: seq<Path>, events: seq<Event>)
    requires forall p | p in order :: p in objects
  {
    if order == [] then events == []
    else exists n | 0 <= n <= |events| ::
           RemovalBatch(StaleKeys(t, objects, device), events[..n])
           && events[n..] == ProcessAllEvents(DropStale(t, objects, device), objects, order)
  }

  lemma DroppedKeys(t: Tables, objects: Objects, device: Path)
    ensures Keys(t) - StaleKeys(t, objects, device) == Keys(DropStale(t, objects, device))
  {
    forall k ensures k in Keys(t) - StaleKeys(t, objects, device) <==> Has(DropStale(t, objects, device), k) { DropAt(t, objects, device, k); }
  }

  lemma FoundReplays(t: Tables, objects: Objects, device: Path, order: seq<Path>, events: seq<Event>)
    requires (forall p | p in order :: p in objects) && order != [] && RefreshEvents(t, objects, device, order, events)
    ensures Replay(Keys(t), events) == Keys(Refreshed(t, objects, device, order))
  {
    var dropped := DropStale(t, objects, device);
    var n :| 0 <= n <= |events| && RemovalBatch(StaleKeys(t, objects, device), events[..n])
             && events[n..] == ProcessAllEvents(dropped, objects, order);
    SplitReplay(Keys(t), events, n);
    BatchReplays(Keys(t), StaleKeys(t, objects, device), events[..n]);
    DroppedKeys(t, objects, device);
    ProcessAllReplays(dropped, objects, order);
  }

  /** The one exception: a refresh that finds nothing erases stale entries without telling anybody, so
      the observer agrees exactly when objects were found or nothing was cached below the device. */
  lemma RefreshReplaysIff(t: Tables, objects: Objects, device: Path, order: seq<Path>, events: seq<Event>)
    requires Lists(order, Concerned(objects, device)) && RefreshEvents(t, objects, device, order, events)
    ensures Replay(Keys(t), events) == Keys(Refreshed(t, objects, device, order))
            <==> order != [] || forall k | Has(t, k) && k.0 != DeviceKind :: !IsChild(device, k.1)
  {
    if order != [] {
      FoundReplays(t, objects, device, order, events);
    } else {
      forall k: Key | IsChild(device, k.1) ensures k.1 !in objects { assert k.1 in objects ==> k.1 in Concerned(objects, device); }
      forall k ensures Has(DropStale(t, objects, device), k) <==> Has(t, k) && !Stale(objects, device, k) { DropAt(t, objects, device, k); }
      SilentRefresh(t, objects, device, DropStale(t, objects, device));
    }
  }

  lemma SilentRefresh(t: Tables, objects: Objects, device: Path, dropped: Tables)
    requires forall k :: Has(dropped, k) <==> Has(t, k) && !Stale(objects, device, k)
    requires forall k: Key | IsChild(device, k.1) :: k.1 !in objects
    ensures Keys(t) == Keys(dropped) <==> forall k | Has(t, k) && k.0 != DeviceKind :: !IsChild(device, k.1)
  {
    if Keys(t) == Keys(dropped) {
      forall k | Has(t, k) && k.0 != DeviceKind ensures !IsChild(device, k.1) {
        assert k in Keys(t) && k in Keys(dropped);
      }
    }
  }

  // ---------------------------------------------------------------- repeating a refresh

  lemma {:induction false} KnownIsSilent(t: Tables, objects: Objects, order: seq<Path>)
    requires forall p | p in order :: p in objects
    requires forall k: Key | k.1 in order && Exports(objects, k) :: Has(t, k)
    ensures ProcessAllEvents(t, objects, order) == []
    decreases |order|
  {
    if order != [] {
      var next := ProcessObject(t, order[0], objects[order[0]]);
      assert forall kind: Kind :: Exports(objects, (kind, order[0])) ==> Has(t, (kind, order[0]));
      forall k: Key | k.1 in order[1..] && Exports(objects, k) ensures Has(next, k) { ProcessAt(t, order[0], objects[order[0]], k); }
      KnownIsSilent(next, objects, order[1..]);
    }
  }

  /** Repeating a refresh on the same snapshot changes nothing and sends no event at all. */
  lemma RefreshIsIdempotent(t: Tables, objects: Objects, device: Path, order: seq<Path>, again: seq<Path>, events: seq<Event>)
    requires Lists(order, Concerned(objects, device)) && Lists(again, Concerned(objects, device))
    requires RefreshEvents(Refreshed(t, objects, device, order), objects, device, again, events)
    ensures Refreshed(Refreshed(t, objects, device, order), objects, device, again) == Refreshed(t, objects, device, order)
    ensures events == []
  {
    var once := Refreshed(t, objects, device, order);
    var twice := Refreshed(once, objects, device, again);
    forall k ensures SameAt(twice, once, k) {
      RefreshedAt(t, objects, device, order, k);
      RefreshedAt(once, objects, device, again, k);
    }
    SameTables(twice, once);
    var dropped := DropStale(once, objects, device);
    forall k: Key | k.1 in again && Exports(objects, k) ensures Has(dropped, k) {
      RefreshedAt(t, objects, device, order, k);
      DropAt(once, objects, device, k);
      assert k.1 in Concerned(objects, device);
    }
    KnownIsSilent(dropped, objects, again);
    forall k ensures k !in StaleKeys(once, objects, device) { RefreshedAt(t, objects, device, order, k); }
    NothingStale(once, objects, device, again, events);
  }

  lemma EmptyBatch(gone: set<Key>, events: seq<Event>)
    requires RemovalBatch(gone, events)
    ensures events != [] ==> gone != {}
  {
    if events != [] { assert events[0] == Removed(events[0].key) && events[0] in events; }
  }

  lemma NothingStale(t: Tables, objects: Objects, device: Path, order: seq<Path>, events: seq<Event>)
    requires (forall p | p in order :: p in objects) && RefreshEvents(t, objects, device, order, events)
    requires StaleKeys(t, objects, device) == {} && ProcessAllEvents(DropStale(t, objects, device), objects, order) == []
    ensures events == []
  {
    if order != [] {
      var n :| 0 <= n <= |events| && RemovalBatch(StaleKeys(t, objects, device), events[..n])
               && events[n..] == ProcessAllEvents(DropStale(t, objects, device), objects, order);
      EmptyBatch(StaleKeys(t, objects, device), events[..n]);
      assert |events[..n]| == n && |events[n..]| == |events| - n;
    }
  }
}
