/** The object cache itself: four tables updated in place by the signal handlers, each of which returns
    the notifications it queued for its observers. */
module ObjectCache {
  import opened CacheTables
  import opened CacheTheorems
  import opened CacheSnapshots
  import opened CacheRuns

  class ObjectManagerCache {
    var devices: map<Path, Device>
    var services: map<Path, Service>
    var characteristics: map<Path, Characteristic>
    var descriptors: map<Path, Descriptor>

    function State(): Tables
      reads this
    { Tables(devices, services, characteristics, descriptors) }

    constructor ()
      ensures State() == EMPTY
    {
      devices, services, characteristics, descriptors := map[], map[], map[], map[];
    }

    method InsertDevice(path: Path, ifaces: Interfaces) returns (events: seq<Event>)
      modifies `devices
      ensures devices == if Typed(DeviceKind) in ifaces then old(devices)[path := ParseDevice(path, ifaces[Typed(DeviceKind)])] else old(devices)
      ensures events == AddedIf(old(State()), (DeviceKind, path), ifaces)
    {
      events := [];
      if Typed(DeviceKind) in ifaces {
        var inserted := path !in devices;
        devices := devices[path := ParseDevice(path, ifaces[Typed(DeviceKind)])];
        if inserted { events := [Added((DeviceKind, path))]; }
      }
    }

    method InsertService(path: Path, ifaces: Interfaces) returns (events: seq<Event>)
      modifies `services
      ensures services == if Typed(ServiceKind) in ifaces then old(services)[path := ParseService(path, ifaces[Typed(ServiceKind)])] else old(services)
      ensures events == AddedIf(old(State()), (ServiceKind, path), ifaces)
    {
      events := [];
      if Typed(ServiceKind) in ifaces {
        var inserted := path !in services;
        services := services[path := ParseService(path, ifaces[Typed(ServiceKind)])];
        if inserted { events := [Added((ServiceKind, path))]; }
      }
    }

    method InsertCharacteristic(path: Path, ifaces: Interfaces) returns (events: seq<Event>)
      modifies `characteristics
      ensures characteristics == if Typed(CharacteristicKind) in ifaces then old(characteristics)[path := ParseCharacteristic(path, ifaces[Typed(CharacteristicKind)])] else old(characteristics)
      ensures events == AddedIf(old(State()), (CharacteristicKind, path), ifaces)
    {
      events := [];
      if Typed(CharacteristicKind) in ifaces {
        var inserted := path !in characteristics;
        characteristics := characteristics[path := ParseCharacteristic(path, ifaces[Typed(CharacteristicKind)])];
        if inserted { events := [Added((CharacteristicKind, path))]; }
      }
    }

    method InsertDescriptor(path: Path, ifaces: Interfaces) returns (events: seq<Event>)
      modifies `descriptors
      ensures descriptors == if Typed(DescriptorKind) in ifaces then old(descriptors)[path := ParseDescriptor(path, ifaces[Typed(DescriptorKind)])] else old(descriptors)
      ensures events == AddedIf(old(State()), (DescriptorKind, path), ifaces)
    {
      events := [];
      if Typed(DescriptorKind) in ifaces {
        var inserted := path !in descriptors;
        descriptors := descriptors[path := ParseDescriptor(path, ifaces[Typed(DescriptorKind)])];
        if inserted { events := [Added((DescriptorKind, path))]; }
      }
    }

    /** Parse each known interface into its table; only a new entry is announced. */
    method ProcessObject(path: Path, ifaces: Interfaces) returns (events: seq<Event>)
      modifies this
      ensures State() == CacheTables.ProcessObject(old(State()), path, ifaces)
      ensures events == ProcessEvents(old(State()), path, ifaces)
    {
      var first := InsertDevice(path, ifaces);
      ghost var a := State();
      var second := InsertService(path, ifaces);
      ghost var b := State();
      var third := InsertCharacteristic(path, ifaces);
      ghost var c := State();
      var fourth := InsertDescriptor(path, ifaces);
      events := first + second + third + fourth;
      AnnouncesAll(old(State()), a, b, c, path, ifaces);
    }

    /** Copy the chosen paths out of a table before erasing them. */
    static method ListPaths(paths: set<Path>) returns (order: seq<Path>)
      ensures Lists(order, paths)
    {
      order := [];
      var rest := paths;
      while rest != {}
        invariant rest <= paths && Lists(order, paths - rest)
        decreases |rest|
      {
        var p :| p in rest;
        order := order + [p];
        rest := rest - {p};
      }
    }

    method EraseDescriptors(paths: seq<Path>) returns (events: seq<Event>)
      modifies `descriptors
      ensures descriptors == old(descriptors) - (set p | p in paths)
      ensures Erased(DescriptorKind, paths, events)
    {
      events := [];
      var i := 0;
      while i < |paths|
        invariant 0 <= i <= |paths| && descriptors == old(descriptors) - (set p | p in paths[..i])
        invariant Erased(DescriptorKind, paths[..i], events)
      {
        assert paths[..i + 1] == paths[..i] + [paths[i]];
        descriptors := descriptors - {paths[i]};
        events := events + [Removed((DescriptorKind, paths[i]))];
        i := i + 1;
      }
      assert paths[..i] == paths;
    }

    method EraseCharacteristics(paths: seq<Path>) returns (events: seq<Event>)
      modifies `characteristics
      ensures characteristics == old(characteristics) - (set p | p in paths)
      ensures Erased(CharacteristicKind, paths, events)
    {
      events := [];
      var i := 0;
      while i < |paths|
        invariant 0 <= i <= |paths| && characteristics == old(characteristics) - (set p | p in paths[..i])
        invariant Erased(CharacteristicKind, paths[..i], events)
      {
        assert paths[..i + 1] == paths[..i] + [paths[i]];
        characteristics := characteristics - {paths[i]};
        events := events + [Removed((CharacteristicKind, paths[i]))];
        i := i + 1;
      }
      assert paths[..i] == paths;
    }

    method EraseServices(paths: seq<Path>) returns (events: seq<Event>)
      modifies `services
      ensures services == old(services) - (set p | p in paths)
      ensures Erased(ServiceKind, paths, events)
    {
      events := [];
      var i := 0;
      while i < |paths|
        invariant 0 <= i <= |paths| && services == old(services) - (set p | p in paths[..i])
        invariant Erased(ServiceKind, paths[..i], events)
      {
        assert paths[..i + 1] == paths[..i] + [paths[i]];
        services := services - {paths[i]};
        events := events + [Removed((ServiceKind, paths[i]))];
        i := i + 1;
      }
      assert paths[..i] == paths;
    }

    method EraseSubtree(kind: Kind, path: Path) returns (events: seq<Event>, ghost below: seq<seq<Path>>)
      modifies `services, `characteristics, `descriptors
      ensures |below| == 3
      ensures Lists(below[0], set p | p in old(descriptors) && Rank(kind) < 3 && IsChild(path, p))
      ensures Lists(below[1], set p | p in old(characteristics) && Rank(kind) < 2 && IsChild(path, p))
      ensures Lists(below[2], set p | p in old(services) && Rank(kind) < 1 && IsChild(path, p))
      ensures descriptors == old(descriptors) - (set p | p in below[0])
      ensures characteristics == old(characteristics) - (set p | p in below[1])
      ensures services == old(services) - (set p | p in below[2])
      ensures RemovalBatch(Subtree(below[0], below[1], below[2]) + {(kind, path)}, events + [Removed((kind, path))])
    {
      var belowDescriptors := ListPaths(set p | p in descriptors && Rank(kind) < 3 && IsChild(path, p));
      var belowCharacteristics := ListPaths(set p | p in characteristics && Rank(kind) < 2 && IsChild(path, p));
      var belowServices := ListPaths(set p | p in services && Rank(kind) < 1 && IsChild(path, p));
      var first := EraseDescriptors(belowDescriptors);
      var second := EraseCharacteristics(belowCharacteristics);
      var third := EraseServices(belowServices);
      events := first + second + third;
      below := [belowDescriptors, belowCharacteristics, belowServices];
      SubtreeBatch(kind, path, belowDescriptors, belowCharacteristics, belowServices, first, second, third);
    }

    method EraseOwn(kind: Kind, path: Path)
      modifies this
      ensures State() == WithoutOwn(old(State()), kind, path)
    {
      match kind {
        case DeviceKind => devices := devices - {path};
        case ServiceKind => services := services - {path};
        case CharacteristicKind => characteristics := characteristics - {path};
        case DescriptorKind => descriptors := descriptors - {path};
      }
    }

    /** The interface itself and, for anything but a descriptor, every deeper kind strictly below it. */
    method RemoveInterface(kind: Kind, path: Path) returns (events: seq<Event>)
      modifies this
      ensures State() == RemoveKind(old(State()), kind, path) && RemovalBatch(Gone(old(State()), kind, path), events)
    {
      ghost var below;
      events, below := EraseSubtree(kind, path);
      ghost var middle := State();
      EraseOwn(kind, path);
      events := events + [Removed((kind, path))];
      SubtreeErased(old(State()), middle, kind, path, below);
    }

    /** `remove_interfaces`, one interface after the other. */
    method RemoveInterfaces(path: Path, ifaces: seq<Interface>) returns (events: seq<Event>)
      modifies this
      ensures State() == RemoveAll(old(State()), path, ifaces) && RemovalEvents(old(State()), path, ifaces, events)
      decreases |ifaces|
    {
      events := [];
      if ifaces == [] { return; }
      if ifaces[0].Typed? { events := RemoveInterface(ifaces[0].kind, path); }
      ghost var n := |events|;
      ghost var first := events;
      var more := RemoveInterfaces(path, ifaces[1..]);
      events := events + more;
      assert events[..n] == first && events[n..] == more;
    }

    method ClearProperty(path: Path, key: Property)
      requires path in devices
      modifies `devices
      ensures devices == old(devices)[path := ClearOne(old(devices)[path], key)]
    {
      var d := devices[path];
      match key {
        case ManufacturerData => devices := devices[path := d.(manufacturerData := map[])];
        case ServiceData => devices := devices[path := d.(serviceData := map[])];
        case AdvertisingData => devices := devices[path := d.(advertisingData := map[])];
        case AdvertisingFlags => devices := devices[path := d.(advertisingFlags := [])];
        case _ =>
      }
    }

    /** Clear the payloads whose invalidation is handled, and tell whether there was one. */
    method Invalidate(path: Path, invalidated: seq<Property>) returns (cleared: bool)
      requires path in devices
      modifies `devices
      ensures devices == old(devices)[path := ClearInvalidated(old(devices)[path], Names(invalidated))]
      ensures cleared == exists key | key in Names(invalidated) :: Clearable(key)
    {
      cleared := false;
      ghost var d := devices[path];
      var i := 0;
      while i < |invalidated|
        invariant 0 <= i <= |invalidated| && path in devices
        invariant devices == old(devices)[path := ClearInvalidated(d, Names(invalidated[..i]))]
        invariant cleared == AnyClearable(Names(invalidated[..i]))
      {
        InvalidateStep(d, invalidated, i);
        ClearProperty(path, invalidated[i]);
        cleared := cleared || Clearable(invalidated[i]);
        i := i + 1;
      }
      assert invalidated[..i] == invalidated;
    }

    method ChangeDevice(path: Path, changed: Properties, invalidated: seq<Property>) returns (events: seq<Event>)
      requires path in devices
      modifies `devices
      ensures devices == old(devices)[path := ClearInvalidated(UpdateDevice(old(devices)[path], changed), Names(invalidated))]
      ensures events == ChangeEvents(old(State()), path, Typed(DeviceKind), changed, Names(invalidated))
    {
      devices := devices[path := UpdateDevice(devices[path], changed)];
      var cleared := Invalidate(path, invalidated);
      events := if changed != map[] || cleared then [Changed((DeviceKind, path))] else [];
    }

    /** `on_properties_changed` for the modelled interfaces. */
    method OnPropertiesChanged(path: Path, iface: Interface, changed: Properties, invalidated: seq<Property>) returns (events: seq<Event>)
      modifies this
      ensures State() == ChangeProperties(old(State()), path, iface, changed, Names(invalidated))
      ensures events == ChangeEvents(old(State()), path, iface, changed, Names(invalidated))
    {
      events := [];
      if iface == Typed(DeviceKind) {
        if path in devices { events := ChangeDevice(path, changed, invalidated); }
      } else if iface == Typed(CharacteristicKind) {
        if path in characteristics {
          characteristics := characteristics[path := ChangeCharacteristic(characteristics[path], changed)];
          if Notifying in changed || MTU in changed || Flags in changed { events := [Changed((CharacteristicKind, path))]; }
          if CacheTables.Value in changed { events := events + [ValueChanged((CharacteristicKind, path))]; }
        }
      } else if iface == Typed(DescriptorKind) {
        if path in descriptors {
          descriptors := descriptors[path := ChangeDescriptor(descriptors[path], changed)];
          if Flags in changed { events := [Changed((DescriptorKind, path))]; }
          if CacheTables.Value in changed { events := events + [ValueChanged((DescriptorKind, path))]; }
        }
      }
    }

    // -------------------------------------------------------------- snapshots

    method ProcessSnapshot(objects: Objects, order: seq<Path>) returns (events: seq<Event>)
      requires forall p | p in order :: p in objects
      modifies this
      ensures State() == ProcessAll(old(State()), objects, order) && events == ProcessAllEvents(old(State()), objects, order)
    {
      events := [];
      var i := 0;
      while i < |order|
        invariant 0 <= i <= |order|
        invariant ProcessAll(State(), objects, order[i..]) == ProcessAll(old(State()), objects, order)
        invariant events + ProcessAllEvents(State(), objects, order[i..]) == ProcessAllEvents(old(State()), objects, order)
      {
        ghost var t, rest, sent := State(), order[i..], events;
        assert rest[0] == order[i] && rest[1..] == order[i + 1..];
        var more := ProcessObject(order[i], objects[order[i]]);
        events := events + more;
        i := i + 1;
        SnapshotStep(t, objects, rest, sent, more);
      }
    }

    method EraseLists(lostDescriptors: seq<Path>, lostCharacteristics: seq<Path>, lostServices: seq<Path>) returns (events: seq<Event>)
      requires Distinct(lostDescriptors) && Distinct(lostCharacteristics) && Distinct(lostServices)
      modifies `services, `characteristics, `descriptors
      ensures descriptors == old(descriptors) - (set p | p in lostDescriptors)
      ensures characteristics == old(characteristics) - (set p | p in lostCharacteristics)
      ensures services == old(services) - (set p | p in lostServices)
      ensures RemovalBatch(Subtree(lostDescriptors, lostCharacteristics, lostServices), events)
    {
      var first := EraseDescriptors(lostDescriptors);
      var second := EraseCharacteristics(lostCharacteristics);
      var third := EraseServices(lostServices);
      events := first + second + third;
      ThreeBatches(lostDescriptors, lostCharacteristics, lostServices, first, second, third);
    }

    method EraseStale(objects: Objects, device: Path) returns (events: seq<Event>)
      modifies `services, `characteristics, `descriptors
      ensures State() == DropStale(old(State()), objects, device) && RemovalBatch(StaleKeys(old(State()), objects, device), events)
    {
      var staleDescriptors := ListPaths(set p | p in descriptors && IsChild(device, p) && p !in objects);
      var staleCharacteristics := ListPaths(set p | p in characteristics && IsChild(device, p) && p !in objects);
      var staleServices := ListPaths(set p | p in services && IsChild(device, p) && p !in objects);
      events := EraseLists(staleDescriptors, staleCharacteristics, staleServices);
      StaleListed(old(State()), objects, device, staleDescriptors, staleCharacteristics, staleServices);
    }

    /** `refresh_device_subtree`; `answer` is the snapshot, if the call succeeded, and the result says whether any
        GATT object was found. */
    method RefreshDevice(device: Path, answer: Answer) returns (found: bool, events: seq<Event>, ghost order: seq<Path>)
      modifies this
      ensures device == "" || answer.NoAnswer? ==> State() == old(State()) && !found && events == []
      ensures device != "" && answer.Answered? ==>
                && Lists(order, Concerned(answer.objects, device))
                && State() == Refreshed(old(State()), answer.objects, device, order)
                && RefreshEvents(old(State()), answer.objects, device, order, events)
                && (found <==> exists p | p in order :: HasGatt(answer.objects[p]))
    {
      found, events, order := false, [], [];
      if device == "" || answer.NoAnswer? { return; }
      found, events, order := Reconcile(device, answer.objects);
    }

    method Reconcile(device: Path, objects: Objects) returns (found: bool, events: seq<Event>, ghost order: seq<Path>)
      modifies this
      ensures Lists(order, Concerned(objects, device))
      ensures State() == Refreshed(old(State()), objects, device, order)
      ensures RefreshEvents(old(State()), objects, device, order, events)
      ensures found <==> exists p | p in order :: HasGatt(objects[p])
    {
      var concerned := ListPaths(Concerned(objects, device));
      order := concerned;
      var removals := EraseStale(objects, device);
      var additions := ProcessSnapshot(objects, concerned);
      found := exists p | p in concerned :: HasGatt(objects[p]);
      if concerned == [] { return found, [], order; }
      events := removals + additions;
      ghost var n := |removals|;
      assert events[..n] == removals && events[n..] == additions;
    }

    method ForgetAll() returns (events: seq<Event>)
      modifies this
      ensures State() == EMPTY && RemovalBatch(Keys(old(State())), events)
    {
      var oldDescriptors := ListPaths(descriptors.Keys);
      var oldCharacteristics := ListPaths(characteristics.Keys);
      var oldServices := ListPaths(services.Keys);
      var oldDevices := ListPaths(devices.Keys);
      var gatt := EraseLists(oldDescriptors, oldCharacteristics, oldServices);
      var last := seq(|oldDevices|, i requires 0 <= i < |oldDevices| => Removed((DeviceKind, oldDevices[i])));
      events := gatt + last;
      devices, services, characteristics, descriptors := map[], map[], map[], map[];
      ErasedBatch(DeviceKind, oldDevices, last);
      AppendBatch(Subtree(oldDescriptors, oldCharacteristics, oldServices), gatt, Tagged(DeviceKind, oldDevices), last);
      AllListed(old(State()), oldDescriptors, oldCharacteristics, oldServices, oldDevices);
    }

    /** `on_bluez_owner_changed` with the reload of a new owner; `answer` is the snapshot, if the call succeeded. */
    method OnOwnerChanged(previous: string, owner: string, answer: Answer) returns (events: seq<Event>, ghost order: seq<Path>)
      modifies this
      ensures answer.Answered? ==> Lists(order, answer.objects.Keys)
      ensures State() == OwnerChanged(old(State()), previous, owner, answer, order)
      ensures OwnerEvents(old(State()), previous, owner, answer, order, events)
    {
      var paths := [];
      if answer.Answered? { paths := ListPaths(answer.objects.Keys); }
      order := paths;
      events := [];
      if previous == owner { return; }
      if previous != "" { events := ForgetAll(); }
      ghost var removals := events;
      var additions := [];
      if owner != "" && answer.Answered? { additions := ProcessSnapshot(answer.objects, paths); }
      events := events + additions;
      assert events[..|removals|] == removals && events[|removals|..] == additions;
    }
  }

  lemma AnnouncesAll(t: Tables, a: Tables, b: Tables, c: Tables, path: Path, ifaces: Interfaces)
    requires a.services == t.services && b.characteristics == t.characteristics && c.descriptors == t.descriptors
    ensures AddedIf(t, (DeviceKind, path), ifaces) + AddedIf(a, (ServiceKind, path), ifaces)
            + AddedIf(b, (CharacteristicKind, path), ifaces) + AddedIf(c, (DescriptorKind, path), ifaces) == ProcessEvents(t, path, ifaces)
  {}

  lemma SnapshotStep(t: Tables, objects: Objects, rest: seq<Path>, sent: seq<Event>, more: seq<Event>)
    requires rest != [] && (forall p | p in rest :: p in objects) && more == ProcessEvents(t, rest[0], objects[rest[0]])
    ensures var next := CacheTables.ProcessObject(t, rest[0], objects[rest[0]]);
            && ProcessAll(next, objects, rest[1..]) == ProcessAll(t, objects, rest)
            && sent + more + ProcessAllEvents(next, objects, rest[1..]) == sent + ProcessAllEvents(t, objects, rest)
  {}

  function Names(keys: seq<Property>): set<Property> { set key | key in keys }

  predicate HasGatt(ifaces: Interfaces) {
    Typed(ServiceKind) in ifaces || Typed(CharacteristicKind) in ifaces || Typed(DescriptorKind) in ifaces
  }

  function WithoutOwn(t: Tables, kind: Kind, path: Path): Tables {
    match kind
    case DeviceKind => t.(devices := t.devices - {path})
    case ServiceKind => t.(services := t.services - {path})
    case CharacteristicKind => t.(characteristics := t.characteristics - {path})
    case DescriptorKind => t.(descriptors := t.descriptors - {path})
  }

  /** Erasing the listed subtree and the object itself is the cascade. */
  lemma SubtreeErased(before: Tables, middle: Tables, kind: Kind, path: Path, below: seq<seq<Path>>)
    requires |below| == 3
    requires Lists(below[0], set p | p in before.descriptors && Rank(kind) < 3 && IsChild(path, p))
    requires Lists(below[1], set p | p in before.characteristics && Rank(kind) < 2 && IsChild(path, p))
    requires Lists(below[2], set p | p in before.services && Rank(kind) < 1 && IsChild(path, p))
    requires middle.devices == before.devices && middle.descriptors == before.descriptors - (set p | p in below[0])
    requires middle.characteristics == before.characteristics - (set p | p in below[1])
    requires middle.services == before.services - (set p | p in below[2])
    ensures WithoutOwn(middle, kind, path) == RemoveKind(before, kind, path)
    ensures Gone(before, kind, path) == Subtree(below[0], below[1], below[2]) + {(kind, path)}
  {
    forall k ensures SameAt(WithoutOwn(middle, kind, path), RemoveKind(before, kind, path), k) {
      RemoveAt(before, kind, path, k);
      WithoutAt(middle, kind, path, k);
      MiddleAt(before, middle, kind, path, below, k);
    }
    SameTables(WithoutOwn(middle, kind, path), RemoveKind(before, kind, path));
    forall k ensures k in Gone(before, kind, path) <==> k in Subtree(below[0], below[1], below[2]) + {(kind, path)} {
      GoneAt(before, kind, path, below, k);
    }
  }

  lemma WithoutAt(t: Tables, kind: Kind, path: Path, k: Key)
    ensures Has(WithoutOwn(t, kind, path), k) <==> Has(t, k) && k != (kind, path)
    ensures Has(WithoutOwn(t, kind, path), k) ==> Lookup(WithoutOwn(t, kind, path), k) == Lookup(t, k)
  {}

  lemma MiddleAt(before: Tables, middle: Tables, kind: Kind, path: Path, below: seq<seq<Path>>, k: Key)
    requires |below| == 3
    requires forall p :: p in below[0] <==> p in before.descriptors && Rank(kind) < 3 && IsChild(path, p)
    requires forall p :: p in below[1] <==> p in before.characteristics && Rank(kind) < 2 && IsChild(path, p)
    requires forall p :: p in below[2] <==> p in before.services && Rank(kind) < 1 && IsChild(path, p)
    requires middle.devices == before.devices && middle.descriptors == before.descriptors - (set p | p in below[0])
    requires middle.characteristics == before.characteristics - (set p | p in below[1])
    requires middle.services == before.services - (set p | p in below[2])
    ensures Has(middle, k) <==> Has(before, k) && !(Rank(k.0) > Rank(kind) && IsChild(path, k.1))
    ensures Has(middle, k) ==> Lookup(middle, k) == Lookup(before, k)
  {}

  lemma GoneAt(before: Tables, kind: Kind, path: Path, below: seq<seq<Path>>, k: Key)
    requires |below| == 3
    requires forall p :: p in below[0] <==> p in before.descriptors && Rank(kind) < 3 && IsChild(path, p)
    requires forall p :: p in below[1] <==> p in before.characteristics && Rank(kind) < 2 && IsChild(path, p)
    requires forall p :: p in below[2] <==> p in before.services && Rank(kind) < 1 && IsChild(path, p)
    ensures k in Gone(before, kind, path) <==> k in Subtree(below[0], below[1], below[2]) + {(kind, path)}
  {
    match k.0
    case DeviceKind =>
    case ServiceKind => assert k == (ServiceKind, k.1);
    case CharacteristicKind => assert k == (CharacteristicKind, k.1);
    case DescriptorKind => assert k == (DescriptorKind, k.1);
  }

  function ClearOne(d: Device, key: Property): Device {
    match key
    case ManufacturerData => d.(manufacturerData := map[])
    case ServiceData => d.(serviceData := map[])
    case AdvertisingData => d.(advertisingData := map[])
    case AdvertisingFlags => d.(advertisingFlags := [])
    case _ => d
  }

  predicate AnyClearable(keys: set<Property>) { exists key | key in keys :: Clearable(key) }

  function Cleared(d: Device, manufacturer: bool, service: bool, advertising: bool, flags: bool): Device {
    d.(manufacturerData := if manufacturer then map[] else d.manufacturerData,
       serviceData := if service then map[] else d.serviceData,
       advertisingData := if advertising then map[] else d.advertisingData,
       advertisingFlags := if flags then [] else d.advertisingFlags)
  }

  lemma ClearedFrom(d: Device, keys: set<Property>)
    ensures ClearInvalidated(d, keys)
            == Cleared(d, ManufacturerData in keys, ServiceData in keys, AdvertisingData in keys, AdvertisingFlags in keys)
  {}

  lemma NamesStep(keys: seq<Property>, i: nat)
    requires i < |keys|
    ensures Names(keys[..i + 1]) == Names(keys[..i]) + {keys[i]}
  {
    assert keys[..i + 1] == keys[..i] + [keys[i]];
  }

  lemma ClearStep(d: Device, before: set<Property>, key: Property)
    ensures ClearInvalidated(d, before + {key}) == ClearOne(ClearInvalidated(d, before), key)
  {
    ClearedFrom(d, before);
    ClearedFrom(d, before + {key});
  }

  lemma InvalidateStep(d: Device, keys: seq<Property>, i: nat)
    requires i < |keys|
    ensures ClearInvalidated(d, Names(keys[..i + 1])) == ClearOne(ClearInvalidated(d, Names(keys[..i])), keys[i])
    ensures AnyClearable(Names(keys[..i + 1])) <==> AnyClearable(Names(keys[..i])) || Clearable(keys[i])
  {
    NamesStep(keys, i);
    ClearStep(d, Names(keys[..i]), keys[i]);
  }

  lemma StaleKeysListed(t: Tables, objects: Objects, device: Path, ds: seq<Path>, cs: seq<Path>, ss: seq<Path>)
    requires Lists(ds, set p | p in t.descriptors && IsChild(device, p) && p !in objects)
    requires Lists(cs, set p | p in t.characteristics && IsChild(device, p) && p !in objects)
    requires Lists(ss, set p | p in t.services && IsChild(device, p) && p !in objects)
    ensures StaleKeys(t, objects, device) == Subtree(ds, cs, ss)
  {
    forall k ensures k in StaleKeys(t, objects, device) <==> k in Subtree(ds, cs, ss) {
      match k.0
      case DeviceKind =>
      case ServiceKind => assert k == (ServiceKind, k.1);
      case CharacteristicKind => assert k == (CharacteristicKind, k.1);
      case DescriptorKind => assert k == (DescriptorKind, k.1);
    }
  }

  lemma StaleListed(t: Tables, objects: Objects, device: Path, ds: seq<Path>, cs: seq<Path>, ss: seq<Path>)
    requires Lists(ds, set p | p in t.descriptors && IsChild(device, p) && p !in objects)
    requires Lists(cs, set p | p in t.characteristics && IsChild(device, p) && p !in objects)
    requires Lists(ss, set p | p in t.services && IsChild(device, p) && p !in objects)
    ensures StaleKeys(t, objects, device) == Subtree(ds, cs, ss)
    ensures DropStale(t, objects, device) == Tables(t.devices, t.services - (set p | p in ss),
                                                    t.characteristics - (set p | p in cs), t.descriptors - (set p | p in ds))
  {
    StaleKeysListed(t, objects, device, ds, cs, ss);
    assert DropStale(t, objects, device).services == t.services - (set p | p in ss);
    assert DropStale(t, objects, device).characteristics == t.characteristics - (set p | p in cs);
    assert DropStale(t, objects, device).descriptors == t.descriptors - (set p | p in ds);
  }

  lemma AllListed(t: Tables, ds: seq<Path>, cs: seq<Path>, ss: seq<Path>, vs: seq<Path>)
    requires Lists(ds, t.descriptors.Keys) && Lists(cs, t.characteristics.Keys) && Lists(ss, t.services.Keys) && Lists(vs, t.devices.Keys)
    ensures Keys(t) == Subtree(ds, cs, ss) + Tagged(DeviceKind, vs)
  {
    forall k ensures k in Keys(t) <==> k in Subtree(ds, cs, ss) + Tagged(DeviceKind, vs) {
      match k.0
      case DeviceKind => assert k == (DeviceKind, k.1) && (k.1 in t.devices.Keys <==> k.1 in vs);
      case ServiceKind => assert k == (ServiceKind, k.1) && (k.1 in t.services.Keys <==> k.1 in ss);
      case CharacteristicKind => assert k == (CharacteristicKind, k.1) && (k.1 in t.characteristics.Keys <==> k.1 in cs);
      case DescriptorKind => assert k == (DescriptorKind, k.1) && (k.1 in t.descriptors.Keys <==> k.1 in ds);
    }
  }

  /** One removal event per erased path, in the order erased. */
  ghost predicate Erased(kind: Kind, paths: seq<Path>, events: seq<Event>) {
    |events| == |paths| && forall i | 0 <= i < |paths| :: events[i] == Removed((kind, paths[i]))
  }

  function Tagged(kind: Kind, paths: seq<Path>): set<Key> { set p | p in paths :: (kind, p) }

  function Subtree(below: seq<Path>, belowCharacteristics: seq<Path>, belowServices: seq<Path>): set<Key> {
    Tagged(DescriptorKind, below) + Tagged(CharacteristicKind, belowCharacteristics) + Tagged(ServiceKind, belowServices)
  }

  ghost predicate Distinct(paths: seq<Path>) { forall i, j | 0 <= i < j < |paths| :: paths[i] != paths[j] }

  lemma ErasedBatch(kind: Kind, paths: seq<Path>, events: seq<Event>)
    requires Erased(kind, paths, events) && Distinct(paths)
    ensures RemovalBatch(Tagged(kind, paths), events)
  {
    forall k ensures k in Tagged(kind, paths) <==> Removed(k) in events {
      if k in Tagged(kind, paths) {
        var i :| 0 <= i < |paths| && paths[i] == k.1;
        assert events[i] == Removed(k);
      }
    }
  }

  lemma AppendBatch(a: set<Key>, first: seq<Event>, b: set<Key>, second: seq<Event>)
    requires RemovalBatch(a, first) && RemovalBatch(b, second) && a !! b
    requires forall x, y | x in a && y in b :: Rank(x.0) >= Rank(y.0)
    ensures RemovalBatch(a + b, first + second)
  {
    forall i | 0 <= i < |first| ensures first[i].key in a { assert first[i] == Removed(first[i].key) && first[i] in first; }
    forall i | 0 <= i < |second| ensures second[i].key in b { assert second[i] == Removed(second[i].key) && second[i] in second; }
  }

  lemma ThreeBatches(below: seq<Path>, belowCharacteristics: seq<Path>, belowServices: seq<Path>,
                     first: seq<Event>, second: seq<Event>, third: seq<Event>)
    requires Erased(DescriptorKind, below, first) && Distinct(below)
    requires Erased(CharacteristicKind, belowCharacteristics, second) && Distinct(belowCharacteristics)
    requires Erased(ServiceKind, belowServices, third) && Distinct(belowServices)
    ensures RemovalBatch(Subtree(below, belowCharacteristics, belowServices), first + second + third)
  {
    ErasedBatch(DescriptorKind, below, first);
    ErasedBatch(CharacteristicKind, belowCharacteristics, second);
    ErasedBatch(ServiceKind, belowServices, third);
    AppendBatch(Tagged(DescriptorKind, below), first, Tagged(CharacteristicKind, belowCharacteristics), second);
    AppendBatch(Tagged(DescriptorKind, below) + Tagged(CharacteristicKind, belowCharacteristics), first + second,
                Tagged(ServiceKind, belowServices), third);
  }

  lemma SubtreeBatch(kind: Kind, path: Path, below: seq<Path>, belowCharacteristics: seq<Path>, belowServices: seq<Path>,
                     first: seq<Event>, second: seq<Event>, third: seq<Event>)
    requires Erased(DescriptorKind, below, first) && Distinct(below) && (forall p | p in below :: Rank(kind) < 3)
    requires Erased(CharacteristicKind, belowCharacteristics, second) && Distinct(belowCharacteristics) && (forall p | p in belowCharacteristics :: Rank(kind) < 2)
    requires Erased(ServiceKind, belowServices, third) && Distinct(belowServices) && (forall p | p in belowServices :: Rank(kind) < 1)
    ensures RemovalBatch(Subtree(below, belowCharacteristics, belowServices) + {(kind, path)}, first + second + third + [Removed((kind, path))])
  {
    ThreeBatches(below, belowCharacteristics, belowServices, first, second, third);
    OwnBatch((kind, path));
    AppendBatch(Subtree(below, belowCharacteristics, belowServices), first + second + third, {(kind, path)}, [Removed((kind, path))]);
  }

  lemma OwnBatch(k: Key)
    ensures RemovalBatch({k}, [Removed(k)])
  {}
}
