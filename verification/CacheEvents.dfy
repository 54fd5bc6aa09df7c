/** What the observers of the cache are told: which event follows which change. */
module CacheEvents {
  import opened CacheTables
  import opened CacheTheorems

  /** The properties whose arrival counts as a change of the object itself, the value apart. */
  function Metadata(kind: Kind, changed: Properties): set<Property> {
    match kind
    case DeviceKind => changed.Keys
    case ServiceKind => {}
    case CharacteristicKind => changed.Keys * {Notifying, MTU, Flags}
    case DescriptorKind => changed.Keys * {Flags}
  }

  /** A device is announced for anything that arrives or a payload that is withdrawn, the other kinds for what
      arrives; a value has its own event, after the other; services and objects not cached are not announced. */
  lemma ChangeEventsExactly(t: Tables, k: Key, changed: Properties, invalidated: set<Property>)
    ensures var events := ChangeEvents(t, k.1, Typed(k.0), changed, invalidated);
            && (Changed(k) in events <==>
                  Has(t, k) && (Metadata(k.0, changed) != {} || exists key | key in invalidated :: HandlesInvalidation(k.0, key)))
            && (ValueChanged(k) in events <==>
                  Has(t, k) && k.0 in {CharacteristicKind, DescriptorKind} && Value in changed)
            && (forall e | e in events :: e in {Changed(k), ValueChanged(k)})
            && (|events| <= 1 || events == [Changed(k), ValueChanged(k)])
  {
    match k.0
    case DeviceKind => DeviceAnnounced(changed, invalidated);
    case ServiceKind =>
    case CharacteristicKind => CharacteristicAnnounced(changed);
    case DescriptorKind => DescriptorAnnounced(changed);
  }

  lemma DeviceAnnounced(changed: Properties, invalidated: set<Property>)
    ensures Metadata(DeviceKind, changed) != {} <==> changed != map[]
    ensures (exists key | key in invalidated :: Clearable(key)) <==> (exists key | key in invalidated :: HandlesInvalidation(DeviceKind, key))
  {
    if changed != map[] {
      var key :| key in changed;
      assert key in Metadata(DeviceKind, changed);
    }
    if key :| key in invalidated && Clearable(key) { assert HandlesInvalidation(DeviceKind, key); }
  }

  lemma CharacteristicAnnounced(changed: Properties)
    ensures Metadata(CharacteristicKind, changed) != {} <==> Notifying in changed || MTU in changed || Flags in changed
  {
    var keys := Metadata(CharacteristicKind, changed);
    assert Notifying in changed ==> Notifying in keys;
    assert MTU in changed ==> MTU in keys;
    assert Flags in changed ==> Flags in keys;
  }

  lemma DescriptorAnnounced(changed: Properties)
    ensures Metadata(DescriptorKind, changed) != {} <==> Flags in changed
  {
    assert Flags in changed ==> Flags in Metadata(DescriptorKind, changed);
  }

  /** No cached property changes silently: a new value is announced as one, anything else as a change. */
  lemma NothingChangesSilently(t: Tables, k: Key, changed: Properties, invalidated: set<Property>, key: Property)
    requires Has(t, k)
    ensures var after := ChangeProperties(t, k.1, Typed(k.0), changed, invalidated);
            Has(after, k)
            && (FieldOf(Lookup(after, k), key) != FieldOf(Lookup(t, k), key) ==>
                  (if key == Value then ValueChanged(k) else Changed(k)) in ChangeEvents(t, k.1, Typed(k.0), changed, invalidated))
  {
    ChangeHere(t, k, changed, invalidated);
    var r := Lookup(t, k);
    if FieldOf(ChangeRecord(r, changed, invalidated), key) != FieldOf(r, key) {
      WhyChanged(r, changed, invalidated, key);
      ChangeEventsExactly(t, k, changed, invalidated);
    }
  }

  lemma WhyChanged(r: Record, changed: Properties, invalidated: set<Property>, key: Property)
    requires FieldOf(ChangeRecord(r, changed, invalidated), key) != FieldOf(r, key)
    ensures if key == Value then key in changed && KindOf(r) in {CharacteristicKind, DescriptorKind}
            else key in Metadata(KindOf(r), changed) || (key in invalidated && HandlesInvalidation(KindOf(r), key))
  {
    FieldChanged(r, changed, invalidated, key);
    if Takes(KindOf(r), key, changed) { ArrivalIsMetadata(KindOf(r), changed, key); }
  }

  lemma ArrivalIsMetadata(kind: Kind, changed: Properties, key: Property)
    requires Takes(kind, key, changed)
    ensures key == Value || key in Metadata(kind, changed)
  {}

  lemma AddedWhen(t: Tables, path: Path, ifaces: Interfaces, e: Event)
    ensures e in ProcessEvents(t, path, ifaces) <==> e.Added? && e.key.1 == path && Typed(e.key.0) in ifaces && !Has(t, e.key)
  {
    var d, s := AddedIf(t, (DeviceKind, path), ifaces), AddedIf(t, (ServiceKind, path), ifaces);
    var c, r := AddedIf(t, (CharacteristicKind, path), ifaces), AddedIf(t, (DescriptorKind, path), ifaces);
    assert ProcessEvents(t, path, ifaces) == d + s + c + r;
    assert e in d + s + c + r <==> e in d || e in s || e in c || e in r;
    AddedOne(t, (DeviceKind, path), ifaces, e);
    AddedOne(t, (ServiceKind, path), ifaces, e);
    AddedOne(t, (CharacteristicKind, path), ifaces, e);
    AddedOne(t, (DescriptorKind, path), ifaces, e);
    assert e.Added? ==> e.key == (e.key.0, e.key.1);
  }

  lemma AddedOne(t: Tables, k: Key, ifaces: Interfaces, e: Event)
    ensures e in AddedIf(t, k, ifaces) <==> e == Added(k) && Typed(k.0) in ifaces && !Has(t, k)
  {}

  lemma AddedInOrder(t: Tables, path: Path, ifaces: Interfaces)
    ensures var events := ProcessEvents(t, path, ifaces);
            forall i, j | 0 <= i < j < |events| :: events[i].Added? && events[j].Added? && Rank(events[i].key.0) < Rank(events[j].key.0)
  {}

  /** Processing an object announces exactly the keys that were not cached, each once, parents before children. */
  lemma AddedExactly(t: Tables, path: Path, ifaces: Interfaces)
    ensures var after, events := ProcessObject(t, path, ifaces), ProcessEvents(t, path, ifaces);
            && (forall e :: e in events <==> e.Added? && Has(after, e.key) && !Has(t, e.key))
            && (forall i, j | 0 <= i < j < |events| :: events[i].Added? && events[j].Added? && Rank(events[i].key.0) < Rank(events[j].key.0))
  {
    AddedInOrder(t, path, ifaces);
    forall e ensures e in ProcessEvents(t, path, ifaces) <==> e.Added? && Has(ProcessObject(t, path, ifaces), e.key) && !Has(t, e.key) {
      ProcessAt(t, path, ifaces, e.key);
      AddedWhen(t, path, ifaces, e);
    }
  }
}
