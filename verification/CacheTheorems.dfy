/** The incremental cache agrees with parsing the exported tree from scratch. */
module CacheTheorems {
  import opened CacheTables

  // ---------------------------------------------------------------- tables by key

  datatype Record = OfDevice(device: Device) | OfService(service: Service)
    | OfCharacteristic(characteristic: Characteristic) | OfDescriptor(descriptor: Descriptor)

  function Lookup(t: Tables, k: Key): Record
    requires Has(t, k)
  {
    match k.0
    case DeviceKind => OfDevice(t.devices[k.1])
    case ServiceKind => OfService(t.services[k.1])
    case CharacteristicKind => OfCharacteristic(t.characteristics[k.1])
    case DescriptorKind => OfDescriptor(t.descriptors[k.1])
  }

  function Parsed(k: Key, props: Properties): Record {
    match k.0
    case DeviceKind => OfDevice(ParseDevice(k.1, props))
    case ServiceKind => OfService(ParseService(k.1, props))
    case CharacteristicKind => OfCharacteristic(ParseCharacteristic(k.1, props))
    case DescriptorKind => OfDescriptor(ParseDescriptor(k.1, props))
  }

  ghost predicate SameAt(a: Tables, b: Tables, k: Key) { Has(a, k) == Has(b, k) && (Has(a, k) ==> Lookup(a, k) == Lookup(b, k)) }

  /** Tables are what they answer for each key. */
  lemma SameTables(a: Tables, b: Tables)
    requires forall k :: SameAt(a, b, k)
    ensures a == b
  {
    forall p ensures (p in a.devices <==> p in b.devices) && (p in a.devices ==> a.devices[p] == b.devices[p]) {
      assert SameAt(a, b, (DeviceKind, p));
    }
    forall p ensures (p in a.services <==> p in b.services) && (p in a.services ==> a.services[p] == b.services[p]) {
      assert SameAt(a, b, (ServiceKind, p));
    }
    forall p ensures (p in a.characteristics <==> p in b.characteristics) && (p in a.characteristics ==> a.characteristics[p] == b.characteristics[p]) {
      assert SameAt(a, b, (CharacteristicKind, p));
    }
    forall p ensures (p in a.descriptors <==> p in b.descriptors) && (p in a.descriptors ==> a.descriptors[p] == b.descriptors[p]) {
      assert SameAt(a, b, (DescriptorKind, p));
    }
  }

  lemma BatchAt(objects: Objects, k: Key)
    ensures Has(Batch(objects), k) <==> Exports(objects, k)
    ensures Exports(objects, k) ==> Lookup(Batch(objects), k) == Parsed(k, PropertiesOf(objects, k))
  {}

  lemma ProcessAt(t: Tables, path: Path, ifaces: Interfaces, k: Key)
    ensures Has(ProcessObject(t, path, ifaces), k) <==> Has(t, k) || (k.1 == path && Typed(k.0) in ifaces)
    ensures k.1 == path && Typed(k.0) in ifaces ==> Lookup(ProcessObject(t, path, ifaces), k) == Parsed(k, ifaces[Typed(k.0)])
    ensures !(k.1 == path && Typed(k.0) in ifaces) && Has(t, k) ==> Lookup(ProcessObject(t, path, ifaces), k) == Lookup(t, k)
  {
    match k.0
    case DeviceKind =>
    case ServiceKind =>
    case CharacteristicKind =>
    case DescriptorKind =>
  }

  lemma RemoveAt(t: Tables, kind: Kind, path: Path, k: Key)
    ensures Has(RemoveKind(t, kind, path), k) <==> Has(t, k) && Survives(k, kind, path)
    ensures Has(RemoveKind(t, kind, path), k) ==> Lookup(RemoveKind(t, kind, path), k) == Lookup(t, k)
  {}

  lemma DropAt(t: Tables, objects: Objects, device: Path, k: Key)
    ensures Has(DropStale(t, objects, device), k) <==> Has(t, k) && !Stale(objects, device, k)
    ensures Has(DropStale(t, objects, device), k) ==> Lookup(DropStale(t, objects, device), k) == Lookup(t, k)
  {}

  // ---------------------------------------------------------------- what a removal takes along

  ghost predicate Below(path: Path, candidate: Path) { exists rest :: candidate == path + "/" + rest }

  /** A child is anything below the path and its slash. */
  lemma ChildIff(path: Path, candidate: Path)
    ensures IsChild(path, candidate) <==> Below(path, candidate)
  {
    if IsChild(path, candidate) { assert candidate == path + "/" + candidate[|path| + 1..]; }
    if rest :| candidate == path + "/" + rest { assert candidate[..|path|] == path; }
  }

  /** Services belong to devices, characteristics to services, descriptors to characteristics. */
  predicate Deeper(k: Kind, kind: Kind) {
    match kind
    case DeviceKind => k != DeviceKind
    case ServiceKind => k == CharacteristicKind || k == DescriptorKind
    case CharacteristicKind => k == DescriptorKind
    case DescriptorKind => false
  }

  /** Removing an interface takes exactly the object itself and the cached objects of deeper kinds below its path. */
  lemma CascadeExactly(t: Tables, kind: Kind, path: Path, k: Key)
    ensures k in Gone(t, kind, path) <==> k == (kind, path) || (Has(t, k) && Deeper(k.0, kind) && Below(path, k.1))
    ensures Has(RemoveKind(t, kind, path), k) <==> Has(t, k) && k !in Gone(t, kind, path)
  {
    ChildIff(path, k.1);
    RemoveAt(t, kind, path, k);
    assert Rank(k.0) > Rank(kind) <==> Deeper(k.0, kind);
  }

  // ---------------------------------------------------------------- what happens to the exported tree

  function InterfacesAt(objects: Objects, path: Path): Interfaces { if path in objects then objects[path] else map[] }

  /** InterfacesAdded: the object gains (or replaces) these interfaces. */
  function Gains(objects: Objects, path: Path, ifaces: Interfaces): Objects {
    objects[path := InterfacesAt(objects, path) + ifaces]
  }

  predicate Remains(path: Path, i: Interface, kind: Kind, at: Path) { i.Typed? ==> Survives((i.kind, path), kind, at) }

  /** Removing a parent removes its subtree. */
  function LosesTree(objects: Objects, kind: Kind, at: Path): Objects {
    map p | p in objects :: map i | i in objects[p] && Remains(p, i, kind, at) :: objects[p][i]
  }

  /** Only the named interface disappears. */
  function Loses(objects: Objects, kind: Kind, at: Path): Objects {
    if at in objects then objects[at := objects[at] - {Typed(kind)}] else objects
  }

  /** No object of a deeper kind is left below the removed one. */
  ghost predicate NoOrphans(objects: Objects, kind: Kind, at: Path) {
    forall k | Exports(objects, k) :: Survives(k, kind, at)
  }

  function PropertiesAfter(props: Properties, changed: Properties, invalidated: set<Property>): Properties {
    (props + changed) - invalidated
  }

  function Changes(objects: Objects, k: Key, changed: Properties, invalidated: set<Property>): Objects
    requires Exports(objects, k)
  {
    objects[k.1 := objects[k.1][Typed(k.0) := PropertiesAfter(PropertiesOf(objects, k), changed, invalidated)]]
  }

  // ---------------------------------------------------------------- added and removed interfaces

  lemma AddedAgrees(objects: Objects, path: Path, ifaces: Interfaces)
    ensures ProcessObject(Batch(objects), path, ifaces) == Batch(Gains(objects, path, ifaces))
  {
    var after := Gains(objects, path, ifaces);
    forall k ensures SameAt(ProcessObject(Batch(objects), path, ifaces), Batch(after), k) {
      ProcessAt(Batch(objects), path, ifaces, k);
      BatchAt(objects, k);
      BatchAt(after, k);
    }
    SameTables(ProcessObject(Batch(objects), path, ifaces), Batch(after));
  }

  lemma RemovedAgrees(objects: Objects, kind: Kind, at: Path)
    ensures RemoveKind(Batch(objects), kind, at) == Batch(LosesTree(objects, kind, at))
  {
    var after := LosesTree(objects, kind, at);
    forall k ensures SameAt(RemoveKind(Batch(objects), kind, at), Batch(after), k) {
      RemoveAt(Batch(objects), kind, at, k);
      BatchAt(objects, k);
      BatchAt(after, k);
    }
    SameTables(RemoveKind(Batch(objects), kind, at), Batch(after));
  }

  lemma LosesAt(objects: Objects, kind: Kind, at: Path, k: Key)
    ensures Exports(Loses(objects, kind, at), k) <==> Exports(objects, k) && k != (kind, at)
    ensures Exports(Loses(objects, kind, at), k) ==> PropertiesOf(Loses(objects, kind, at), k) == PropertiesOf(objects, k)
  {}

  /** When a signal names only the interface itself, the cascade agrees with the daemon exactly when the
      daemon exports nothing of a deeper kind below it any more. */
  lemma CascadeAgreesIff(objects: Objects, kind: Kind, at: Path)
    ensures RemoveKind(Batch(objects), kind, at) == Batch(Loses(objects, kind, at)) <==> NoOrphans(Loses(objects, kind, at), kind, at)
  {
    var after := Loses(objects, kind, at);
    var cached := RemoveKind(Batch(objects), kind, at);
    forall k ensures Has(cached, k) <==> Exports(objects, k) && Survives(k, kind, at)
             ensures Has(Batch(after), k) <==> Exports(after, k)
             ensures Survives(k, kind, at) ==> SameAt(cached, Batch(after), k)
    {
      RemoveAt(Batch(objects), kind, at, k);
      BatchAt(objects, k);
      BatchAt(after, k);
      LosesAt(objects, kind, at, k);
    }
    if NoOrphans(after, kind, at) {
      forall k ensures SameAt(cached, Batch(after), k) { LosesAt(objects, kind, at, k); }
      SameTables(cached, Batch(after));
    }
  }

  // ---------------------------------------------------------------- changed properties

  /** What a parser makes of one property. */
  datatype Reading =
    | TextRead(text: string) | PathRead(path: Path) | NumberRead(number: int) | FlagRead(flag: bool) | ListRead(list: seq<string>)
    | BytesRead(bytes: seq<nat>) | WordsRead(words: map<nat, seq<nat>>) | TextsRead(texts: map<string, seq<nat>>) | NotRead

  /** The D-Bus type a property is read at. */
  datatype Shape = AText | AList | APath | AFlag | AShort | ALong | AWord | SomeBytes | WordPayloads | TextPayloads | BytePayloads | Ignored

  function DeviceShape(key: Property): Shape {
    match key
    case Adapter => APath
    case Address => AText case AddressType => AText case Name => AText case Alias => AText case Icon => AText
    case Appearance => ALong case RSSI => AShort case TxPower => AShort
    case Connected => AFlag case Paired => AFlag case Bonded => AFlag case Trusted => AFlag case Blocked => AFlag
    case ServicesResolved => AFlag case UUIDs => AList
    case ManufacturerData => WordPayloads case ServiceData => TextPayloads
    case AdvertisingFlags => SomeBytes case AdvertisingData => BytePayloads
    case _ => Ignored
  }

  function ShapeOf(kind: Kind, key: Property): Shape {
    match kind
    case DeviceKind => DeviceShape(key)
    case ServiceKind =>
      (match key case UUID => AText case Primary => AFlag case DevicePath => APath case Includes => AList case _ => Ignored)
    case CharacteristicKind =>
      (match key
       case ServicePath => APath case UUID => AText case Flags => AList case Notifying => AFlag case MTU => AWord
       case Value => SomeBytes case _ => Ignored)
    case DescriptorKind =>
      (match key case CharacteristicPath => APath case UUID => AText case Flags => AList case Value => SomeBytes case _ => Ignored)
  }

  /** What an absent or mistyped property leaves: nothing, except that a service counts as primary. */
  function Default(kind: Kind, key: Property): Reading {
    match ShapeOf(kind, key)
    case AText => TextRead("") case AList => ListRead([]) case APath => PathRead("")
    case AFlag => FlagRead(kind == ServiceKind)
    case AShort => NumberRead(0) case ALong => NumberRead(0) case AWord => NumberRead(0)
    case SomeBytes => BytesRead([]) case WordPayloads => WordsRead(map[]) case TextPayloads => TextsRead(map[])
    case BytePayloads => WordsRead(map[]) case Ignored => NotRead
  }

  /** The value itself where it has the right type; of a payload map, exactly the entries that are byte arrays. */
  function Meaning(shape: Shape, v: Variant, default: Reading): Reading {
    match shape
    case AText => if v.Text? then TextRead(v.text) else default
    case AList => if v.Strings? then ListRead(v.strings) else default
    case APath => if v.ObjectPath? then PathRead(v.path) else default
    case AFlag => if v.Boolean? then FlagRead(v.flag) else default
    case AShort => if v.Int16? then NumberRead(v.short) else default
    case ALong => if v.Int32? then NumberRead(v.long) else default
    case AWord => if v.Uint16? then NumberRead(v.word) else default
    case SomeBytes => if v.Bytes? then BytesRead(v.bytes) else default
    case WordPayloads => if v.ByWord? then WordsRead(map k | k in v.words && v.words[k].Bytes? :: v.words[k].bytes) else default
    case TextPayloads => if v.ByText? then TextsRead(map k | k in v.texts && v.texts[k].Bytes? :: v.texts[k].bytes) else default
    case BytePayloads => if v.ByByte? then WordsRead(map k | k in v.octets && v.octets[k].Bytes? :: v.octets[k].bytes) else default
    case Ignored => default
  }

  /** The value property `key` stands for in `props`, from the D-Bus value alone. */
  function ReadAs(kind: Kind, key: Property, props: Properties): Reading {
    if key in props then Meaning(ShapeOf(kind, key), props[key], Default(kind, key)) else Default(kind, key)
  }

  function DeviceField(d: Device, key: Property): Reading {
    match key
    case Adapter => PathRead(d.adapter) case Address => TextRead(d.mac) case AddressType => TextRead(d.addressType)
    case Name => TextRead(d.name) case Alias => TextRead(d.aliasName) case Icon => TextRead(d.icon)
    case Appearance => NumberRead(d.appearance) case RSSI => NumberRead(d.rssi) case TxPower => NumberRead(d.txPower)
    case Connected => FlagRead(d.connected) case Paired => FlagRead(d.paired) case Bonded => FlagRead(d.bonded)
    case Trusted => FlagRead(d.trusted) case Blocked => FlagRead(d.blocked) case ServicesResolved => FlagRead(d.servicesResolved)
    case UUIDs => ListRead(d.uuids) case ManufacturerData => WordsRead(d.manufacturerData) case ServiceData => TextsRead(d.serviceData)
    case AdvertisingFlags => BytesRead(d.advertisingFlags) case AdvertisingData => WordsRead(d.advertisingData)
    case _ => NotRead
  }

  /** The value of property `key` in a cached record. */
  function FieldOf(r: Record, key: Property): Reading {
    match r
    case OfDevice(d) => DeviceField(d, key)
    case OfService(s) =>
      (match key
       case UUID => TextRead(s.uuid) case Primary => FlagRead(s.primary)
       case DevicePath => PathRead(s.device) case Includes => ListRead(s.includes)
       case _ => NotRead)
    case OfCharacteristic(c) =>
      (match key
       case ServicePath => PathRead(c.service) case UUID => TextRead(c.uuid) case Flags => ListRead(c.flags)
       case Notifying => FlagRead(c.notifying) case MTU => NumberRead(c.mtu) case Value => BytesRead(c.value)
       case _ => NotRead)
    case OfDescriptor(d) =>
      (match key
       case CharacteristicPath => PathRead(d.characteristic) case UUID => TextRead(d.uuid)
       case Flags => ListRead(d.flags) case Value => BytesRead(d.value)
       case _ => NotRead)
  }

  /** A text or list of the wrong type reads as empty; any other value of the wrong type reads as absent. */
  predicate Fits(shape: Shape, v: Variant) {
    match shape
    case AText => true case AList => true case APath => v.ObjectPath? case AFlag => v.Boolean?
    case AShort => v.Int16? case ALong => v.Int32? case AWord => v.Uint16? case SomeBytes => v.Bytes?
    case WordPayloads => v.ByWord? case TextPayloads => v.ByText? case BytePayloads => v.ByByte? case Ignored => true
  }

  /** The properties the parser of this kind reads. */
  predicate Reads(kind: Kind, key: Property) { ShapeOf(kind, key) != Ignored }

  /** ... of which the change handler updates these. */
  predicate HandlesChange(kind: Kind, key: Property) {
    match kind
    case DeviceKind => true
    case ServiceKind => false
    case CharacteristicKind => key.Flags? || key.Notifying? || key.MTU? || key.Value?
    case DescriptorKind => key.Flags? || key.Value?
  }

  /** The handler takes the new value of `key` over. */
  predicate Takes(kind: Kind, key: Property, changed: Properties) {
    key in changed && HandlesChange(kind, key) && Fits(ShapeOf(kind, key), changed[key])
  }

  predicate HandlesInvalidation(kind: Kind, key: Property) { kind == DeviceKind && Clearable(key) }

  /** What the handler makes of a record. */
  function ChangeRecord(r: Record, changed: Properties, invalidated: set<Property>): Record {
    match r
    case OfDevice(d) => OfDevice(ClearInvalidated(UpdateDevice(d, changed), invalidated))
    case OfService(_) => r
    case OfCharacteristic(c) => OfCharacteristic(ChangeCharacteristic(c, changed))
    case OfDescriptor(d) => OfDescriptor(ChangeDescriptor(d, changed))
  }

  function KindOf(r: Record): Kind {
    match r
    case OfDevice(_) => DeviceKind case OfService(_) => ServiceKind
    case OfCharacteristic(_) => CharacteristicKind case OfDescriptor(_) => DescriptorKind
  }

  /** What reading `key` over an earlier value gives. */
  function Merged(shape: Shape, props: Properties, key: Property, before: Reading, default: Reading): Reading {
    if key in props && Fits(shape, props[key]) then Meaning(shape, props[key], default) else before
  }

  lemma TextMerged(props: Properties, key: Property, before: string)
    ensures TextRead(TextOr(props, key, before)) == Merged(AText, props, key, TextRead(before), TextRead(""))
  {}

  lemma ListMerged(props: Properties, key: Property, before: seq<string>)
    ensures ListRead(StringsOr(props, key, before)) == Merged(AList, props, key, ListRead(before), ListRead([]))
  {}

  lemma PathMerged(props: Properties, key: Property, before: Path)
    ensures PathRead(PathOr(props, key, before)) == Merged(APath, props, key, PathRead(before), PathRead(""))
  {}

  lemma FlagMerged(props: Properties, key: Property, before: bool, default: Reading)
    ensures FlagRead(FlagOr(props, key, before)) == Merged(AFlag, props, key, FlagRead(before), default)
  {}

  lemma NumberMerged(props: Properties, key: Property, before: int)
    ensures NumberRead(ShortOr(props, key, before)) == Merged(AShort, props, key, NumberRead(before), NumberRead(0))
    ensures NumberRead(LongOr(props, key, before)) == Merged(ALong, props, key, NumberRead(before), NumberRead(0))
    ensures before >= 0 ==> NumberRead(WordOr(props, key, before)) == Merged(AWord, props, key, NumberRead(before), NumberRead(0))
  {}

  lemma BytesMerged(props: Properties, key: Property, before: seq<nat>)
    ensures BytesRead(BytesOr(props, key, before)) == Merged(SomeBytes, props, key, BytesRead(before), BytesRead([]))
  {}

  /** Exactly the byte arrays of a payload map are kept. */
  lemma PayloadsKept<K(!new)>(raw: map<K, Variant>)
    ensures Payloads(raw) == map k | k in raw && raw[k].Bytes? :: raw[k].bytes
  {}

  lemma WordsMerged(props: Properties, key: Property, before: map<nat, seq<nat>>)
    ensures WordsRead(WordMapOr(props, key, before)) == Merged(WordPayloads, props, key, WordsRead(before), WordsRead(map[]))
    ensures WordsRead(ByteMapOr(props, key, before)) == Merged(BytePayloads, props, key, WordsRead(before), WordsRead(map[]))
  {
    if key in props && props[key].ByWord? { PayloadsKept(props[key].words); }
    if key in props && props[key].ByByte? { PayloadsKept(props[key].octets); }
  }

  lemma TextsMerged(props: Properties, key: Property, before: map<string, seq<nat>>)
    ensures TextsRead(TextMapOr(props, key, before)) == Merged(TextPayloads, props, key, TextsRead(before), TextsRead(map[]))
  {
    if key in props && props[key].ByText? { PayloadsKept(props[key].texts); }
  }

  lemma FieldUpdated(d: Device, changed: Properties, key: Property)
    ensures DeviceField(UpdateDevice(d, changed), key)
            == Merged(DeviceShape(key), changed, key, DeviceField(d, key), Default(DeviceKind, key))
  {
    match DeviceShape(key)
    case AText => TextUpdated(d, changed, key);
    case AFlag => FlagUpdated(d, changed, key);
    case APath => PathMerged(changed, key, d.adapter);
    case AList => ListMerged(changed, key, d.uuids);
    case AShort => NumberUpdated(d, changed, key);
    case ALong => NumberUpdated(d, changed, key);
    case _ => PayloadUpdated(d, changed, key);
  }

  lemma NumberUpdated(d: Device, changed: Properties, key: Property)
    requires DeviceShape(key) in {AShort, ALong}
    ensures DeviceField(UpdateDevice(d, changed), key)
            == Merged(DeviceShape(key), changed, key, DeviceField(d, key), Default(DeviceKind, key))
  {
    NumberMerged(changed, key, DeviceField(d, key).number);
  }

  lemma PayloadUpdated(d: Device, changed: Properties, key: Property)
    requires DeviceShape(key) in {SomeBytes, WordPayloads, BytePayloads, TextPayloads, AWord, Ignored}
    ensures DeviceField(UpdateDevice(d, changed), key)
            == Merged(DeviceShape(key), changed, key, DeviceField(d, key), Default(DeviceKind, key))
  {
    match DeviceShape(key)
    case SomeBytes => BytesMerged(changed, key, d.advertisingFlags);
    case WordPayloads => WordsMerged(changed, key, d.manufacturerData);
    case BytePayloads => WordsMerged(changed, key, d.advertisingData);
    case TextPayloads => TextsMerged(changed, key, d.serviceData);
    case _ =>
  }

  lemma TextUpdated(d: Device, changed: Properties, key: Property)
    requires DeviceShape(key) == AText
    ensures DeviceField(UpdateDevice(d, changed), key) == Merged(AText, changed, key, DeviceField(d, key), TextRead(""))
  {
    TextMerged(changed, key, DeviceField(d, key).text);
  }

  lemma FlagUpdated(d: Device, changed: Properties, key: Property)
    requires DeviceShape(key) == AFlag
    ensures DeviceField(UpdateDevice(d, changed), key) == Merged(AFlag, changed, key, DeviceField(d, key), FlagRead(false))
  {
    FlagMerged(changed, key, DeviceField(d, key).flag, FlagRead(false));
  }

  lemma FieldCleared(d: Device, invalidated: set<Property>, key: Property)
    ensures DeviceField(ClearInvalidated(d, invalidated), key)
            == if key in invalidated && Clearable(key) then Default(DeviceKind, key) else DeviceField(d, key)
  {
    match key
    case Adapter => case Address => case AddressType => case Name => case Alias => case Icon => case Appearance =>
    case RSSI => case TxPower => case Connected => case Paired => case Bonded => case Trusted => case Blocked =>
    case ServicesResolved => case UUIDs => case ManufacturerData => case ServiceData => case AdvertisingFlags =>
    case AdvertisingData =>
    case _ =>
  }

  lemma TakesMerged(kind: Kind, key: Property, changed: Properties, before: Reading)
    requires HandlesChange(kind, key)
    ensures Merged(ShapeOf(kind, key), changed, key, before, Default(kind, key))
            == if Takes(kind, key, changed) then ReadAs(kind, key, changed) else before
  {}

  lemma CharacteristicChanged(c: Characteristic, changed: Properties, key: Property)
    ensures FieldOf(OfCharacteristic(ChangeCharacteristic(c, changed)), key)
            == if !HandlesChange(CharacteristicKind, key) then FieldOf(OfCharacteristic(c), key)
               else Merged(ShapeOf(CharacteristicKind, key), changed, key, FieldOf(OfCharacteristic(c), key), Default(CharacteristicKind, key))
  {
    if key.Flags? {
      ListMerged(changed, key, c.flags);
    } else if key.Notifying? {
      FlagMerged(changed, key, c.notifying, FlagRead(false));
    } else if key.MTU? {
      NumberMerged(changed, key, c.mtu);
    } else if key.Value? {
      BytesMerged(changed, key, c.value);
    }
  }

  lemma DescriptorChanged(d: Descriptor, changed: Properties, key: Property)
    ensures FieldOf(OfDescriptor(ChangeDescriptor(d, changed)), key)
            == if !HandlesChange(DescriptorKind, key) then FieldOf(OfDescriptor(d), key)
               else Merged(ShapeOf(DescriptorKind, key), changed, key, FieldOf(OfDescriptor(d), key), Default(DescriptorKind, key))
  {
    match key
    case Flags => ListMerged(changed, key, d.flags);
    case Value => BytesMerged(changed, key, d.value);
    case _ =>
  }

  lemma DeviceChanged(d: Device, changed: Properties, invalidated: set<Property>, key: Property)
    ensures DeviceField(ClearInvalidated(UpdateDevice(d, changed), invalidated), key)
            == if key in invalidated && Clearable(key) then Default(DeviceKind, key)
               else if Takes(DeviceKind, key, changed) then ReadAs(DeviceKind, key, changed)
               else DeviceField(d, key)
  {
    FieldUpdated(d, changed, key);
    TakesMerged(DeviceKind, key, changed, DeviceField(d, key));
    FieldCleared(UpdateDevice(d, changed), invalidated, key);
  }

  /** One property at a time: cleared, taken over, or left as it was. */
  lemma FieldChanged(r: Record, changed: Properties, invalidated: set<Property>, key: Property)
    ensures var kind := KindOf(r);
            FieldOf(ChangeRecord(r, changed, invalidated), key)
            == if key in invalidated && HandlesInvalidation(kind, key) then Default(kind, key)
               else if Takes(kind, key, changed) then ReadAs(kind, key, changed)
               else FieldOf(r, key)
  {
    if HandlesChange(KindOf(r), key) { TakesMerged(KindOf(r), key, changed, FieldOf(r, key)); }
    match r
    case OfDevice(d) => DeviceChanged(d, changed, invalidated, key);
    case OfService(_) =>
    case OfCharacteristic(c) => CharacteristicChanged(c, changed, key);
    case OfDescriptor(d) => DescriptorChanged(d, changed, key);
  }

  /** A value that is not taken over reads as the default. */
  lemma MergedOverDefault(kind: Kind, key: Property, props: Properties)
    ensures Merged(ShapeOf(kind, key), props, key, Default(kind, key), Default(kind, key)) == ReadAs(kind, key, props)
  {}

  lemma BlankFields(path: Path, key: Property)
    ensures DeviceField(BlankDevice(path), key) == Default(DeviceKind, key)
  {}

  lemma DeviceParsed(path: Path, props: Properties, key: Property)
    ensures FieldOf(OfDevice(ParseDevice(path, props)), key)
            == ReadAs(DeviceKind, key, props)
  {
    MergedOverDefault(DeviceKind, key, props);
    FieldUpdated(BlankDevice(path), props, key);
    BlankFields(path, key);
  }

  lemma ServiceParsed(path: Path, props: Properties, key: Property)
    ensures FieldOf(OfService(ParseService(path, props)), key)
            == ReadAs(ServiceKind, key, props)
  {
    MergedOverDefault(ServiceKind, key, props);
    if key.UUID? {
      TextMerged(props, key, "");
    } else if key.Primary? {
      FlagMerged(props, key, true, FlagRead(true));
    } else if key.DevicePath? {
      PathMerged(props, key, "");
    } else if key.Includes? {
      ListMerged(props, key, []);
    }
  }

  lemma CharacteristicParsed(path: Path, props: Properties, key: Property)
    ensures FieldOf(OfCharacteristic(ParseCharacteristic(path, props)), key)
            == ReadAs(CharacteristicKind, key, props)
  {
    MergedOverDefault(CharacteristicKind, key, props);
    if key.ServicePath? {
      PathMerged(props, key, "");
    } else if key.UUID? {
      TextMerged(props, key, "");
    } else if key.Flags? {
      ListMerged(props, key, []);
    } else if key.Notifying? {
      FlagMerged(props, key, false, FlagRead(false));
    } else if key.MTU? {
      NumberMerged(props, key, 0);
    } else if key.Value? {
      BytesMerged(props, key, []);
    }
  }

  lemma DescriptorParsed(path: Path, props: Properties, key: Property)
    ensures FieldOf(OfDescriptor(ParseDescriptor(path, props)), key)
            == ReadAs(DescriptorKind, key, props)
  {
    MergedOverDefault(DescriptorKind, key, props);
    if key.CharacteristicPath? {
      PathMerged(props, key, "");
    } else if key.UUID? {
      TextMerged(props, key, "");
    } else if key.Flags? {
      ListMerged(props, key, []);
    } else if key.Value? {
      BytesMerged(props, key, []);
    }
  }

  /** Every property of every kind: the parsed record holds the value the D-Bus value stands for. */
  lemma FieldParsed(k: Key, props: Properties, key: Property)
    ensures FieldOf(Parsed(k, props), key) == ReadAs(k.0, key, props)
  {
    match k.0
    case DeviceKind => DeviceParsed(k.1, props, key);
    case ServiceKind => ServiceParsed(k.1, props, key);
    case CharacteristicKind => CharacteristicParsed(k.1, props, key);
    case DescriptorKind => DescriptorParsed(k.1, props, key);
  }

  /** A property of the changed tree. */
  lemma FieldAfter(kind: Kind, key: Property, props: Properties, changed: Properties, invalidated: set<Property>)
    ensures ReadAs(kind, key, PropertiesAfter(props, changed, invalidated))
            == if key in invalidated then Default(kind, key)
               else if key in changed then ReadAs(kind, key, changed)
               else ReadAs(kind, key, props)
  {
    var after := PropertiesAfter(props, changed, invalidated);
    if key in invalidated {
      SameReading(kind, key, after, map[]);
    } else if key in changed {
      SameReading(kind, key, after, changed);
    } else {
      SameReading(kind, key, after, props);
    }
  }

  /** Reading one property looks at nothing else. */
  lemma SameReading(kind: Kind, key: Property, a: Properties, b: Properties)
    requires (key in a <==> key in b) && (key in a ==> a[key] == b[key])
    ensures ReadAs(kind, key, a) == ReadAs(kind, key, b)
  {}

  ghost predicate SameFields(a: Device, b: Device) { forall key :: DeviceField(a, key) == DeviceField(b, key) }

  lemma SameTexts(a: Device, b: Device)
    requires SameFields(a, b)
    ensures a.adapter == b.adapter && a.mac == b.mac && a.addressType == b.addressType && a.name == b.name
    ensures a.aliasName == b.aliasName && a.icon == b.icon && a.uuids == b.uuids
  {
    assert DeviceField(a, Adapter) == DeviceField(b, Adapter) && DeviceField(a, Address) == DeviceField(b, Address);
    assert DeviceField(a, AddressType) == DeviceField(b, AddressType) && DeviceField(a, Name) == DeviceField(b, Name);
    assert DeviceField(a, Alias) == DeviceField(b, Alias) && DeviceField(a, Icon) == DeviceField(b, Icon);
    assert DeviceField(a, UUIDs) == DeviceField(b, UUIDs);
  }

  lemma SameNumbers(a: Device, b: Device)
    requires SameFields(a, b)
    ensures a.appearance == b.appearance && a.rssi == b.rssi && a.txPower == b.txPower
    ensures a.manufacturerData == b.manufacturerData && a.serviceData == b.serviceData
    ensures a.advertisingFlags == b.advertisingFlags && a.advertisingData == b.advertisingData
  {
    assert DeviceField(a, Appearance) == DeviceField(b, Appearance) && DeviceField(a, RSSI) == DeviceField(b, RSSI);
    assert DeviceField(a, TxPower) == DeviceField(b, TxPower) && DeviceField(a, ServiceData) == DeviceField(b, ServiceData);
    assert DeviceField(a, ManufacturerData) == DeviceField(b, ManufacturerData);
    assert DeviceField(a, AdvertisingFlags) == DeviceField(b, AdvertisingFlags);
    assert DeviceField(a, AdvertisingData) == DeviceField(b, AdvertisingData);
  }

  lemma SameFlags(a: Device, b: Device)
    requires SameFields(a, b)
    ensures a.connected == b.connected && a.paired == b.paired && a.bonded == b.bonded
    ensures a.trusted == b.trusted && a.blocked == b.blocked && a.servicesResolved == b.servicesResolved
  {
    assert DeviceField(a, Connected) == DeviceField(b, Connected) && DeviceField(a, Paired) == DeviceField(b, Paired);
    assert DeviceField(a, Bonded) == DeviceField(b, Bonded) && DeviceField(a, Trusted) == DeviceField(b, Trusted);
    assert DeviceField(a, Blocked) == DeviceField(b, Blocked) && DeviceField(a, ServicesResolved) == DeviceField(b, ServicesResolved);
  }

  lemma SameDevice(a: Device, b: Device)
    requires a.path == b.path && SameFields(a, b)
    ensures a == b
  {
    SameTexts(a, b);
    SameNumbers(a, b);
    SameFlags(a, b);
  }

  function PathOf(r: Record): Path {
    match r
    case OfDevice(d) => d.path case OfService(s) => s.path
    case OfCharacteristic(c) => c.path case OfDescriptor(d) => d.path
  }

  /** Records of one kind and path are equal when every property read agrees. */
  lemma SameRecord(a: Record, b: Record)
    requires KindOf(a) == KindOf(b) && PathOf(a) == PathOf(b) && forall key :: FieldOf(a, key) == FieldOf(b, key)
    ensures a == b
  {
    match a
    case OfDevice(d) =>
      forall key ensures DeviceField(d, key) == DeviceField(b.device, key) { assert FieldOf(a, key) == FieldOf(b, key); }
      SameDevice(d, b.device);
    case OfService(s) => SameService(s, b.service);
    case OfCharacteristic(c) => SameCharacteristic(c, b.characteristic);
    case OfDescriptor(d) => SameDescriptor(d, b.descriptor);
  }

  lemma SameService(c: Service, d: Service)
    requires c.path == d.path && forall key :: FieldOf(OfService(c), key) == FieldOf(OfService(d), key)
    ensures c == d
  {
    var a, b := OfService(c), OfService(d);
    assert FieldOf(a, UUID) == FieldOf(b, UUID) && FieldOf(a, Primary) == FieldOf(b, Primary);
    assert FieldOf(a, DevicePath) == FieldOf(b, DevicePath) && FieldOf(a, Includes) == FieldOf(b, Includes);
  }

  lemma SameDescriptor(c: Descriptor, d: Descriptor)
    requires c.path == d.path && forall key :: FieldOf(OfDescriptor(c), key) == FieldOf(OfDescriptor(d), key)
    ensures c == d
  {
    var a, b := OfDescriptor(c), OfDescriptor(d);
    assert FieldOf(a, CharacteristicPath) == FieldOf(b, CharacteristicPath) && FieldOf(a, UUID) == FieldOf(b, UUID);
    assert FieldOf(a, Flags) == FieldOf(b, Flags) && FieldOf(a, Value) == FieldOf(b, Value);
  }

  lemma SameCharacteristic(c: Characteristic, d: Characteristic)
    requires c.path == d.path && forall key :: FieldOf(OfCharacteristic(c), key) == FieldOf(OfCharacteristic(d), key)
    ensures c == d
  {
    var a, b := OfCharacteristic(c), OfCharacteristic(d);
    assert c.service == d.service by { assert FieldOf(a, ServicePath) == FieldOf(b, ServicePath); }
    assert c.uuid == d.uuid by { assert FieldOf(a, UUID) == FieldOf(b, UUID); }
    assert c.flags == d.flags by { assert FieldOf(a, Flags) == FieldOf(b, Flags); }
    assert c.notifying == d.notifying by { assert FieldOf(a, Notifying) == FieldOf(b, Notifying); }
    assert c.mtu == d.mtu by { assert FieldOf(a, MTU) == FieldOf(b, MTU); }
    assert c.value == d.value by { assert FieldOf(a, Value) == FieldOf(b, Value); }
  }

  /** The handler does right by property `key`: an invalidated one is cleared, or reads as its default
      anyway; a changed one is taken over, or reads as before. */
  predicate Caught(kind: Kind, key: Property, props: Properties, changed: Properties, invalidated: set<Property>) {
    if key in invalidated then
      HandlesInvalidation(kind, key) || ReadAs(kind, key, if Takes(kind, key, changed) then changed else props) == Default(kind, key)
    else
      key in changed && !Takes(kind, key, changed) ==> ReadAs(kind, key, changed) == ReadAs(kind, key, props)
  }

  /** `cached` and `parsed` are what the handler and a fresh parse make of property `key`. */
  lemma CaughtIff(kind: Kind, key: Property, props: Properties, changed: Properties, invalidated: set<Property>, cached: Reading, parsed: Reading)
    requires cached == if key in invalidated && HandlesInvalidation(kind, key) then Default(kind, key)
                       else if Takes(kind, key, changed) then ReadAs(kind, key, changed) else ReadAs(kind, key, props)
    requires parsed == if key in invalidated then Default(kind, key)
                       else if key in changed then ReadAs(kind, key, changed) else ReadAs(kind, key, props)
    ensures cached == parsed <==> Caught(kind, key, props, changed, invalidated)
  {}

  lemma KindParsed(k: Key, props: Properties)
    ensures KindOf(Parsed(k, props)) == k.0 && PathOf(Parsed(k, props)) == k.1
  {}

  lemma FieldAgreesIff(k: Key, key: Property, props: Properties, changed: Properties, invalidated: set<Property>)
    ensures FieldOf(ChangeRecord(Parsed(k, props), changed, invalidated), key)
            == FieldOf(Parsed(k, PropertiesAfter(props, changed, invalidated)), key)
            <==> Caught(k.0, key, props, changed, invalidated)
  {
    var cached := FieldOf(ChangeRecord(Parsed(k, props), changed, invalidated), key);
    var parsed := FieldOf(Parsed(k, PropertiesAfter(props, changed, invalidated)), key);
    KindParsed(k, props);
    FieldChanged(Parsed(k, props), changed, invalidated, key);
    FieldParsed(k, props, key);
    FieldParsed(k, PropertiesAfter(props, changed, invalidated), key);
    FieldAfter(k.0, key, props, changed, invalidated);
    CaughtIff(k.0, key, props, changed, invalidated, cached, parsed);
  }

  lemma KindChanged(r: Record, changed: Properties, invalidated: set<Property>)
    ensures KindOf(ChangeRecord(r, changed, invalidated)) == KindOf(r) && PathOf(ChangeRecord(r, changed, invalidated)) == PathOf(r)
  {}

  /** The handler agrees with a fresh parse exactly when every property is caught. */
  lemma RecordAgreesIff(k: Key, props: Properties, changed: Properties, invalidated: set<Property>)
    ensures ChangeRecord(Parsed(k, props), changed, invalidated) == Parsed(k, PropertiesAfter(props, changed, invalidated))
            <==> forall key :: Caught(k.0, key, props, changed, invalidated)
  {
    var a, b := ChangeRecord(Parsed(k, props), changed, invalidated), Parsed(k, PropertiesAfter(props, changed, invalidated));
    forall key ensures FieldOf(a, key) == FieldOf(b, key) <==> Caught(k.0, key, props, changed, invalidated) {
      FieldAgreesIff(k, key, props, changed, invalidated);
    }
    if forall key :: Caught(k.0, key, props, changed, invalidated) {
      KindParsed(k, props);
      KindParsed(k, PropertiesAfter(props, changed, invalidated));
      KindChanged(Parsed(k, props), changed, invalidated);
      SameRecord(a, b);
    }
  }

  lemma ChangeLeaves(t: Tables, k: Key, changed: Properties, invalidated: set<Property>, j: Key)
    requires j != k
    ensures SameAt(ChangeProperties(t, k.1, Typed(k.0), changed, invalidated), t, j)
  {
    if k.0 != j.0 { OtherTables(t, k, changed, invalidated, j.0); }
  }

  /** Only the table of the changed kind is touched. */
  lemma OtherTables(t: Tables, k: Key, changed: Properties, invalidated: set<Property>, kind: Kind)
    requires kind != k.0
    ensures var after := ChangeProperties(t, k.1, Typed(k.0), changed, invalidated);
            match kind
            case DeviceKind => after.devices == t.devices
            case ServiceKind => after.services == t.services
            case CharacteristicKind => after.characteristics == t.characteristics
            case DescriptorKind => after.descriptors == t.descriptors
  {}

  lemma ChangesLeave(objects: Objects, k: Key, changed: Properties, invalidated: set<Property>, j: Key)
    requires Exports(objects, k) && j != k
    ensures Exports(Changes(objects, k, changed, invalidated), j) <==> Exports(objects, j)
    ensures Exports(objects, j) ==> PropertiesOf(Changes(objects, k, changed, invalidated), j) == PropertiesOf(objects, j)
  {}

  lemma ChangedAt(objects: Objects, k: Key, changed: Properties, invalidated: set<Property>, j: Key)
    requires Exports(objects, k) && j != k
    ensures SameAt(ChangeProperties(Batch(objects), k.1, Typed(k.0), changed, invalidated), Batch(objects), j)
    ensures SameAt(Batch(Changes(objects, k, changed, invalidated)), Batch(objects), j)
  {
    ChangeLeaves(Batch(objects), k, changed, invalidated, j);
    ChangesLeave(objects, k, changed, invalidated, j);
    BatchAt(objects, j);
    BatchAt(Changes(objects, k, changed, invalidated), j);
  }

  lemma ChangeHere(t: Tables, k: Key, changed: Properties, invalidated: set<Property>)
    requires Has(t, k)
    ensures var after := ChangeProperties(t, k.1, Typed(k.0), changed, invalidated);
            Has(after, k) && Lookup(after, k) == ChangeRecord(Lookup(t, k), changed, invalidated)
  {}

  /** PropertiesChanged, whatever it names: the cache agrees with parsing the changed tree exactly when every
      property is caught. */
  lemma ChangeAgreesIff(objects: Objects, k: Key, changed: Properties, invalidated: set<Property>)
    requires Exports(objects, k)
    ensures ChangeProperties(Batch(objects), k.1, Typed(k.0), changed, invalidated) == Batch(Changes(objects, k, changed, invalidated))
            <==> forall key :: Caught(k.0, key, PropertiesOf(objects, k), changed, invalidated)
  {
    var cached := ChangeProperties(Batch(objects), k.1, Typed(k.0), changed, invalidated);
    var parsed := Batch(Changes(objects, k, changed, invalidated));
    BatchAt(objects, k);
    ChangeHere(Batch(objects), k, changed, invalidated);
    BatchAt(Changes(objects, k, changed, invalidated), k);
    RecordAgreesIff(k, PropertiesOf(objects, k), changed, invalidated);
    if Lookup(cached, k) == Lookup(parsed, k) {
      forall j ensures SameAt(cached, parsed, j) {
        if j != k { ChangedAt(objects, k, changed, invalidated, j); }
      }
      SameTables(cached, parsed);
    }
  }

  /** Values the parser can read, and every changed or invalidated key it reads is one the handler handles. */
  predicate Handled(kind: Kind, changed: Properties, invalidated: set<Property>) {
    && (forall key | key in changed && Reads(kind, key) :: Takes(kind, key, changed))
    && (forall key | key in invalidated && Reads(kind, key) :: HandlesInvalidation(kind, key))
  }

  lemma HandledIsCaught(kind: Kind, key: Property, props: Properties, changed: Properties, invalidated: set<Property>)
    requires Handled(kind, changed, invalidated)
    ensures Caught(kind, key, props, changed, invalidated)
  {}

  lemma ChangedAgrees(objects: Objects, k: Key, changed: Properties, invalidated: set<Property>)
    requires Exports(objects, k) && Handled(k.0, changed, invalidated)
    ensures ChangeProperties(Batch(objects), k.1, Typed(k.0), changed, invalidated) == Batch(Changes(objects, k, changed, invalidated))
  {
    ChangeAgreesIff(objects, k, changed, invalidated);
    forall key ensures Caught(k.0, key, PropertiesOf(objects, k), changed, invalidated) {
      HandledIsCaught(k.0, key, PropertiesOf(objects, k), changed, invalidated);
    }
  }

  /** One that is not caught: an invalidated signal strength stays cached. */
  lemma IgnoredInvalidation(path: Path, props: Properties, strength: int)
    requires RSSI in props && props[RSSI] == Int16(strength) && strength != 0
    ensures !Caught(DeviceKind, RSSI, props, map[], {RSSI})
    ensures ClearInvalidated(UpdateDevice(ParseDevice(path, props), map[]), {RSSI}).rssi == strength
    ensures ParseDevice(path, PropertiesAfter(props, map[], {RSSI})).rssi == 0
  {}
}
