/** The typed tables of the BlueZ object cache, the parsers that fill them, and what each signal does
    to them. Timestamps and the adapter table are not part of the model. */
module CacheTables {

  type Path = string

  /** A D-Bus value; reading it at another type throws, which the code turns into a fallback. */
  datatype Variant =
    | Text(text: string) | ObjectPath(path: Path) | Boolean(flag: bool)
    | Int16(short: int) | Int32(long: int) | Uint16(word: nat)
    | Strings(strings: seq<string>) | Bytes(bytes: seq<nat>)
    | ByWord(words: map<nat, Variant>) | ByText(texts: map<string, Variant>) | ByByte(octets: map<nat, Variant>)

  /** The property names the parsers read. */
  datatype Property =
    | Adapter | Address | AddressType | Name | Alias | Icon | Appearance | RSSI | TxPower | Connected | Paired | Bonded | Trusted
    | Blocked | ServicesResolved | UUIDs | ManufacturerData | ServiceData | AdvertisingFlags | AdvertisingData | UUID | Primary
    | DevicePath | Includes | ServicePath | CharacteristicPath | Flags | Notifying | MTU | Value | OtherProperty(name: string)

  type Properties = map<Property, Variant>

  datatype Kind = DeviceKind | ServiceKind | CharacteristicKind | DescriptorKind
  datatype Interface = Typed(kind: Kind) | AdapterInterface | AdvertisingManager | Unknown(name: string)

  type Interfaces = map<Interface, Properties>
  /** A GetManagedObjects answer, or the tree the daemon exports. */
  type Objects = map<Path, Interfaces>

  datatype Device = Device(
    path: Path, adapter: Path, mac: string, addressType: string, name: string, aliasName: string, icon: string,
    appearance: int, rssi: int, txPower: int, connected: bool, paired: bool, bonded: bool, trusted: bool, blocked: bool,
    servicesResolved: bool, uuids: seq<string>, manufacturerData: map<nat, seq<nat>>, serviceData: map<string, seq<nat>>,
    advertisingFlags: seq<nat>, advertisingData: map<nat, seq<nat>>)
  datatype Service = Service(path: Path, uuid: string, primary: bool, device: Path, includes: seq<string>)
  datatype Characteristic = Characteristic(
    path: Path, service: Path, uuid: string, flags: seq<string>, notifying: bool, mtu: nat, value: seq<nat>)
  datatype Descriptor = Descriptor(path: Path, characteristic: Path, uuid: string, flags: seq<string>, value: seq<nat>)

  datatype Tables = Tables(
    devices: map<Path, Device>, services: map<Path, Service>,
    characteristics: map<Path, Characteristic>, descriptors: map<Path, Descriptor>)

  const EMPTY := Tables(map[], map[], map[], map[])

  // ---------------------------------------------------------------- reading properties

  /** `get_string`: an absent or mistyped property reads as empty. */
  function TextOr(props: Properties, key: Property, fallback: string): string {
    if key !in props then fallback else if props[key].Text? then props[key].text else ""
  }
  function StringsOr(props: Properties, key: Property, fallback: seq<string>): seq<string> {
    if key !in props then fallback else if props[key].Strings? then props[key].strings else []
  }
  /** `get_or`: an absent or mistyped property keeps the fallback. */
  function FlagOr(props: Properties, key: Property, fallback: bool): bool {
    if key in props && props[key].Boolean? then props[key].flag else fallback
  }
  function ShortOr(props: Properties, key: Property, fallback: int): int {
    if key in props && props[key].Int16? then props[key].short else fallback
  }
  function LongOr(props: Properties, key: Property, fallback: int): int {
    if key in props && props[key].Int32? then props[key].long else fallback
  }
  function WordOr(props: Properties, key: Property, fallback: nat): nat {
    if key in props && props[key].Uint16? then props[key].word else fallback
  }
  function BytesOr(props: Properties, key: Property, fallback: seq<nat>): seq<nat> {
    if key in props && props[key].Bytes? then props[key].bytes else fallback
  }
  function PathOr(props: Properties, key: Property, fallback: Path): Path {
    if key in props && props[key].ObjectPath? then props[key].path else fallback
  }
  /** Entries whose value is not a byte array are skipped. */
  function Payloads<K(!new)>(raw: map<K, Variant>): map<K, seq<nat>> {
    map k | k in raw && raw[k].Bytes? :: raw[k].bytes
  }
  function WordMapOr(props: Properties, key: Property, fallback: map<nat, seq<nat>>): map<nat, seq<nat>> {
    if key in props && props[key].ByWord? then Payloads(props[key].words) else fallback
  }
  function TextMapOr(props: Properties, key: Property, fallback: map<string, seq<nat>>): map<string, seq<nat>> {
    if key in props && props[key].ByText? then Payloads(props[key].texts) else fallback
  }
  function ByteMapOr(props: Properties, key: Property, fallback: map<nat, seq<nat>>): map<nat, seq<nat>> {
    if key in props && props[key].ByByte? then Payloads(props[key].octets) else fallback
  }

  // ---------------------------------------------------------------- parsers

  /** Merge the properties present into a device record. */
  function UpdateDevice(d: Device, props: Properties): Device {
    Device(d.path, PathOr(props, Adapter, d.adapter), TextOr(props, Address, d.mac),
           TextOr(props, AddressType, d.addressType), TextOr(props, Name, d.name), TextOr(props, Alias, d.aliasName),
           TextOr(props, Icon, d.icon), LongOr(props, Appearance, d.appearance), ShortOr(props, RSSI, d.rssi),
           ShortOr(props, TxPower, d.txPower), FlagOr(props, Connected, d.connected), FlagOr(props, Paired, d.paired),
           FlagOr(props, Bonded, d.bonded), FlagOr(props, Trusted, d.trusted), FlagOr(props, Blocked, d.blocked),
           FlagOr(props, ServicesResolved, d.servicesResolved), StringsOr(props, UUIDs, d.uuids),
           WordMapOr(props, ManufacturerData, d.manufacturerData), TextMapOr(props, ServiceData, d.serviceData),
           BytesOr(props, AdvertisingFlags, d.advertisingFlags), ByteMapOr(props, AdvertisingData, d.advertisingData))
  }

  function BlankDevice(path: Path): Device {
    Device(path, "", "", "", "", "", "", 0, 0, 0, false, false, false, false, false, false, [], map[], map[], [], map[])
  }

  function ParseDevice(path: Path, props: Properties): Device { UpdateDevice(BlankDevice(path), props) }

  function ParseService(path: Path, props: Properties): Service {
    Service(path, TextOr(props, UUID, ""), FlagOr(props, Primary, true), PathOr(props, DevicePath, ""), StringsOr(props, Includes, []))
  }

  function ParseCharacteristic(path: Path, props: Properties): Characteristic {
    Characteristic(path, PathOr(props, ServicePath, ""), TextOr(props, UUID, ""), StringsOr(props, Flags, []),
                   FlagOr(props, Notifying, false), WordOr(props, MTU, 0), BytesOr(props, Value, []))
  }

  function ParseDescriptor(path: Path, props: Properties): Descriptor {
    Descriptor(path, PathOr(props, CharacteristicPath, ""), TextOr(props, UUID, ""), StringsOr(props, Flags, []), BytesOr(props, Value, []))
  }

  // ---------------------------------------------------------------- paths, keys and events

  /** Strictly below, at a slash boundary: siblings that share a name prefix are not children. */
  predicate IsChild(parent: Path, candidate: Path) {
    |candidate| > |parent| && candidate[..|parent|] == parent && candidate[|parent|] == '/'
  }

  type Key = (Kind, Path)

  function Rank(k: Kind): nat {
    match k case DeviceKind => 0 case ServiceKind => 1 case CharacteristicKind => 2 case DescriptorKind => 3
  }

  predicate Has(t: Tables, k: Key) {
    match k.0
    case DeviceKind => k.1 in t.devices
    case ServiceKind => k.1 in t.services
    case CharacteristicKind => k.1 in t.characteristics
    case DescriptorKind => k.1 in t.descriptors
  }

  function Keys(t: Tables): (ks: set<Key>)
    ensures forall k :: k in ks <==> Has(t, k)
  {
    (set p | p in t.devices :: (DeviceKind, p)) + (set p | p in t.services :: (ServiceKind, p))
    + (set p | p in t.characteristics :: (CharacteristicKind, p)) + (set p | p in t.descriptors :: (DescriptorKind, p))
  }

  datatype Event = Added(key: Key) | Removed(key: Key) | Changed(key: Key) | ValueChanged(key: Key)

  /** What an observer's key set becomes when it applies the events in order. */
  function Replay(ks: set<Key>, events: seq<Event>): set<Key>
    decreases |events|
  {
    if events == [] then ks
    else
      var e := events[0];
      Replay(if e.Added? then ks + {e.key} else if e.Removed? then ks - {e.key} else ks, events[1..])
  }

  /** Removal of exactly the keys `gone`, each once, descendants' kinds before ancestors' kinds. */
  ghost predicate RemovalBatch(gone: set<Key>, events: seq<Event>) {
    && (forall i | 0 <= i < |events| :: events[i].Removed?)
    && (forall k :: k in gone <==> Removed(k) in events)
    && (forall i, j | 0 <= i < j < |events| :: events[i] != events[j] && Rank(events[i].key.0) >= Rank(events[j].key.0))
  }

  // ---------------------------------------------------------------- the whole tree at once

  predicate Exports(objects: Objects, k: Key) { k.1 in objects && Typed(k.0) in objects[k.1] }

  function PropertiesOf(objects: Objects, k: Key): Properties
    requires Exports(objects, k)
  { objects[k.1][Typed(k.0)] }

  /** The tables parsed from scratch. */
  function Batch(objects: Objects): Tables {
    Tables(map p | p in objects && Exports(objects, (DeviceKind, p)) :: ParseDevice(p, PropertiesOf(objects, (DeviceKind, p))),
           map p | p in objects && Exports(objects, (ServiceKind, p)) :: ParseService(p, PropertiesOf(objects, (ServiceKind, p))),
           map p | p in objects && Exports(objects, (CharacteristicKind, p)) ::
             ParseCharacteristic(p, PropertiesOf(objects, (CharacteristicKind, p))),
           map p | p in objects && Exports(objects, (DescriptorKind, p)) ::
             ParseDescriptor(p, PropertiesOf(objects, (DescriptorKind, p))))
  }

  // ---------------------------------------------------------------- handlers

  /** `process_object`: parse each known interface into its table. */
  function ProcessObject(t: Tables, path: Path, ifaces: Interfaces): Tables {
    Tables(
      if Typed(DeviceKind) in ifaces then t.devices[path := ParseDevice(path, ifaces[Typed(DeviceKind)])] else t.devices,
      if Typed(ServiceKind) in ifaces then t.services[path := ParseService(path, ifaces[Typed(ServiceKind)])] else t.services,
      if Typed(CharacteristicKind) in ifaces
        then t.characteristics[path := ParseCharacteristic(path, ifaces[Typed(CharacteristicKind)])] else t.characteristics,
      if Typed(DescriptorKind) in ifaces
        then t.descriptors[path := ParseDescriptor(path, ifaces[Typed(DescriptorKind)])] else t.descriptors)
  }

  /** An Added event only for a key that was not cached. */
  function AddedIf(t: Tables, k: Key, ifaces: Interfaces): seq<Event> {
    if Typed(k.0) in ifaces && !Has(t, k) then [Added(k)] else []
  }

  function ProcessEvents(t: Tables, path: Path, ifaces: Interfaces): seq<Event> {
    AddedIf(t, (DeviceKind, path), ifaces) + AddedIf(t, (ServiceKind, path), ifaces)
    + AddedIf(t, (CharacteristicKind, path), ifaces) + AddedIf(t, (DescriptorKind, path), ifaces)
  }

  /** Removing kind `kind` at `path` takes every deeper kind strictly below it along. */
  predicate Survives(k: Key, kind: Kind, path: Path) {
    k != (kind, path) && !(Rank(k.0) > Rank(kind) && IsChild(path, k.1))
  }

  function RemoveKind(t: Tables, kind: Kind, path: Path): Tables {
    Tables(map p | p in t.devices && Survives((DeviceKind, p), kind, path) :: t.devices[p],
           map p | p in t.services && Survives((ServiceKind, p), kind, path) :: t.services[p],
           map p | p in t.characteristics && Survives((CharacteristicKind, p), kind, path) :: t.characteristics[p],
           map p | p in t.descriptors && Survives((DescriptorKind, p), kind, path) :: t.descriptors[p])
  }

  /** The keys reported removed: the object itself, cached or not, and its cached deeper subtree. */
  function Gone(t: Tables, kind: Kind, path: Path): set<Key> {
    (set k | k in Keys(t) && !Survives(k, kind, path)) + {(kind, path)}
  }

  /** `remove_interfaces`: one interface after the other. */
  function RemoveAll(t: Tables, path: Path, ifaces: seq<Interface>): Tables
    decreases |ifaces|
  {
    if ifaces == [] then t
    else RemoveAll(if ifaces[0].Typed? then RemoveKind(t, ifaces[0].kind, path) else t, path, ifaces[1..])
  }

  ghost predicate RemovalEvents(t: Tables, path: Path, ifaces: seq<Interface>, events: seq<Event>)
    decreases |ifaces|
  {
    if ifaces == [] then events == []
    else if !ifaces[0].Typed? then RemovalEvents(t, path, ifaces[1..], events)
    else exists n | 0 <= n <= |events| ::
           RemovalBatch(Gone(t, ifaces[0].kind, path), events[..n])
           && RemovalEvents(RemoveKind(t, ifaces[0].kind, path), path, ifaces[1..], events[n..])
  }

  function ClearInvalidated(d: Device, invalidated: set<Property>): Device {
    d.(manufacturerData := if ManufacturerData in invalidated then map[] else d.manufacturerData,
       serviceData := if ServiceData in invalidated then map[] else d.serviceData,
       advertisingData := if AdvertisingData in invalidated then map[] else d.advertisingData,
       advertisingFlags := if AdvertisingFlags in invalidated then [] else d.advertisingFlags)
  }

  function ChangeCharacteristic(c: Characteristic, changed: Properties): Characteristic {
    c.(notifying := FlagOr(changed, Notifying, c.notifying), mtu := WordOr(changed, MTU, c.mtu),
       flags := StringsOr(changed, Flags, c.flags), value := BytesOr(changed, Value, c.value))
  }

  function ChangeDescriptor(d: Descriptor, changed: Properties): Descriptor {
    d.(flags := StringsOr(changed, Flags, d.flags), value := BytesOr(changed, Value, d.value))
  }

  /** `on_properties_changed` on the tables; services have no handler. */
  function ChangeProperties(t: Tables, path: Path, iface: Interface, changed: Properties, invalidated: set<Property>): Tables {
    if iface == Typed(DeviceKind) && path in t.devices then
      t.(devices := t.devices[path := ClearInvalidated(UpdateDevice(t.devices[path], changed), invalidated)])
    else if iface == Typed(CharacteristicKind) && path in t.characteristics then
      t.(characteristics := t.characteristics[path := ChangeCharacteristic(t.characteristics[path], changed)])
    else if iface == Typed(DescriptorKind) && path in t.descriptors then
      t.(descriptors := t.descriptors[path := ChangeDescriptor(t.descriptors[path], changed)])
    else t
  }

  /** The properties whose invalidation the device handler acts on. */
  predicate Clearable(key: Property) { key in {ManufacturerData, ServiceData, AdvertisingData, AdvertisingFlags} }

  function When(condition: bool, e: Event): seq<Event> { if condition then [e] else [] }

  function ChangeEvents(t: Tables, path: Path, iface: Interface, changed: Properties, invalidated: set<Property>): seq<Event> {
    if iface == Typed(DeviceKind) && path in t.devices then
      When(changed != map[] || (exists key | key in invalidated :: Clearable(key)), Changed((DeviceKind, path)))
    else if iface == Typed(CharacteristicKind) && path in t.characteristics then
      When(Notifying in changed || MTU in changed || Flags in changed, Changed((CharacteristicKind, path)))
      + When(Value in changed, ValueChanged((CharacteristicKind, path)))
    else if iface == Typed(DescriptorKind) && path in t.descriptors then
      When(Flags in changed, Changed((DescriptorKind, path))) + When(Value in changed, ValueChanged((DescriptorKind, path)))
    else []
  }

  // ---------------------------------------------------------------- snapshots

  ghost predicate Lists<T(!new)>(order: seq<T>, elements: set<T>) {
    (forall x :: x in elements <==> x in order) && forall i, j | 0 <= i < j < |order| :: order[i] != order[j]
  }

  /** The device itself and everything below it. */
  predicate Concerns(device: Path, path: Path) { path == device || IsChild(device, path) }

  function Concerned(objects: Objects, device: Path): set<Path> { set p | p in objects && Concerns(device, p) }

  /** Cached below the device, but no longer exported at that path at all. */
  predicate Stale(objects: Objects, device: Path, k: Key) {
    k.0 != DeviceKind && IsChild(device, k.1) && k.1 !in objects
  }

  function DropStale(t: Tables, objects: Objects, device: Path): Tables {
    t.(services := map p | p in t.services && !Stale(objects, device, (ServiceKind, p)) :: t.services[p],
       characteristics := map p | p in t.characteristics && !Stale(objects, device, (CharacteristicKind, p)) :: t.characteristics[p],
       descriptors := map p | p in t.descriptors && !Stale(objects, device, (DescriptorKind, p)) :: t.descriptors[p])
  }

  function StaleKeys(t: Tables, objects: Objects, device: Path): set<Key> { set k | k in Keys(t) && Stale(objects, device, k) }

  function ProcessAll(t: Tables, objects: Objects, order: seq<Path>): Tables
    requires forall p | p in order :: p in objects
    decreases |order|
  {
    if order == [] then t else ProcessAll(ProcessObject(t, order[0], objects[order[0]]), objects, order[1..])
  }

  function ProcessAllEvents(t: Tables, objects: Objects, order: seq<Path>): seq<Event>
    requires forall p | p in order :: p in objects
    decreases |order|
  {
    if order == [] then []
    else
      ProcessEvents(t, order[0], objects[order[0]])
      + ProcessAllEvents(ProcessObject(t, order[0], objects[order[0]]), objects, order[1..])
  }
}
