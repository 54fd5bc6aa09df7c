/** Byte budgets of advertising packets: length/type/data structures (Bluetooth Core Specification, Vol 3,
    Part C, section 11). Ordered maps are sequences of their entries. */
module Advertisement {

  const PRIMARY_MAX_BYTES := 31
  const FLAGS_BYTES := 3

  type Bytes = seq<nat>
  datatype Option<+T> = None | Some(value: T)

  /** A structure is a length byte, a type byte and its data; empty data is not sent. */
  function StructureSize(payload: nat): nat { if payload == 0 then 0 else 2 + payload }

  /** Encoded bytes of the structures whose data have these lengths. */
  function PacketBytes(lengths: seq<nat>): nat {
    if lengths == [] then 0 else StructureSize(lengths[0]) + PacketBytes(lengths[1..])
  }

  lemma {:induction false} PacketAppend(a: seq<nat>, b: seq<nat>)
    ensures PacketBytes(a + b) == PacketBytes(a) + PacketBytes(b)
    decreases |a|
  {
    if a == [] { assert a + b == b; } else {
      assert (a + b)[1..] == a[1..] + b;
      PacketAppend(a[1..], b);
    }
  }

  // ---------------------------------------------------------------- UUID widths

  function WithoutDashes(uuid: string): string {
    if uuid == "" then "" else if uuid[0] == '-' then WithoutDashes(uuid[1..]) else [uuid[0]] + WithoutDashes(uuid[1..])
  }

  function UuidSize(uuid: string): (w: nat)
    ensures w in {2, 4, 16}
  {
    if |WithoutDashes(uuid)| == 4 then 2 else if |WithoutDashes(uuid)| == 8 then 4 else 16
  }

  /** The width follows from the number of characters that are not dashes. */
  lemma {:induction false} UuidWidth(uuid: string)
    ensures |WithoutDashes(uuid)| == |uuid| - multiset(uuid)['-']
    ensures UuidSize(uuid) == 2 <==> |uuid| - multiset(uuid)['-'] == 4
    ensures UuidSize(uuid) == 4 <==> |uuid| - multiset(uuid)['-'] == 8
    decreases |uuid|
  {
    if uuid != "" {
      UuidWidth(uuid[1..]);
      assert uuid == [uuid[0]] + uuid[1..];
    }
  }

  method CompactUuidSize(uuid: string) returns (w: nat)
    ensures w == UuidSize(uuid)
  {
    var compact := "";
    var i := 0;
    while i < |uuid|
      invariant 0 <= i <= |uuid| && compact + WithoutDashes(uuid[i..]) == WithoutDashes(uuid)
    {
      assert uuid[i..][0] == uuid[i] && uuid[i..][1..] == uuid[i + 1..];
      if uuid[i] != '-' { compact := compact + [uuid[i]]; }
      i := i + 1;
    }
    assert uuid[i..] == "";
    w := if |compact| == 4 then 2 else if |compact| == 8 then 4 else 16;
  }

  /** Bytes of the UUIDs of one width. */
  function WidthBytes(uuids: seq<string>, width: nat): nat {
    if uuids == [] then 0 else (if UuidSize(uuids[0]) == width then width else 0) + WidthBytes(uuids[1..], width)
  }

  /** The UUID lists as sent: one structure per width. */
  function UuidLists(uuids: seq<string>): seq<nat> { [WidthBytes(uuids, 2), WidthBytes(uuids, 4), WidthBytes(uuids, 16)] }

  /** Bytes of all UUIDs, headers apart. */
  function UuidBytes(uuids: seq<string>): nat {
    if uuids == [] then 0 else UuidSize(uuids[0]) + UuidBytes(uuids[1..])
  }

  /** How many different widths occur. */
  function Widths(uuids: seq<string>): nat {
    (if WidthBytes(uuids, 2) > 0 then 1 else 0) + (if WidthBytes(uuids, 4) > 0 then 1 else 0) + (if WidthBytes(uuids, 16) > 0 then 1 else 0)
  }

  lemma {:induction false} WidthsSum(uuids: seq<string>)
    ensures UuidBytes(uuids) == WidthBytes(uuids, 2) + WidthBytes(uuids, 4) + WidthBytes(uuids, 16)
    decreases |uuids|
  {
    if uuids != [] { WidthsSum(uuids[1..]); }
  }

  lemma ThreeStructures(a: nat, b: nat, c: nat)
    ensures PacketBytes([a, b, c]) == StructureSize(a) + StructureSize(b) + StructureSize(c)
  {
    assert [a, b, c][1..] == [b, c] && [b, c][1..] == [c] && [c][1..] == [];
    assert PacketBytes([c]) == StructureSize(c) && PacketBytes([b, c]) == StructureSize(b) + PacketBytes([c]);
  }

  /** Each width that occurs costs one two-byte header. */
  lemma ListsCostHeaders(uuids: seq<string>)
    ensures PacketBytes(UuidLists(uuids)) == UuidBytes(uuids) + 2 * Widths(uuids)
    ensures Widths(uuids) <= 3 && (uuids != [] ==> Widths(uuids) >= 1)
  {
    WidthsSum(uuids);
    ThreeStructures(WidthBytes(uuids, 2), WidthBytes(uuids, 4), WidthBytes(uuids, 16));
    if uuids != [] { assert UuidBytes(uuids) >= 2; }
  }

  lemma {:induction false} WidthAppend(a: seq<string>, uuid: string, width: nat)
    ensures WidthBytes(a + [uuid], width) == WidthBytes(a, width) + (if UuidSize(uuid) == width then width else 0)
    decreases |a|
  {
    if a == [] {
      assert a + [uuid] == [uuid] && [uuid][1..] == [];
    } else {
      assert (a + [uuid])[1..] == a[1..] + [uuid];
      WidthAppend(a[1..], uuid, width);
    }
  }

  method UuidListSize(uuids: seq<string>) returns (total: nat)
    ensures total == PacketBytes(UuidLists(uuids))
  {
    var short, medium, long := 0, 0, 0;
    var i := 0;
    while i < |uuids|
      invariant 0 <= i <= |uuids|
      invariant short == WidthBytes(uuids[..i], 2) && medium == WidthBytes(uuids[..i], 4) && long == WidthBytes(uuids[..i], 16)
    {
      assert uuids[..i + 1] == uuids[..i] + [uuids[i]];
      WidthAppend(uuids[..i], uuids[i], 2);
      WidthAppend(uuids[..i], uuids[i], 4);
      WidthAppend(uuids[..i], uuids[i], 16);
      var w := CompactUuidSize(uuids[i]);
      if w == 2 { short := short + 2; } else if w == 4 { medium := medium + 4; } else { long := long + 16; }
      i := i + 1;
    }
    assert uuids[..i] == uuids;
    ThreeStructures(short, medium, long);
    total := StructureSize(short) + StructureSize(medium) + StructureSize(long);
  }

  // ---------------------------------------------------------------- what competes for the packet

  datatype Raw = Raw(kind: nat, data: Bytes)
  datatype Manufacturer = Manufacturer(company: nat, data: Bytes)
  datatype ServiceData = ServiceData(uuid: string, data: Bytes)
  datatype Config = Config(solicit: seq<string>, manufacturers: seq<Manufacturer>, services: seq<ServiceData>,
                           includes: seq<string>, hasAppearance: bool)

  function RawLengths(data: seq<Raw>): seq<nat> { seq(|data|, i requires 0 <= i < |data| => |data[i].data|) }

  function ManufacturerLengths(data: seq<Manufacturer>): seq<nat> { seq(|data|, i requires 0 <= i < |data| => 2 + |data[i].data|) }

  function ServiceLengths(data: seq<ServiceData>): seq<nat> {
    seq(|data|, i requires 0 <= i < |data| => UuidSize(data[i].uuid) + |data[i].data|)
  }

  /** The structures a configuration puts into the packet besides flags, name and service UUIDs. */
  function Fixed(cfg: Config, data: seq<Raw>): seq<nat> {
    UuidLists(cfg.solicit) + ManufacturerLengths(cfg.manufacturers) + ServiceLengths(cfg.services) + RawLengths(data)
    + (if "tx-power" in cfg.includes then [1] else [])
    + (if cfg.hasAppearance || "appearance" in cfg.includes then [2] else [])
  }

  /** `estimate_user_data_competing_advertisement_bytes`: flags only when the packet is a legacy one. */
  function CompetingStructures(cfg: Config, data: seq<Raw>, flags: bool): seq<nat> { (if flags then [1] else []) + Fixed(cfg, data) }

  /** `estimate_primary_advertisement_bytes`: flags always, the name if it goes into the primary packet. */
  function PrimaryStructures(name: string, cfg: Config, data: seq<Raw>, nameInPrimary: bool): seq<nat> {
    [1] + (if nameInPrimary then [|name|] else []) + Fixed(cfg, data)
  }

  method SumStructures(lengths: seq<nat>) returns (total: nat)
    ensures total == PacketBytes(lengths)
  {
    total := 0;
    var i := 0;
    while i < |lengths|
      invariant 0 <= i <= |lengths| && total + PacketBytes(lengths[i..]) == PacketBytes(lengths)
    {
      assert lengths[i..][1..] == lengths[i + 1..];
      total := total + StructureSize(lengths[i]);
      i := i + 1;
    }
  }

  lemma OneStructure(n: nat)
    ensures PacketBytes([n]) == StructureSize(n)
  {
    assert [n][1..] == [];
  }

  lemma FixedSum(cfg: Config, data: seq<Raw>)
    ensures PacketBytes(Fixed(cfg, data))
            == PacketBytes(UuidLists(cfg.solicit)) + PacketBytes(ManufacturerLengths(cfg.manufacturers))
               + PacketBytes(ServiceLengths(cfg.services)) + PacketBytes(RawLengths(data))
               + (if "tx-power" in cfg.includes then StructureSize(1) else 0)
               + (if cfg.hasAppearance || "appearance" in cfg.includes then StructureSize(2) else 0)
  {
    var u, m, s, d := UuidLists(cfg.solicit), ManufacturerLengths(cfg.manufacturers), ServiceLengths(cfg.services), RawLengths(data);
    var t := if "tx-power" in cfg.includes then [1] else [];
    var a := if cfg.hasAppearance || "appearance" in cfg.includes then [2] else [];
    PacketAppend(u + m + s + d + t, a);
    PacketAppend(u + m + s + d, t);
    PacketAppend(u + m + s, d);
    PacketAppend(u + m, s);
    PacketAppend(u, m);
    OneStructure(1);
    OneStructure(2);
  }

  /** Two bytes of header and two of company identifier for each entry. */
  function ManufacturerCost(data: seq<Manufacturer>): nat {
    if data == [] then 0 else 4 + |data[0].data| + ManufacturerCost(data[1..])
  }

  /** Two bytes of header and the compressed UUID for each entry. */
  function ServiceCost(data: seq<ServiceData>): nat {
    if data == [] then 0 else 2 + UuidSize(data[0].uuid) + |data[0].data| + ServiceCost(data[1..])
  }

  /** An empty raw entry is not sent. */
  function RawCost(data: seq<Raw>): nat {
    if data == [] then 0 else (if data[0].data == [] then 0 else 2 + |data[0].data|) + RawCost(data[1..])
  }

  lemma {:induction false} ManufacturersCost(data: seq<Manufacturer>)
    ensures PacketBytes(ManufacturerLengths(data)) == ManufacturerCost(data)
    decreases |data|
  {
    if data != [] {
      ManufacturersCost(data[1..]);
      assert ManufacturerLengths(data)[1..] == ManufacturerLengths(data[1..]);
    }
  }

  lemma {:induction false} ServicesCost(data: seq<ServiceData>)
    ensures PacketBytes(ServiceLengths(data)) == ServiceCost(data)
    decreases |data|
  {
    if data != [] {
      ServicesCost(data[1..]);
      assert ServiceLengths(data)[1..] == ServiceLengths(data[1..]);
    }
  }

  lemma {:induction false} RawsCost(data: seq<Raw>)
    ensures PacketBytes(RawLengths(data)) == RawCost(data)
    decreases |data|
  {
    if data != [] {
      RawsCost(data[1..]);
      assert RawLengths(data)[1..] == RawLengths(data[1..]);
    }
  }

  /** Bytes a configuration takes, entry by entry: four to head each manufacturer entry, two and the UUID to head
      each service entry, two each other structure, and none for what is empty. */
  function FixedCost(cfg: Config, data: seq<Raw>): nat {
    UuidBytes(cfg.solicit) + 2 * Widths(cfg.solicit)
    + ManufacturerCost(cfg.manufacturers) + ServiceCost(cfg.services) + RawCost(data)
    + (if "tx-power" in cfg.includes then 3 else 0)
    + (if cfg.hasAppearance || "appearance" in cfg.includes then 4 else 0)
  }

  lemma FixedCosts(cfg: Config, data: seq<Raw>)
    ensures PacketBytes(Fixed(cfg, data)) == FixedCost(cfg, data)
  {
    FixedSum(cfg, data);
    ListsCostHeaders(cfg.solicit);
    ManufacturersCost(cfg.manufacturers);
    ServicesCost(cfg.services);
    RawsCost(data);
  }

  method EstimateFixed(cfg: Config, data: seq<Raw>) returns (total: nat)
    ensures total == PacketBytes(Fixed(cfg, data))
  {
    var solicit := UuidListSize(cfg.solicit);
    var manufacturers := SumStructures(ManufacturerLengths(cfg.manufacturers));
    var services := SumStructures(ServiceLengths(cfg.services));
    var raw := SumStructures(RawLengths(data));
    total := solicit + manufacturers + services + raw;
    if "tx-power" in cfg.includes { total := total + StructureSize(1); }
    if cfg.hasAppearance || "appearance" in cfg.includes { total := total + StructureSize(2); }
    FixedSum(cfg, data);
  }

  method EstimateCompeting(cfg: Config, data: seq<Raw>, reserveFlags: bool) returns (total: nat)
    ensures total == PacketBytes(CompetingStructures(cfg, data, reserveFlags))
    ensures total == (if reserveFlags then 3 else 0) + FixedCost(cfg, data)
  {
    FixedCosts(cfg, data);
    total := EstimateFixed(cfg, data);
    if reserveFlags { total := total + FLAGS_BYTES; }
    PacketAppend(if reserveFlags then [1] else [], Fixed(cfg, data));
    OneStructure(1);
  }

  method EstimatePrimary(name: string, cfg: Config, data: seq<Raw>, nameInPrimary: bool) returns (total: nat)
    ensures total == PacketBytes(PrimaryStructures(name, cfg, data, nameInPrimary))
    ensures total == 3 + (if nameInPrimary && name != "" then 2 + |name| else 0) + FixedCost(cfg, data)
  {
    FixedCosts(cfg, data);
    total := EstimateFixed(cfg, data);
    total := total + FLAGS_BYTES;
    if nameInPrimary && name != "" { total := total + StructureSize(|name|); }
    PacketAppend([1] + (if nameInPrimary then [|name|] else []), Fixed(cfg, data));
    PacketAppend([1], if nameInPrimary then [|name|] else []);
    OneStructure(1);
    OneStructure(|name|);
  }

  // ---------------------------------------------------------------- user data

  /** Raw entries other than the user-data type. */
  function WithoutKind(data: seq<Raw>, kind: nat): seq<Raw> {
    if data == [] then []
    else if data[0].kind == kind then WithoutKind(data[1..], kind)
    else [data[0]] + WithoutKind(data[1..], kind)
  }

  /** Exactly the entries of that type are left out. */
  lemma {:induction false} ErasedKind(data: seq<Raw>, kind: nat, entry: Raw)
    ensures multiset(WithoutKind(data, kind))[entry] == if entry.kind == kind then 0 else multiset(data)[entry]
    decreases |data|
  {
    if data != [] {
      ErasedKind(data[1..], kind, entry);
      assert data == [data[0]] + data[1..];
    }
  }

  /** User data is cut to the longest prefix whose structure fits beside the competing ones, and dropped
      exactly when not even one byte fits. */
  method ConstrainExtraPayload(payload: Bytes, cfg: Config, data: seq<Raw>, kind: nat, limit: nat) returns (kept: Option<Bytes>, budget: nat)
    ensures var fixedBytes := PacketBytes(CompetingStructures(cfg, WithoutKind(data, kind), limit <= PRIMARY_MAX_BYTES));
            && (kept.None? <==> fixedBytes + StructureSize(1) > limit)
            && (kept.Some? ==>
                  && kept.value <= payload && |kept.value| <= budget
                  && fixedBytes + StructureSize(|kept.value|) <= limit
                  && (|kept.value| < |payload| ==> fixedBytes + StructureSize(|kept.value| + 1) > limit))
  {
    var others := WithoutKind(data, kind);
    var fixedBytes := EstimateCompeting(cfg, others, limit <= PRIMARY_MAX_BYTES);
    budget := if fixedBytes + 2 >= limit then 0 else limit - fixedBytes - 2;
    if budget == 0 { return None, budget; }
    if |payload| <= budget { return Some(payload), budget; }
    kept := Some(payload[..budget]);
  }

  // ---------------------------------------------------------------- service UUIDs

  lemma {:induction false} UuidAppend(a: seq<string>, uuid: string)
    ensures UuidBytes(a + [uuid]) == UuidBytes(a) + UuidSize(uuid)
    decreases |a|
  {
    if a == [] {
      assert a + [uuid] == [uuid] && [uuid][1..] == [];
    } else {
      assert (a + [uuid])[1..] == a[1..] + [uuid];
      UuidAppend(a[1..], uuid);
    }
  }

  lemma {:induction false} PrefixGrows(uuids: seq<string>, i: nat, j: nat)
    requires i <= j <= |uuids|
    ensures UuidBytes(uuids[..i]) <= UuidBytes(uuids[..j])
    decreases j - i
  {
    if i < j {
      assert uuids[..j] == uuids[..j - 1] + [uuids[j - 1]];
      UuidAppend(uuids[..j - 1], uuids[j - 1]);
      PrefixGrows(uuids, i, j - 1);
    }
  }

  /** A prefix of `uuids` fits the payload budget exactly up to length `n`. */
  ghost predicate LongestPrefix(uuids: seq<string>, budget: nat, n: nat) {
    n <= |uuids| && forall j | 0 <= j <= |uuids| :: UuidBytes(uuids[..j]) <= budget <==> j <= n
  }

  /** Selection keeps the longest ordered prefix within the budget. */
  method SelectServiceUuids(uuids: seq<string>, budget: nat) returns (advertised: seq<string>)
    ensures advertised <= uuids && LongestPrefix(uuids, budget, |advertised|)
  {
    advertised := [];
    var used := 0;
    var i := 0;
    if budget == 0 {
      if uuids != [] { Overflows(uuids, budget, 0); } else { assert uuids[..0] == []; }
      return;
    }
    while i < |uuids|
      invariant 0 <= i <= |uuids| && advertised == uuids[..i]
      invariant used == UuidBytes(advertised) && used <= budget
    {
      assert uuids[..i + 1] == uuids[..i] + [uuids[i]];
      UuidAppend(uuids[..i], uuids[i]);
      var size := CompactUuidSize(uuids[i]);
      if used + size > budget {
        Overflows(uuids, budget, i);
        return;
      }
      advertised := advertised + [uuids[i]];
      used := used + size;
      i := i + 1;
    }
    forall j | 0 <= j <= |uuids| ensures UuidBytes(uuids[..j]) <= budget { PrefixGrows(uuids, j, |uuids|); }
  }

  lemma Overflows(uuids: seq<string>, budget: nat, n: nat)
    requires n < |uuids| && UuidBytes(uuids[..n]) <= budget && UuidBytes(uuids[..n]) + UuidSize(uuids[n]) > budget
    ensures LongestPrefix(uuids, budget, n)
  {
    assert uuids[..n + 1] == uuids[..n] + [uuids[n]];
    UuidAppend(uuids[..n], uuids[n]);
    forall j | 0 <= j <= |uuids| ensures UuidBytes(uuids[..j]) <= budget <==> j <= n {
      if j <= n { PrefixGrows(uuids, j, n); } else { PrefixGrows(uuids, n + 1, j); }
    }
  }

  /** The payload budget left for UUIDs once one list header is reserved. */
  function UuidBudget(estimate: nat, limit: nat): nat { if estimate + 2 >= limit then 0 else limit - estimate - 2 }

  /** A nonempty selection stays within the limit for one width and exceeds it by at most two bytes for
      each further width, four in all: only one of up to three list headers is reserved. */
  lemma SelectionWithinLimit(estimate: nat, limit: nat, selected: seq<string>)
    requires selected != [] && UuidBytes(selected) <= UuidBudget(estimate, limit)
    ensures estimate + PacketBytes(UuidLists(selected)) <= limit + 2 * (Widths(selected) - 1)
    ensures Widths(selected) == 1 ==> estimate + PacketBytes(UuidLists(selected)) <= limit
    ensures estimate + PacketBytes(UuidLists(selected)) <= limit + 4
  {
    ListsCostHeaders(selected);
    assert UuidBytes(selected) > 0;
  }

  /** A nonempty selection exceeds the limit exactly when the headers that were not reserved need more than it
      left of its budget. */
  lemma ExceedsLimitIff(estimate: nat, limit: nat, selected: seq<string>)
    requires selected != [] && UuidBytes(selected) <= UuidBudget(estimate, limit)
    ensures estimate + PacketBytes(UuidLists(selected)) > limit
            <==> 2 * (Widths(selected) - 1) > UuidBudget(estimate, limit) - UuidBytes(selected)
  {
    ListsCostHeaders(selected);
    assert UuidBytes(selected) > 0;
  }

  /** The four bytes are reached: one UUID of each width with an exactly full budget, in this order. */
  lemma MixedWidthsExceedByFour(estimate: nat, a: string, b: string, c: string)
    requires UuidSize(a) == 2 && UuidSize(b) == 4 && UuidSize(c) == 16
    ensures var selected := [a, b, c]; var limit := estimate + 24;
            && LongestPrefix(selected, UuidBudget(estimate, limit), 3)
            && estimate + PacketBytes(UuidLists(selected)) == limit + 4
  {
    var selected := [a, b, c];
    assert selected[1..] == [b, c] && [b, c][1..] == [c] && [c][1..] == [];
    assert UuidBytes([c]) == 16;
    assert UuidBytes([b, c]) == UuidSize(b) + UuidBytes([c]);
    assert UuidBytes(selected) == UuidSize(a) + UuidBytes([b, c]) == 22;
    OneOfEach(a, b, c);
    ListsCostHeaders(selected);
    assert selected[..3] == selected;
    forall j | 0 <= j <= 3 ensures UuidBytes(selected[..j]) <= 22 { PrefixGrows(selected, j, 3); }
  }

  lemma OneOfEach(a: string, b: string, c: string)
    requires UuidSize(a) == 2 && UuidSize(b) == 4 && UuidSize(c) == 16
    ensures Widths([a, b, c]) == 3
  {
    assert [a, b, c][1..] == [b, c] && [b, c][1..] == [c] && [c][1..] == [];
    assert WidthBytes([c], 16) == 16 && WidthBytes([b, c], 16) == 16 && WidthBytes([b, c], 4) >= 4;
    assert WidthBytes([a, b, c], 4) == WidthBytes([b, c], 4) && WidthBytes([a, b, c], 16) == WidthBytes([b, c], 16);
  }
}
