/** The decoder, given only the payload size, finds the element count and the ordered leaf list of the
    encoder. */
module LayoutTheorems {
  import opened BridgeLayout

  ghost predicate Indexed(specs: seq<Spec>, entries: seq<Entry>) { forall e | e in entries :: e.spec < |specs| }

  lemma {:induction false} LengthAppend(specs: seq<Spec>, a: seq<Entry>, b: seq<Entry>)
    requires Indexed(specs, a) && Indexed(specs, b)
    ensures Indexed(specs, a + b) && Length(specs, a + b) == Length(specs, a) + Length(specs, b)
    decreases |a|
  {
    if a == [] { assert a + b == b; } else {
      assert (a + b)[1..] == a[1..] + b;
      LengthAppend(specs, a[1..], b);
    }
  }

  lemma {:induction false} LengthEntries(specs: seq<Spec>, k: nat, places: seq<Place>)
    requires k < |specs|
    ensures Indexed(specs, Entries(k, places)) && Length(specs, Entries(k, places)) == |places| * specs[k].width
    decreases |places|
  {
    if places != [] {
      assert Entries(k, places)[1..] == Entries(k, places[1..]);
      LengthEntries(specs, k, places[1..]);
      assert |places| * specs[k].width == specs[k].width + (|places| - 1) * specs[k].width;
    }
  }

  /** Leaves the encoder collected for member `k`. */
  function Leaves(members: seq<Member>, v: Value, spec: Spec): nat
    requires spec.Target? ==> spec.path != []
  {
    if spec.Computed? then 1
    else match Collect(members, v, spec.path, []) case Error => 0 case Ok(places) => |places|
  }

  /** What the encoder adds for member `k`. */
  function Mine(members: seq<Member>, v: Value, specs: seq<Spec>, k: nat): Result<seq<Entry>>
    requires Usable(specs) && k < |specs|
  {
    match specs[k]
    case Computed(_) => Ok([Unbound(k)])
    case Target(path, _) => match Collect(members, v, path, []) case Error => Error case Ok(places) => Ok(Entries(k, places))
  }

  lemma MineLength(members: seq<Member>, v: Value, specs: seq<Spec>, k: nat)
    requires Usable(specs) && k < |specs| && Mine(members, v, specs, k).Ok?
    ensures var mine := Mine(members, v, specs, k).value;
            Indexed(specs, mine) && Length(specs, mine) == Leaves(members, v, specs[k]) * specs[k].width
  {
    match specs[k]
    case Computed(_) => assert Length(specs, [Unbound(k)]) == specs[k].width + Length(specs, [Unbound(k)][1..]);
    case Target(path, _) => LengthEntries(specs, k, Collect(members, v, path, []).value);
  }

  lemma {:induction false} EncodedIndexed(members: seq<Member>, v: Value, specs: seq<Spec>, k: nat)
    requires Usable(specs) && k <= |specs| && EncodeFrom(members, v, specs, k).Ok?
    ensures Indexed(specs, EncodeFrom(members, v, specs, k).value)
    decreases |specs| - k
  {
    if k < |specs| {
      EncodedIndexed(members, v, specs, k + 1);
      MineLength(members, v, specs, k);
    }
  }

  /** `selection_count_for_path` equals the number of bindings collected, unless it is open-ended. */
  lemma CountIsLeaves(members: seq<Member>, v: Value, spec: Spec, c: Count)
    requires spec.Target? && spec.path != [] && Conforms(members, v)
    requires SelectionCount(members, spec.path) == Ok(c) && Collect(members, v, spec.path, []).Ok?
    ensures c.Exactly? ==> c.n == Leaves(members, v, spec)
    ensures forall sizes :: (var bound := Bind(members, sizes, spec.path, [], GivenCount(c, Leaves(members, v, spec)));
              bound.Ok? && bound.value.places == Collect(members, v, spec.path, []).value)
  {
    forall sizes ensures (var bound := Bind(members, sizes, spec.path, [], GivenCount(c, Leaves(members, v, spec)));
              bound.Ok? && bound.value.places == Collect(members, v, spec.path, []).value)
    {
      PathAgrees(members, v, spec.path, [], sizes, c);
    }
    PathAgrees(members, v, spec.path, [], map[], c);
  }

  /** Bytes the encoder spends on the members from `k` on: the counted ones and the open-ended one. */
  function OpenBytes(members: seq<Member>, v: Value, specs: seq<Spec>, plan: Plan, k: nat): nat
    requires Usable(specs)
  {
    if plan.open.Ok? && k <= plan.open.value < |specs|
    then Leaves(members, v, specs[plan.open.value]) * specs[plan.open.value].width else 0
  }

  /** The plan after member `k` alone. */
  function PlanNext(members: seq<Member>, specs: seq<Spec>, k: nat, before: Plan): Plan
    requires Usable(specs) && k < |specs| && SpecCount(members, specs[k]).Ok?
  {
    var c := SpecCount(members, specs[k]).value;
    if c.Unbounded? then before.(open := Ok(k)) else before.(fixedBytes := before.fixedBytes + c.n * specs[k].width)
  }

  /** The bytes of member `k` are either planned as fixed or the open-ended member's. */
  lemma MinePlanned(members: seq<Member>, v: Value, specs: seq<Spec>, k: nat, before: Plan)
    requires Usable(specs) && k < |specs| && Conforms(members, v) && Mine(members, v, specs, k).Ok? && SpecCount(members, specs[k]).Ok?
    ensures Indexed(specs, Mine(members, v, specs, k).value)
    ensures before.fixedBytes + Length(specs, Mine(members, v, specs, k).value)
            == PlanNext(members, specs, k, before).fixedBytes
               + (if SpecCount(members, specs[k]).value.Unbounded? then Leaves(members, v, specs[k]) * specs[k].width else 0)
  {
    MineLength(members, v, specs, k);
    if specs[k].Target? { CountIsLeaves(members, v, specs[k], SpecCount(members, specs[k]).value); }
  }

  lemma {:induction false} LengthIsPlanned(members: seq<Member>, v: Value, specs: seq<Spec>, k: nat, before: Plan)
    requires Usable(specs) && k <= |specs| && Conforms(members, v) && (before.open.Ok? ==> before.open.value < k)
    requires EncodeFrom(members, v, specs, k).Ok? && PlanFrom(members, specs, k, before).Ok?
    ensures Indexed(specs, EncodeFrom(members, v, specs, k).value)
    ensures var plan := PlanFrom(members, specs, k, before).value;
            before.fixedBytes + Length(specs, EncodeFrom(members, v, specs, k).value)
            == plan.fixedBytes + OpenBytes(members, v, specs, plan, k)
    decreases |specs| - k
  {
    EncodedIndexed(members, v, specs, k);
    OpenInRange(members, specs, k, before);
    if k < |specs| {
      EncodedIndexed(members, v, specs, k + 1);
      MinePlanned(members, v, specs, k, before);
      LengthAppend(specs, Mine(members, v, specs, k).value, EncodeFrom(members, v, specs, k + 1).value);
      var next := PlanNext(members, specs, k, before);
      OpenInRange(members, specs, k + 1, next);
      LengthIsPlanned(members, v, specs, k + 1, next);
    }
  }

  /** The count the decoder should infer. */
  function TrueCount(members: seq<Member>, v: Value, specs: seq<Spec>, plan: Plan): Result<nat>
    requires Usable(specs) && (plan.open.Ok? ==> plan.open.value < |specs|)
  {
    if plan.open.Ok? then Ok(Leaves(members, v, specs[plan.open.value])) else Error
  }

  /** A payload of the encoded length recovers the exact dynamic element count. */
  lemma RecoversCount(members: seq<Member>, v: Value, specs: seq<Spec>, plan: Plan, size: nat)
    requires Usable(specs) && (plan.open.Ok? ==> plan.open.value < |specs|)
    requires size == plan.fixedBytes + OpenBytes(members, v, specs, plan, 0)
    ensures InferCount(specs, plan, size) == Counted(TrueCount(members, v, specs, plan))
  {
    if plan.open.Ok? {
      var n, w := Leaves(members, v, specs[plan.open.value]), specs[plan.open.value].width;
      QuotientIs(n * w, w, n, 0);
    }
  }

  /** Bytes of a payload with `count` elements of the open-ended member, if there is one. */
  function PayloadSize(specs: seq<Spec>, plan: Plan, count: Result<nat>): nat
    requires plan.open.Ok? ==> plan.open.value < |specs|
  {
    plan.fixedBytes + (if count.Ok? && plan.open.Ok? then count.value * specs[plan.open.value].width else 0)
  }

  /** Inference is exact: a size is accepted with `count` elements exactly when it is the fixed bytes and that
      many elements, and without an open-ended member exactly when it is the fixed bytes. */
  lemma InferredIff(specs: seq<Spec>, plan: Plan, size: nat, count: Result<nat>)
    requires plan.open.Ok? ==> plan.open.value < |specs|
    ensures InferCount(specs, plan, size) == Counted(count)
            <==> (count.Ok? <==> plan.open.Ok?) && size == PayloadSize(specs, plan, count)
  {
    if plan.open.Ok? && count.Ok? {
      var w := specs[plan.open.value].width;
      if size >= plan.fixedBytes { DivMod(size - plan.fixedBytes, w); }
      if size == plan.fixedBytes + count.value * w { QuotientIs(size - plan.fixedBytes, w, count.value, 0); }
    }
  }

  lemma {:induction false} PlannedOpen(members: seq<Member>, specs: seq<Spec>, k: nat, before: Plan, j: nat)
    requires Usable(specs) && k <= j < |specs| && PlanFrom(members, specs, k, before).Ok? && (before.open.Ok? ==> before.open.value < k)
    ensures SpecCount(members, specs[j]).Ok?
    ensures SpecCount(members, specs[j]).value.Unbounded? <==> PlanFrom(members, specs, k, before).value.open == Ok(j)
    decreases j - k
  {
    var c := SpecCount(members, specs[k]).value;
    var next := if c.Unbounded? then before.(open := Ok(k)) else before.(fixedBytes := before.fixedBytes + c.n * specs[k].width);
    OpenInRange(members, specs, k + 1, next);
    if k < j { PlannedOpen(members, specs, k + 1, next, j); }
  }

  lemma {:induction false} EntriesRecovered(members: seq<Member>, v: Value, specs: seq<Spec>, plan: Plan, sizes: Sizes, k: nat)
    requires Usable(specs) && k <= |specs| && Conforms(members, v) && PlanFrom(members, specs, 0, NO_PLAN) == Ok(plan)
    requires EncodeFrom(members, v, specs, k).Ok? && (plan.open.Ok? ==> plan.open.value < |specs|)
    ensures var r := DecodeFrom(members, specs, plan, TrueCount(members, v, specs, plan), sizes, k);
            r.Ok? && r.value.entries == EncodeFrom(members, v, specs, k).value
    decreases |specs| - k
  {
    if k < |specs| {
      PlannedOpen(members, specs, 0, NO_PLAN, k);
      match specs[k]
      case Computed(_) => EntriesRecovered(members, v, specs, plan, sizes, k + 1);
      case Target(path, _) =>
        var c := SpecCount(members, specs[k]).value;
        CountIsLeaves(members, v, specs[k], c);
        var count := CountFor(plan, TrueCount(members, v, specs, plan), k);
        assert count == GivenCount(c, Leaves(members, v, specs[k]));
        EntriesRecovered(members, v, specs, plan, Bind(members, sizes, path, [], count).value.sizes, k + 1);
    }
  }

  /** Layout agreement: whenever the encoder accepts a message and the decoder accepts the configuration,
      decoding a payload of the encoded length binds the same ordered list of (member, place), so every
      leaf is written back where it was read. */
  lemma LayoutAgrees(members: seq<Member>, v: Value, specs: seq<Spec>)
    requires Usable(specs) && Conforms(members, v)
    requires EncodeFrom(members, v, specs, 0).Ok? && PlanFrom(members, specs, 0, NO_PLAN).Ok?
    ensures Indexed(specs, EncodeFrom(members, v, specs, 0).value)
    ensures var entries := EncodeFrom(members, v, specs, 0).value; var r := Decode(members, specs, Length(specs, entries));
            r.Ok? && r.value.entries == entries
  {
    var plan := PlanFrom(members, specs, 0, NO_PLAN).value;
    OpenInRange(members, specs, 0, NO_PLAN);
    LengthIsPlanned(members, v, specs, 0, NO_PLAN);
    RecoversCount(members, v, specs, plan, Length(specs, EncodeFrom(members, v, specs, 0).value));
    EntriesRecovered(members, v, specs, plan, map[], 0);
  }

  // ---------------------------------------------------------------- the destination holds every bound leaf

  ghost predicate Grown(before: Sizes, after: Sizes) { forall at | at in before :: at in after && after[at] >= before[at] }

  /** The location `hops`, starting at `at`, exists in a destination with these array sizes. */
  ghost predicate Reaches(members: seq<Member>, sizes: Sizes, at: Place, hops: seq<Hop>)
    decreases |hops|
  {
    hops == [] ||
    match FindMember(members, hops[0].name)
    case Error => false
    case Ok(m) =>
      && (hops[0].Element? ==> !m.shape.Single? && hops[0].index < SizeAt(m, sizes, at + [Field(m.name)]))
      && (hops[0].Field? ==> m.shape.Single?)
      && (|hops| > 1 ==> m.nested.Message? && Reaches(m.nested.members, sizes, at + [hops[0]], hops[1..]))
  }

  lemma {:induction false} ReachesMore(members: seq<Member>, before: Sizes, after: Sizes, at: Place, hops: seq<Hop>)
    requires Reaches(members, before, at, hops) && Grown(before, after)
    ensures Reaches(members, after, at, hops)
    decreases |hops|
  {
    if |hops| > 1 {
      var m := FindMember(members, hops[0].name).value;
      ReachesMore(m.nested.members, before, after, at + [hops[0]], hops[1..]);
    }
  }

  ghost predicate Below(members: seq<Member>, sizes: Sizes, at: Place, place: Place) {
    |place| > |at| && place[..|at|] == at && Reaches(members, sizes, at, place[|at|..])
  }

  lemma NonNegative(a: nat, b: nat)
    ensures a * b >= 0
  {}

  lemma StrideBelow(start: nat, count: nat, step: Step, i: nat)
    requires i < count
    ensures start + i * step <= start + (count - 1) * step
  {
    NonNegative(count - 1 - i, step);
    assert (count - 1) * step == i * step + (count - 1 - i) * step;
  }

  /** Every selected index fits the destination array after it grew. */
  lemma SelectedFit(m: Member, s: Segment, last: bool, sizes: Sizes, field: Place, count: Result<nat>, i: nat)
    requires !m.shape.Single? && DestinationIndices(m, s, last, SizeAt(m, sizes, field), count).Ok?
    requires i in DestinationIndices(m, s, last, SizeAt(m, sizes, field), count).value
    ensures var grown := if m.shape.Dynamic? then Grow(sizes, field, RequiredSize(s, count)) else sizes;
            Grown(sizes, grown) && i < SizeAt(m, grown, field)
  {
    var size := SizeAt(m, sizes, field);
    match s.selector
    case At(_) =>
    case Slice(start, Until(stop), step) => RangeBelow(start, stop, step);
    case Slice(start, Open, step) =>
      if count.Ok? {
        var k :| 0 <= k < count.value && i == start + k * step;
        StrideBelow(start, count.value, step, k);
      } else {
        RangeIsStride(start, size, step);
        RangeBelow(start, size, step);
      }
    case NoSelector => RangeBelow(0, if count.Ok? then count.value else size, 1);
  }

  lemma GrowGrows(sizes: Sizes, at: Place, required: nat)
    ensures Grown(sizes, Grow(sizes, at, required))
  {}

  lemma {:induction false} BindReaches(members: seq<Member>, sizes: Sizes, path: seq<Segment>, at: Place, count: Result<nat>)
    requires path != [] && Bind(members, sizes, path, at, count).Ok?
    ensures var bound := Bind(members, sizes, path, at, count).value;
            Grown(sizes, bound.sizes) && forall p | p in bound.places :: Below(members, bound.sizes, at, p)
    decreases |path|, 1
  {
    var bound := Bind(members, sizes, path, at, count).value;
    var m := FindMember(members, path[0].name).value;
    var last := |path| == 1;
    var field := at + [Field(m.name)];
    if m.shape.Single? {
      if last {
        assert field[|at|..] == [Field(m.name)];
      } else {
        BindReaches(m.nested.members, sizes, path[1..], field, count);
        forall p | p in bound.places ensures Below(members, bound.sizes, at, p) { OneHopMore(members, bound.sizes, at, Field(m.name), p); }
      }
    } else {
      var indices := DestinationIndices(m, path[0], last, SizeAt(m, sizes, field), count).value;
      var grown := if m.shape.Dynamic? then Grow(sizes, field, RequiredSize(path[0], count)) else sizes;
      GrowGrows(sizes, field, RequiredSize(path[0], count));
      forall i | i in indices ensures i < SizeAt(m, grown, field) { SelectedFit(m, path[0], last, sizes, field, count, i); }
      ElementsReach(members, m, grown, indices, path, at, count);
    }
  }

  lemma OneHopMore(members: seq<Member>, sizes: Sizes, at: Place, hop: Hop, p: Place)
    requires FindMember(members, hop.name).Ok?
    requires var m := FindMember(members, hop.name).value;
             && m.nested.Message? && Below(m.nested.members, sizes, at + [hop], p)
             && (hop.Element? ==> !m.shape.Single? && hop.index < SizeAt(m, sizes, at + [Field(m.name)]))
             && (hop.Field? ==> m.shape.Single?)
    ensures Below(members, sizes, at, p)
  {
    var rest := p[|at| + 1..];
    assert p[..|at|] == p[..|at| + 1][..|at|] == at;
    assert p[|at|] == p[..|at| + 1][|at|] == hop;
    assert p[|at|..] == [hop] + rest;
    assert p[|at|..][1..] == rest;
  }

  lemma SizeGrows(m: Member, before: Sizes, after: Sizes, at: Place)
    requires !m.shape.Single? && Grown(before, after)
    ensures SizeAt(m, before, at) <= SizeAt(m, after, at)
  {}

  /** After binding, every bound leaf lies inside the arrays of the destination, which only grew. */
  lemma {:induction false} ElementsReach(members: seq<Member>, m: Member, sizes: Sizes, indices: seq<nat>, path: seq<Segment>, at: Place, count: Result<nat>)
    requires path != [] && FindMember(members, path[0].name) == Ok(m) && !m.shape.Single?
    requires BindElements(m, sizes, indices, path, at, count).Ok?
    requires forall i | i in indices :: i < SizeAt(m, sizes, at + [Field(m.name)])
    ensures var bound := BindElements(m, sizes, indices, path, at, count).value;
            Grown(sizes, bound.sizes) && forall p | p in bound.places :: Below(members, bound.sizes, at, p)
    decreases |path|, 0, |indices|
  {
    if indices != [] {
      var hop := Element(m.name, indices[0]);
      var here := at + [hop];
      var first := if |path| == 1 then Bound([here], sizes) else Bind(m.nested.members, sizes, path[1..], here, count).value;
      if |path| > 1 { BindReaches(m.nested.members, sizes, path[1..], here, count); }
      SizeGrows(m, sizes, first.sizes, at + [Field(m.name)]);
      assert indices[0] in indices && hop.name == path[0].name;
      forall i | i in indices[1..] ensures i < SizeAt(m, first.sizes, at + [Field(m.name)]) { assert i in indices; }
      ElementsReach(members, m, first.sizes, indices[1..], path, at, count);
      var after := BindElements(m, sizes, indices, path, at, count).value.sizes;
      SizeGrows(m, first.sizes, after, at + [Field(m.name)]);
      forall p | p in first.places ensures Below(members, after, at, p) {
        if |path| == 1 {
          assert here[|at|..] == [hop];
        } else {
          ReachesMore(m.nested.members, first.sizes, after, here, p[|here|..]);
          OneHopMore(members, after, at, hop, p);
        }
      }
    }
  }
}
