/** How a bridge flattens message fields into a payload and finds them again: paths with indices and
    slices, expanded independently by the encoder and the decoder. Leaves are named by their path and
    indices instead of addresses. */
module BridgeLayout {

  datatype Result<+T> = Ok(value: T) | Error

  // ---------------------------------------------------------------- schemas, paths and messages

  /** Introspection metadata: fixed arrays carry their size, dynamic arrays can be resized. */
  datatype Shape = Single | Fixed(size: nat) | Dynamic
  datatype Member = Member(name: string, shape: Shape, nested: Nested)
  datatype Nested = Scalar | Message(members: seq<Member>)

  type Step = s: nat | s > 0 witness 1
  /** The parser yields an index, a slice with a positive step, or nothing. */
  datatype Selector = NoSelector | At(index: nat) | Slice(start: nat, stop: Stop, step: Step)
  datatype Stop = Open | Until(stop: nat)
  datatype Segment = Segment(name: string, selector: Selector)

  /** A message value, as far as layout matters: how many elements each array holds. */
  datatype Value = Leaf | Record(fields: seq<FieldValue>)
  datatype FieldValue = FieldValue(name: string, elements: seq<Value>)

  /** One step towards a leaf: a single field, or an element of an array. */
  datatype Hop = Field(name: string) | Element(name: string, index: nat)
  type Place = seq<Hop>

  function FindMember(members: seq<Member>, name: string): (r: Result<Member>)
    ensures r.Ok? ==> r.value in members && r.value.name == name
  {
    if members == [] then Error
    else if members[0].name == name then Ok(members[0])
    else FindMember(members[1..], name)
  }

  // ---------------------------------------------------------------- ranges

  /** Number of indices a half-open slice generates. */
  function CountRange(start: nat, stop: nat, step: Step): nat {
    if start >= stop then 0 else 1 + (stop - start - 1) / step
  }

  /** start, start + step, ... while below stop. */
  function Range(start: nat, stop: nat, step: Step): seq<nat>
    decreases if start < stop then stop - start else 0
  {
    if start >= stop then [] else [start] + Range(start + step, stop, step)
  }

  /** start, start + step, ... count of them. */
  function Stride(start: nat, count: nat, step: Step): seq<nat> { seq(count, i requires 0 <= i < count => start + i * step) }

  lemma AtLeast(d: nat, k: int)
    requires k >= 1
    ensures d * k >= d
  {}

  lemma DivMod(n: nat, d: nat)
    requires d > 0
    ensures n == d * (n / d) + n % d
  {}

  lemma QuotientIs(n: nat, d: nat, q: nat, r: nat)
    requires r < d && n == d * q + r
    ensures n / d == q && n % d == r
  {
    DivMod(n, d);
    SameQuotient(d, n / d, n % d, q, r);
  }

  lemma SameQuotient(d: nat, q: nat, r: nat, p: nat, t: nat)
    requires r < d && t < d && d * q + r == d * p + t
    ensures q == p && r == t
  {
    assert d * (q - p) == t - r;
    if q > p { AtLeast(d, q - p); }
    if p > q {
      assert d * (p - q) == r - t;
      AtLeast(d, p - q);
    }
  }

  lemma Quotient(n: nat, step: Step)
    requires n >= step
    ensures n / step == 1 + (n - step) / step
  {
    DivMod(n - step, step);
    assert n == step * ((n - step) / step + 1) + (n - step) % step;
    QuotientIs(n, step, (n - step) / step + 1, (n - step) % step);
  }

  lemma CountStep(start: nat, stop: nat, step: Step)
    requires start < stop
    ensures CountRange(start, stop, step) == 1 + CountRange(start + step, stop, step)
  {
    var n := stop - start - 1;
    if n >= step { Quotient(n, step); } else { assert n / step == 0; }
  }

  /** The slice loop generates exactly `count_range` indices, evenly spaced. */
  lemma {:induction false} RangeIsStride(start: nat, stop: nat, step: Step)
    ensures Range(start, stop, step) == Stride(start, CountRange(start, stop, step), step)
    decreases if start < stop then stop - start else 0
  {
    if start < stop {
      RangeIsStride(start + step, stop, step);
      CountStep(start, stop, step);
      StrideStep(start, CountRange(start + step, stop, step), step);
    }
  }

  lemma StrideStep(start: nat, count: nat, step: Step)
    ensures Stride(start, count + 1, step) == [start] + Stride(start + step, count, step)
  {
    var a, b := Stride(start, count + 1, step), [start] + Stride(start + step, count, step);
    forall i | 0 <= i < count + 1 ensures a[i] == b[i] {
      if i > 0 { assert start + i * step == start + step + (i - 1) * step; }
    }
  }

  lemma {:induction false} RangeBelow(start: nat, stop: nat, step: Step)
    ensures forall i | i in Range(start, stop, step) :: start <= i < stop
    decreases if start < stop then stop - start else 0
  {
    if start < stop { RangeBelow(start + step, stop, step); }
  }

  // ---------------------------------------------------------------- the number of leaves a path selects

  datatype Count = Exactly(n: nat) | Unbounded

  predicate HasSelector(s: Segment) { !s.selector.NoSelector? }

  /** Elements one array segment selects, judged from the schema alone. */
  function SegmentCount(m: Member, s: Segment, last: bool): Result<Count>
    requires !m.shape.Single?
  {
    match s.selector
    case At(_) => Ok(Exactly(1))
    case Slice(start, Until(stop), step) =>
      if m.shape.Fixed? && stop > m.shape.size then Error else Ok(Exactly(CountRange(start, stop, step)))
    case Slice(start, Open, step) =>
      if !last then Error
      else if m.shape.Dynamic? then Ok(Unbounded)
      else if start > m.shape.size then Error
      else Ok(Exactly(CountRange(start, m.shape.size, step)))
    case NoSelector =>
      if !last then Error else if m.shape.Dynamic? then Ok(Unbounded) else Ok(Exactly(m.shape.size))
  }

  function SelectionCount(members: seq<Member>, path: seq<Segment>): Result<Count>
    requires path != []
    decreases |path|
  {
    var last := |path| == 1;
    match FindMember(members, path[0].name)
    case Error => Error
    case Ok(m) =>
      if m.shape.Single? then
        if HasSelector(path[0]) then Error
        else if last then Ok(Exactly(1))
        else if m.nested.Scalar? then Error
        else SelectionCount(m.nested.members, path[1..])
      else
        match SegmentCount(m, path[0], last)
        case Error => Error
        case Ok(count) =>
          if last || count.Unbounded? then Ok(count)
          else if m.nested.Scalar? then Error
          else
            match SelectionCount(m.nested.members, path[1..])
            case Error => Error
            case Ok(Unbounded) => Error
            case Ok(Exactly(n)) => Ok(Exactly(count.n * n))
  }

  // ---------------------------------------------------------------- index selection

  /** `select_indices_const`: against the size the source array has now. */
  function SourceIndices(s: Segment, last: bool, size: nat): Result<seq<nat>> {
    match s.selector
    case At(index) => if index >= size then Error else Ok([index])
    case Slice(start, stop, step) =>
      var end := if stop.Until? then stop.stop else size;
      if start > size || end > size then Error else Ok(Range(start, end, step))
    case NoSelector => if !last then Error else Ok(Range(0, size, 1))
  }

  /** The size a destination array must reach, if the selection resizes it. */
  function RequiredSize(s: Segment, count: Result<nat>): nat {
    match s.selector
    case At(index) => index + 1
    case Slice(start, Until(stop), _) => stop
    case Slice(start, Open, step) =>
      if count.Error? then 0 else if count.value == 0 then start else start + (count.value - 1) * step + 1
    case NoSelector => if count.Error? then 0 else count.value
  }

  /** `select_indices_mutable`: the destination array holds `size` elements and grows if it can; `count` is
      the element count inferred from the payload, for the one open-ended member. */
  function DestinationIndices(m: Member, s: Segment, last: bool, size: nat, count: Result<nat>): Result<seq<nat>>
    requires !m.shape.Single?
  {
    if RequiredSize(s, count) > size && !m.shape.Dynamic? then Error
    else
      match s.selector
      case At(index) => Ok([index])
      case Slice(start, Until(stop), step) => Ok(Range(start, stop, step))
      case Slice(start, Open, step) =>
        if count.Ok? then Ok(Stride(start, count.value, step))
        else if !last then Error
        else Ok(Stride(start, CountRange(start, size, step), step))
      case NoSelector => if !last then Error else Ok(Range(0, if count.Ok? then count.value else size, 1))
  }

  // ---------------------------------------------------------------- collecting the leaves

  function ElementsOf(fields: seq<FieldValue>, name: string): seq<Value> {
    if fields == [] then [] else if fields[0].name == name then fields[0].elements else ElementsOf(fields[1..], name)
  }

  function FieldValues(v: Value, name: string): seq<Value> { if v.Record? then ElementsOf(v.fields, name) else [] }

  /** The message has the array sizes its type fixes. */
  ghost predicate Conforms(members: seq<Member>, v: Value)
    decreases members
  {
    forall m | m in members ::
      var values := FieldValues(v, m.name);
      && (m.shape.Single? ==> |values| == 1)
      && (m.shape.Fixed? ==> |values| == m.shape.size)
      && (m.nested.Message? ==> forall x | x in values :: Conforms(m.nested.members, x))
  }

  /** `collect_const_leaf_bindings` on the message being sent. */
  function Collect(members: seq<Member>, v: Value, path: seq<Segment>, at: Place): Result<seq<Place>>
    requires path != []
    decreases |path|, 0
  {
    var last := |path| == 1;
    match FindMember(members, path[0].name)
    case Error => Error
    case Ok(m) =>
      var values := FieldValues(v, path[0].name);
      if m.shape.Single? then
        if HasSelector(path[0]) || |values| != 1 then Error
        else if last then Ok([at + [Field(m.name)]])
        else if m.nested.Scalar? then Error
        else Collect(m.nested.members, values[0], path[1..], at + [Field(m.name)])
      else
        match SourceIndices(path[0], last, |values|)
        case Error => Error
        case Ok(indices) => CollectElements(m, values, indices, path, at)
  }

  /** ... one selected element after the other. */
  function CollectElements(m: Member, values: seq<Value>, indices: seq<nat>, path: seq<Segment>, at: Place): Result<seq<Place>>
    requires path != []
    decreases |path|, 0, |indices|
  {
    if indices == [] then Ok([])
    else
      var here := at + [Element(m.name, indices[0])];
      var first :=
        if |path| == 1 then Ok([here])
        else if m.nested.Scalar? || indices[0] >= |values| then Error
        else Collect(m.nested.members, values[indices[0]], path[1..], here);
      var rest := CollectElements(m, values, indices[1..], path, at);
      if first.Error? || rest.Error? then Error else Ok(first.value + rest.value)
  }

  /** Sizes of the destination's arrays by location; an array not listed is still empty, unless fixed. */
  type Sizes = map<Place, nat>

  function SizeAt(m: Member, sizes: Sizes, at: Place): nat
    requires !m.shape.Single?
  {
    if m.shape.Fixed? then m.shape.size else if at in sizes then sizes[at] else 0
  }

  function Grow(sizes: Sizes, at: Place, required: nat): Sizes {
    if (at in sizes && sizes[at] >= required) || required == 0 then sizes else sizes[at := required]
  }

  datatype Bound = Bound(places: seq<Place>, sizes: Sizes)

  /** `collect_mutable_leaf_bindings` on the message being filled. */
  function Bind(members: seq<Member>, sizes: Sizes, path: seq<Segment>, at: Place, count: Result<nat>): Result<Bound>
    requires path != []
    decreases |path|, 0
  {
    var last := |path| == 1;
    match FindMember(members, path[0].name)
    case Error => Error
    case Ok(m) =>
      if m.shape.Single? then
        if HasSelector(path[0]) then Error
        else if last then Ok(Bound([at + [Field(m.name)]], sizes))
        else if m.nested.Scalar? then Error
        else Bind(m.nested.members, sizes, path[1..], at + [Field(m.name)], count)
      else
        var field := at + [Field(m.name)];
        match DestinationIndices(m, path[0], last, SizeAt(m, sizes, field), count)
        case Error => Error
        case Ok(indices) =>
          var grown := if m.shape.Dynamic? then Grow(sizes, field, RequiredSize(path[0], count)) else sizes;
          BindElements(m, grown, indices, path, at, count)
  }

  function BindElements(m: Member, sizes: Sizes, indices: seq<nat>, path: seq<Segment>, at: Place, count: Result<nat>): Result<Bound>
    requires path != []
    decreases |path|, 0, |indices|
  {
    if indices == [] then Ok(Bound([], sizes))
    else
      var here := at + [Element(m.name, indices[0])];
      var first :=
        if |path| == 1 then Ok(Bound([here], sizes))
        else if m.nested.Scalar? then Error
        else Bind(m.nested.members, sizes, path[1..], here, count);
      if first.Error? then Error
      else
        var rest := BindElements(m, first.value.sizes, indices[1..], path, at, count);
        if rest.Error? then Error else Ok(Bound(first.value.places + rest.value.places, rest.value.sizes))
  }

  // ---------------------------------------------------------------- encoder and decoder agree on one path

  /** The element count the decoder passes to the path: the inferred one for the open-ended member only. */
  function GivenCount(c: Count, places: nat): Result<nat> { if c.Unbounded? then Ok(places) else Error }

  lemma UnitRange(size: nat)
    ensures |Range(0, size, 1)| == size && CountRange(0, size, 1) == size
  {
    RangeIsStride(0, size, 1);
    if size > 0 { assert (size - 1) / 1 == size - 1; }
  }

  /** On one array segment the decoder selects the indices the encoder selected, and as many of them as the
      schema says. */
  lemma SegmentAgrees(m: Member, s: Segment, last: bool, actual: nat, size: nat, c: Count)
    requires !m.shape.Single? && (m.shape.Fixed? ==> actual == m.shape.size && size == m.shape.size)
    requires SourceIndices(s, last, actual).Ok? && SegmentCount(m, s, last) == Ok(c)
    ensures var indices := SourceIndices(s, last, actual).value;
            && (c.Exactly? ==> |indices| == c.n)
            && DestinationIndices(m, s, last, size, GivenCount(c, |indices|)) == Ok(indices)
            && forall i | i in indices :: i < actual
  {
    UnitRange(actual);
    RangeBelow(0, actual, 1);
    match s.selector
    case At(_) =>
    case NoSelector =>
    case Slice(start, stop, step) =>
      var end := if stop.Until? then stop.stop else actual;
      RangeIsStride(start, end, step);
      RangeBelow(start, end, step);
      if stop.Open? && m.shape.Fixed? { assert CountRange(start, size, step) == CountRange(start, end, step); }
  }

  ghost predicate Agree(c: Count, places: seq<Place>, bound: Result<Bound>) {
    (c.Exactly? ==> |places| == c.n) && bound.Ok? && bound.value.places == places
  }

  lemma {:induction false} PathAgrees(members: seq<Member>, v: Value, path: seq<Segment>, at: Place, sizes: Sizes, c: Count)
    requires path != [] && Conforms(members, v) && SelectionCount(members, path) == Ok(c) && Collect(members, v, path, at).Ok?
    ensures var places := Collect(members, v, path, at).value;
            Agree(c, places, Bind(members, sizes, path, at, GivenCount(c, |places|)))
    decreases |path|, 1
  {
    var m := FindMember(members, path[0].name).value;
    var values := FieldValues(v, m.name);
    var last := |path| == 1;
    if m.shape.Single? {
      if !last { PathAgrees(m.nested.members, values[0], path[1..], at + [Field(m.name)], sizes, c); }
    } else {
      var field := at + [Field(m.name)];
      var d := SegmentCount(m, path[0], last).value;
      SegmentAgrees(m, path[0], last, |values|, SizeAt(m, sizes, field) , d);
      var indices := SourceIndices(path[0], last, |values|).value;
      if last {
        LastElements(m, values, indices, path, at, GivenCount(c, |indices|));
      } else {
        var nested := SelectionCount(m.nested.members, path[1..]).value;
        var grown := if m.shape.Dynamic? then Grow(sizes, field, RequiredSize(path[0], Error)) else sizes;
        ElementsAgree(m, values, indices, path, at, grown, nested.n);
      }
    }
  }

  lemma {:induction false} LastElements(m: Member, values: seq<Value>, indices: seq<nat>, path: seq<Segment>, at: Place, count: Result<nat>)
    requires |path| == 1
    ensures CollectElements(m, values, indices, path, at).Ok?
    ensures |CollectElements(m, values, indices, path, at).value| == |indices|
    ensures forall sizes :: BindElements(m, sizes, indices, path, at, count)
              == Ok(Bound(CollectElements(m, values, indices, path, at).value, sizes))
    decreases |indices|
  {
    if indices != [] { LastElements(m, values, indices[1..], path, at, count); }
  }

  lemma {:induction false} ElementsAgree(m: Member, values: seq<Value>, indices: seq<nat>, path: seq<Segment>, at: Place, sizes: Sizes, n: nat)
    requires |path| > 1 && m.nested.Message? && CollectElements(m, values, indices, path, at).Ok?
    requires forall x | x in values :: Conforms(m.nested.members, x)
    requires SelectionCount(m.nested.members, path[1..]) == Ok(Exactly(n))
    ensures |CollectElements(m, values, indices, path, at).value| == |indices| * n
    ensures BindElements(m, sizes, indices, path, at, Error).Ok?
    ensures BindElements(m, sizes, indices, path, at, Error).value.places == CollectElements(m, values, indices, path, at).value
    decreases |path|, 0, |indices|
  {
    if indices != [] {
      var here := at + [Element(m.name, indices[0])];
      PathAgrees(m.nested.members, values[indices[0]], path[1..], here, sizes, Exactly(n));
      var first := Bind(m.nested.members, sizes, path[1..], here, Error).value;
      ElementsAgree(m, values, indices[1..], path, at, first.sizes, n);
      assert |indices| * n == n + (|indices| - 1) * n;
    }
  }

  // ---------------------------------------------------------------- the whole payload

  type Width = w: nat | w > 0 witness 1
  /** A member of the bridge configuration: a path to read, or an expression, each with its wire width. */
  datatype Spec = Target(path: seq<Segment>, width: Width) | Computed(width: Width)

  /** One scalar of the payload: where it was read (or will be written), or a computed value. */
  datatype Entry = BoundTo(spec: nat, place: Place) | Unbound(spec: nat)

  predicate Usable(specs: seq<Spec>) { forall s | s in specs && s.Target? :: s.path != [] }

  function Entries(spec: nat, places: seq<Place>): seq<Entry> {
    seq(|places|, i requires 0 <= i < |places| => BoundTo(spec, places[i]))
  }

  /** The encoder's flattened list, from member `k` on. */
  function EncodeFrom(members: seq<Member>, v: Value, specs: seq<Spec>, k: nat): Result<seq<Entry>>
    requires Usable(specs) && k <= |specs|
    decreases |specs| - k
  {
    if k == |specs| then Ok([])
    else
      var mine := match specs[k]
                  case Computed(_) => Ok([Unbound(k)])
                  case Target(path, _) =>
                    (match Collect(members, v, path, []) case Error => Error case Ok(places) => Ok(Entries(k, places)));
      var rest := EncodeFrom(members, v, specs, k + 1);
      if mine.Error? || rest.Error? then Error else Ok(mine.value + rest.value)
  }

  /** Encoded length of a flattened list. */
  function Length(specs: seq<Spec>, entries: seq<Entry>): nat
    requires forall e | e in entries :: e.spec < |specs|
  {
    if entries == [] then 0 else specs[entries[0].spec].width + Length(specs, entries[1..])
  }

  /** The decoder's first pass: bytes of the counted members, and the one open-ended member. */
  datatype Plan = Plan(fixedBytes: nat, open: Result<nat>)

  function SpecCount(members: seq<Member>, spec: Spec): Result<Count>
    requires spec.Target? ==> spec.path != []
  {
    if spec.Computed? then Ok(Exactly(1)) else SelectionCount(members, spec.path)
  }

  function PlanFrom(members: seq<Member>, specs: seq<Spec>, k: nat, plan: Plan): Result<Plan>
    requires Usable(specs) && k <= |specs|
    decreases |specs| - k
  {
    if k == |specs| then Ok(plan)
    else
      match SpecCount(members, specs[k])
      case Error => Error
      case Ok(Unbounded) => if plan.open.Ok? then Error else PlanFrom(members, specs, k + 1, plan.(open := Ok(k)))
      case Ok(Exactly(n)) => PlanFrom(members, specs, k + 1, plan.(fixedBytes := plan.fixedBytes + n * specs[k].width))
  }

  const NO_PLAN := Plan(0, Error)

  datatype Inferred = Mismatch | Counted(count: Result<nat>)

  /** The element count of the open-ended member, inferred from the payload size alone. */
  function InferCount(specs: seq<Spec>, plan: Plan, size: nat): Inferred
    requires plan.open.Ok? ==> plan.open.value < |specs|
  {
    if plan.open.Error? then if size == plan.fixedBytes then Counted(Error) else Mismatch
    else if size < plan.fixedBytes || (size - plan.fixedBytes) % specs[plan.open.value].width != 0 then Mismatch
    else Counted(Ok((size - plan.fixedBytes) / specs[plan.open.value].width))
  }

  function CountFor(plan: Plan, count: Result<nat>, k: nat): Result<nat> { if plan.open == Ok(k) then count else Error }

  datatype Flattened = Flattened(entries: seq<Entry>, sizes: Sizes)

  /** The decoder's second pass: bind every member of the message being filled. */
  function DecodeFrom(members: seq<Member>, specs: seq<Spec>, plan: Plan, count: Result<nat>, sizes: Sizes, k: nat): Result<Flattened>
    requires Usable(specs) && k <= |specs|
    decreases |specs| - k
  {
    if k == |specs| then Ok(Flattened([], sizes))
    else
      match specs[k]
      case Computed(_) =>
        (match DecodeFrom(members, specs, plan, count, sizes, k + 1)
         case Error => Error
         case Ok(rest) => Ok(Flattened([Unbound(k)] + rest.entries, rest.sizes)))
      case Target(path, _) =>
        match Bind(members, sizes, path, [], CountFor(plan, count, k))
        case Error => Error
        case Ok(bound) =>
          match DecodeFrom(members, specs, plan, count, bound.sizes, k + 1)
          case Error => Error
          case Ok(rest) => Ok(Flattened(Entries(k, bound.places) + rest.entries, rest.sizes))
  }

  function Decode(members: seq<Member>, specs: seq<Spec>, size: nat): Result<Flattened>
    requires Usable(specs)
  {
    match PlanFrom(members, specs, 0, NO_PLAN)
    case Error => Error
    case Ok(plan) =>
      OpenInRange(members, specs, 0, NO_PLAN);
      match InferCount(specs, plan, size)
      case Mismatch => Error
      case Counted(count) => DecodeFrom(members, specs, plan, count, map[], 0)
  }

  lemma {:induction false} OpenInRange(members: seq<Member>, specs: seq<Spec>, k: nat, plan: Plan)
    requires Usable(specs) && k <= |specs| && (plan.open.Ok? ==> plan.open.value < k)
    ensures var r := PlanFrom(members, specs, k, plan);
            r.Ok? && r.value.open.Ok? ==> r.value.open.value < |specs| && (plan.open.Error? ==> r.value.open.value >= k)
    ensures var r := PlanFrom(members, specs, k, plan);
            r.Ok? && plan.open.Ok? ==> r.value.open == plan.open
    decreases |specs| - k
  {
    if k < |specs| {
      match SpecCount(members, specs[k])
      case Error =>
      case Ok(Unbounded) => if plan.open.Error? { OpenInRange(members, specs, k + 1, plan.(open := Ok(k))); }
      case Ok(Exactly(n)) => OpenInRange(members, specs, k + 1, plan.(fixedBytes := plan.fixedBytes + n * specs[k].width));
    }
  }
}
