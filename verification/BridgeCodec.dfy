/** The encoder's and decoder's traversal as the bridge runs it: loops that push indices and bindings,
    and a destination message whose arrays grow in place. */
module BridgeCodec {
  import opened BridgeLayout
  import opened LayoutTheorems
  import LayoutPaths

  method CountPath(members: seq<Member>, path: seq<Segment>) returns (r: Result<Count>)
    requires path != []
    ensures r == SelectionCount(members, path)
    decreases |path|
  {
    var found := FindMember(members, path[0].name);
    if found.Error? { return Error; }
    var m := found.value;
    var last := |path| == 1;
    if m.shape.Single? {
      if HasSelector(path[0]) { return Error; }
      if last { return Ok(Exactly(1)); }
      if m.nested.Scalar? { return Error; }
      r := CountPath(m.nested.members, path[1..]);
      return;
    }
    var count := SegmentCount(m, path[0], last);
    if count.Error? || last || count.value.Unbounded? { return count; }
    if m.nested.Scalar? { return Error; }
    var nested := CountPath(m.nested.members, path[1..]);
    if nested.Error? || nested.value.Unbounded? { return Error; }
    r := Ok(Exactly(count.value.n * nested.value.n));
  }

  /** `for (index = start; index < stop; index += step)`. */
  method PushRange(start: nat, stop: nat, step: Step) returns (indices: seq<nat>)
    ensures indices == Range(start, stop, step)
  {
    indices := [];
    var index := start;
    while index < stop
      invariant indices + Range(index, stop, step) == Range(start, stop, step)
      decreases if index < stop then stop - index else 0
    {
      indices := indices + [index];
      index := index + step;
    }
  }

  /** `for (item = 0; item < count; ++item) push(start + item * step)`. */
  method PushStride(start: nat, count: nat, step: Step) returns (indices: seq<nat>)
    ensures indices == Stride(start, count, step)
  {
    indices := [];
    var item := 0;
    while item < count
      invariant 0 <= item <= count && indices == Stride(start, item, step)
    {
      indices := indices + [start + item * step];
      item := item + 1;
    }
  }

  method SelectIndicesConst(s: Segment, last: bool, size: nat) returns (r: Result<seq<nat>>)
    ensures r == SourceIndices(s, last, size)
  {
    match s.selector {
      case At(index) =>
        if index >= size { return Error; }
        r := Ok([index]);
      case Slice(start, stop, step) =>
        var end := if stop.Until? then stop.stop else size;
        if start > size || end > size { return Error; }
        var indices := PushRange(start, end, step);
        r := Ok(indices);
      case NoSelector =>
        if !last { return Error; }
        var indices := PushRange(0, size, 1);
        r := Ok(indices);
    }
  }

  lemma ElementsStep(m: Member, values: seq<Value>, indices: seq<nat>, i: nat, path: seq<Segment>, at: Place)
    requires path != [] && i < |indices|
    ensures var here := at + [Element(m.name, indices[i])];
            var first := if |path| == 1 then Ok([here])
                         else if m.nested.Scalar? || indices[i] >= |values| then Error
                         else Collect(m.nested.members, values[indices[i]], path[1..], here);
            var rest := CollectElements(m, values, indices[i + 1..], path, at);
            CollectElements(m, values, indices[i..], path, at)
            == if first.Error? || rest.Error? then Error else Ok(first.value + rest.value)
  {
    assert indices[i..][0] == indices[i] && indices[i..][1..] == indices[i + 1..];
  }

  lemma BindStep(m: Member, sizes: Sizes, indices: seq<nat>, i: nat, path: seq<Segment>, at: Place, count: Result<nat>)
    requires path != [] && i < |indices|
    ensures var here := at + [Element(m.name, indices[i])];
            var first := if |path| == 1 then Ok(Bound([here], sizes))
                         else if m.nested.Scalar? then Error
                         else Bind(m.nested.members, sizes, path[1..], here, count);
            BindElements(m, sizes, indices[i..], path, at, count)
            == if first.Error? then Error
               else var rest := BindElements(m, first.value.sizes, indices[i + 1..], path, at, count);
                    if rest.Error? then Error else Ok(Bound(first.value.places + rest.value.places, rest.value.sizes))
  {
    assert indices[i..][0] == indices[i] && indices[i..][1..] == indices[i + 1..];
  }

  /** Collect every selected leaf of the message being sent; `out` is extended, as in the code. */
  method CollectConst(members: seq<Member>, v: Value, path: seq<Segment>, at: Place, out: seq<Place>) returns (r: Result<seq<Place>>)
    requires path != []
    ensures r.Ok? <==> Collect(members, v, path, at).Ok?
    ensures r.Ok? ==> r.value == out + Collect(members, v, path, at).value
    decreases |path|
  {
    var found := FindMember(members, path[0].name);
    if found.Error? { return Error; }
    var m := found.value;
    var last := |path| == 1;
    var values := FieldValues(v, path[0].name);
    if m.shape.Single? {
      if HasSelector(path[0]) || |values| != 1 { return Error; }
      if last { return Ok(out + [at + [Field(m.name)]]); }
      if m.nested.Scalar? { return Error; }
      r := CollectConst(m.nested.members, values[0], path[1..], at + [Field(m.name)], out);
      return;
    }
    var indices := SelectIndicesConst(path[0], last, |values|);
    if indices.Error? { return Error; }
    var collected := out;
    var i := 0;
    while i < |indices.value|
      invariant 0 <= i <= |indices.value|
      invariant CollectElements(m, values, indices.value[i..], path, at).Ok? <==> CollectElements(m, values, indices.value, path, at).Ok?
      invariant CollectElements(m, values, indices.value, path, at).Ok? ==>
        out + CollectElements(m, values, indices.value, path, at).value
        == collected + CollectElements(m, values, indices.value[i..], path, at).value
    {
      ElementsStep(m, values, indices.value, i, path, at);
      var index := indices.value[i];
      var here := at + [Element(m.name, index)];
      if last {
        collected := collected + [here];
      } else {
        if m.nested.Scalar? || index >= |values| { return Error; }
        var more := CollectConst(m.nested.members, values[index], path[1..], here, collected);
        if more.Error? { return Error; }
        collected := more.value;
      }
      i := i + 1;
    }
    r := Ok(collected);
  }

  /** One configured member: a computed value, or one scalar per collected leaf. */
  method EncodeMember(members: seq<Member>, v: Value, specs: seq<Spec>, k: nat) returns (r: Result<seq<Entry>>)
    requires Usable(specs) && k < |specs|
    ensures r == Mine(members, v, specs, k)
  {
    match specs[k] {
      case Computed(_) => r := Ok([Unbound(k)]);
      case Target(path, _) =>
        var places := CollectConst(members, v, path, [], []);
        if places.Error? { return Error; }
        assert [] + Collect(members, v, path, []).value == Collect(members, v, path, []).value;
        r := Ok(Entries(k, places.value));
    }
  }

  lemma EncodeUnfolds(members: seq<Member>, v: Value, specs: seq<Spec>, k: nat)
    requires Usable(specs) && k < |specs|
    ensures EncodeFrom(members, v, specs, k).Ok? <==> Mine(members, v, specs, k).Ok? && EncodeFrom(members, v, specs, k + 1).Ok?
    ensures EncodeFrom(members, v, specs, k).Ok? ==>
      EncodeFrom(members, v, specs, k).value == Mine(members, v, specs, k).value + EncodeFrom(members, v, specs, k + 1).value
  {}

  /** The encoder's layout loop over the configured members. */
  method EncodeLayout(members: seq<Member>, v: Value, specs: seq<Spec>) returns (r: Result<seq<Entry>>)
    requires Usable(specs)
    ensures r.Ok? <==> EncodeFrom(members, v, specs, 0).Ok?
    ensures r.Ok? ==> r.value == EncodeFrom(members, v, specs, 0).value
  {
    var entries := [];
    var k := 0;
    while k < |specs|
      invariant 0 <= k <= |specs|
      invariant EncodeFrom(members, v, specs, k).Ok? <==> EncodeFrom(members, v, specs, 0).Ok?
      invariant EncodeFrom(members, v, specs, 0).Ok? ==>
        EncodeFrom(members, v, specs, 0).value == entries + EncodeFrom(members, v, specs, k).value
    {
      EncodeUnfolds(members, v, specs, k);
      var mine := EncodeMember(members, v, specs, k);
      if mine.Error? { return Error; }
      entries := entries + mine.value;
      k := k + 1;
    }
    r := Ok(entries);
  }

  /** The message being filled; only the sizes of its dynamic arrays matter for the layout. */
  class Destination {
    var sizes: Sizes

    constructor ()
      ensures sizes == map[]
    { sizes := map[]; }

    /** Resize a dynamic array once; a short fixed array is an error. */
    method EnsureSize(m: Member, field: Place, required: nat) returns (ok: bool)
      requires !m.shape.Single?
      modifies this
      ensures ok == !(required > SizeAt(m, old(sizes), field) && !m.shape.Dynamic?)
      ensures sizes == if ok && m.shape.Dynamic? then Grow(old(sizes), field, required) else old(sizes)
    {
      if required <= SizeAt(m, sizes, field) { return true; }
      if !m.shape.Dynamic? { return false; }
      sizes := sizes[field := required];
      ok := true;
    }

    method SelectIndicesMutable(m: Member, s: Segment, last: bool, field: Place, count: Result<nat>) returns (r: Result<seq<nat>>)
      requires !m.shape.Single?
      modifies this
      ensures r == DestinationIndices(m, s, last, SizeAt(m, old(sizes), field), count)
      ensures r.Ok? ==> sizes == if m.shape.Dynamic? then Grow(old(sizes), field, RequiredSize(s, count)) else old(sizes)
    {
      var size := SizeAt(m, sizes, field);
      var ok := EnsureSize(m, field, RequiredSize(s, count));
      if !ok { return Error; }
      var indices: seq<nat>;
      match s.selector {
        case At(index) => indices := [index];
        case Slice(start, Until(stop), step) => indices := PushRange(start, stop, step);
        case Slice(start, Open, step) =>
          if count.Error? && !last { return Error; }
          indices := PushStride(start, if count.Ok? then count.value else CountRange(start, size, step), step);
        case NoSelector =>
          if !last { return Error; }
          indices := PushRange(0, if count.Ok? then count.value else size, 1);
      }
      r := Ok(indices);
    }

    method BindLeaves(members: seq<Member>, path: seq<Segment>, at: Place, count: Result<nat>) returns (r: Result<seq<Place>>)
      requires path != []
      modifies this
      ensures r.Ok? <==> Bind(members, old(sizes), path, at, count).Ok?
      ensures r.Ok? ==> Bind(members, old(sizes), path, at, count).value == Bound(r.value, sizes)
      decreases |path|
    {
      var found := FindMember(members, path[0].name);
      if found.Error? { return Error; }
      var m := found.value;
      var last := |path| == 1;
      if m.shape.Single? {
        if HasSelector(path[0]) { return Error; }
        if last { return Ok([at + [Field(m.name)]]); }
        if m.nested.Scalar? { return Error; }
        r := BindLeaves(m.nested.members, path[1..], at + [Field(m.name)], count);
        return;
      }
      var indices := SelectIndicesMutable(m, path[0], last, at + [Field(m.name)], count);
      if indices.Error? { return Error; }
      ghost var grown := sizes;
      var places := [];
      var i := 0;
      while i < |indices.value|
        invariant 0 <= i <= |indices.value|
        invariant BindElements(m, sizes, indices.value[i..], path, at, count).Ok? <==> BindElements(m, grown, indices.value, path, at, count).Ok?
        invariant BindElements(m, grown, indices.value, path, at, count).Ok? ==>
          var whole, rest := BindElements(m, grown, indices.value, path, at, count).value, BindElements(m, sizes, indices.value[i..], path, at, count).value;
          whole.places == places + rest.places && whole.sizes == rest.sizes
      {
        BindStep(m, sizes, indices.value, i, path, at, count);
        var here := at + [Element(m.name, indices.value[i])];
        if last {
          places := places + [here];
        } else {
          if m.nested.Scalar? { return Error; }
          var more := BindLeaves(m.nested.members, path[1..], here, count);
          if more.Error? { return Error; }
          places := places + more.value;
        }
        i := i + 1;
      }
      r := Ok(places);
    }

    /** The decoder's two layout passes for a payload of `size` bytes. */
    method DecodeLayout(members: seq<Member>, specs: seq<Spec>, size: nat) returns (r: Result<seq<Entry>>)
      requires Usable(specs) && sizes == map[]
      modifies this
      ensures r.Ok? <==> Decode(members, specs, size).Ok?
      ensures r.Ok? ==> Decode(members, specs, size).value == Flattened(r.value, sizes)
    {
      var planned := MakePlan(members, specs);
      if planned.Error? { return Error; }
      var plan := planned.value;
      OpenInRange(members, specs, 0, NO_PLAN);
      var inferred := InferCount(specs, plan, size);
      if inferred.Mismatch? { return Error; }
      r := BindAll(members, specs, plan, inferred.count);
    }

    method BindMember(members: seq<Member>, specs: seq<Spec>, count: Result<nat>, k: nat) returns (r: Result<seq<Entry>>)
      requires Usable(specs) && k < |specs|
      modifies this
      ensures r.Ok? <==> MineBound(members, specs, count, old(sizes), k).Ok?
      ensures r.Ok? ==> MineBound(members, specs, count, old(sizes), k).value == Flattened(r.value, sizes)
    {
      match specs[k] {
        case Computed(_) => r := Ok([Unbound(k)]);
        case Target(path, _) =>
          var places := BindLeaves(members, path, [], count);
          if places.Error? { return Error; }
          r := Ok(Entries(k, places.value));
      }
    }

    method BindAll(members: seq<Member>, specs: seq<Spec>, plan: Plan, count: Result<nat>) returns (r: Result<seq<Entry>>)
      requires Usable(specs)
      modifies this
      ensures r.Ok? <==> DecodeFrom(members, specs, plan, count, old(sizes), 0).Ok?
      ensures r.Ok? ==> DecodeFrom(members, specs, plan, count, old(sizes), 0).value == Flattened(r.value, sizes)
    {
      var entries := [];
      var k := 0;
      ghost var end := DecodeFrom(members, specs, plan, count, sizes, 0);
      while k < |specs|
        invariant 0 <= k <= |specs| && Continues(end, entries, DecodeFrom(members, specs, plan, count, sizes, k))
      {
        DecodeUnfolds(members, specs, plan, count, sizes, k);
        var mine := BindMember(members, specs, CountFor(plan, count, k), k);
        if mine.Error? { return Error; }
        entries := entries + mine.value;
        k := k + 1;
      }
      r := Ok(entries);
    }
  }

  /** What the decoder adds for member `k`. */
  function MineBound(members: seq<Member>, specs: seq<Spec>, count: Result<nat>, sizes: Sizes, k: nat): Result<Flattened>
    requires Usable(specs) && k < |specs|
  {
    match specs[k]
    case Computed(_) => Ok(Flattened([Unbound(k)], sizes))
    case Target(path, _) =>
      match Bind(members, sizes, path, [], count) case Error => Error case Ok(bound) => Ok(Flattened(Entries(k, bound.places), bound.sizes))
  }

  /** The whole result is what was flattened so far and the rest. */
  ghost predicate Continues(whole: Result<Flattened>, entries: seq<Entry>, rest: Result<Flattened>) {
    && (whole.Ok? <==> rest.Ok?)
    && (whole.Ok? ==> whole.value.entries == entries + rest.value.entries && whole.value.sizes == rest.value.sizes)
  }

  lemma DecodeUnfolds(members: seq<Member>, specs: seq<Spec>, plan: Plan, count: Result<nat>, sizes: Sizes, k: nat)
    requires Usable(specs) && k < |specs|
    ensures var mine := MineBound(members, specs, CountFor(plan, count, k), sizes, k);
            && (mine.Error? ==> DecodeFrom(members, specs, plan, count, sizes, k).Error?)
            && (mine.Ok? ==> Continues(DecodeFrom(members, specs, plan, count, sizes, k), mine.value.entries,
                                       DecodeFrom(members, specs, plan, count, mine.value.sizes, k + 1)))
  {}

  /** The decoder's first pass: add up the counted members and remember the open-ended one. */
  method MakePlan(members: seq<Member>, specs: seq<Spec>) returns (r: Result<Plan>)
    requires Usable(specs)
    ensures r == PlanFrom(members, specs, 0, NO_PLAN)
  {
    var plan := NO_PLAN;
    var k := 0;
    while k < |specs|
      invariant 0 <= k <= |specs|
      invariant PlanFrom(members, specs, k, plan) == PlanFrom(members, specs, 0, NO_PLAN)
    {
      var count: Result<Count> := Ok(Exactly(1));
      if specs[k].Target? { count := CountPath(members, specs[k].path); }
      if count.Error? { return Error; }
      if count.value.Unbounded? {
        if plan.open.Ok? { return Error; }
        plan := plan.(open := Ok(k));
      } else {
        plan := plan.(fixedBytes := plan.fixedBytes + count.value.n * specs[k].width);
      }
      k := k + 1;
    }
    r := Ok(plan);
  }

  /** Sender and receiver end to end: a message is encoded exactly when every configured path resolves in it, and
      then what the encoder read, in order, is where the decoder writes, unless it rejects the configuration. */
  method SendAndReceive(members: seq<Member>, v: Value, specs: seq<Spec>) returns (sent: Result<seq<Entry>>, received: Result<seq<Entry>>)
    requires Usable(specs) && Conforms(members, v)
    ensures sent.Ok? <==> forall j | 0 <= j < |specs| :: specs[j].Target? ==> LayoutPaths.Resolves(members, v, specs[j].path)
    ensures sent.Ok? ==> LayoutPaths.EntriesInOrder(sent.value) && forall e :: e in sent.value <==> LayoutPaths.Wanted(members, v, specs, 0, e)
    ensures received == if PlanFrom(members, specs, 0, NO_PLAN).Ok? then sent else Error
  {
    sent := EncodeLayout(members, v, specs);
    LayoutPaths.EncodesIff(members, v, specs, 0);
    received := Error;
    if sent.Error? { return; }
    LayoutPaths.EncodesExactly(members, v, specs, 0);
    EncodedIndexed(members, v, specs, 0);
    var destination := new Destination();
    received := destination.DecodeLayout(members, specs, Length(specs, sent.value));
    if PlanFrom(members, specs, 0, NO_PLAN).Ok? { LayoutAgrees(members, v, specs); }
  }
}
