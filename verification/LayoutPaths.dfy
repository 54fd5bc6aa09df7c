/** Which paths a bridge configuration can follow, and what they select: stated over names, sizes and indices
    alone, and proved equivalent to what the encoder and the decoder accept. */
module LayoutPaths {
  import opened BridgeLayout
  import opened LayoutTheorems

  // ---------------------------------------------------------------- looking up a member

  /** The lookup finds the first member of that name, and fails exactly when no member has it. */
  lemma {:induction false} FindExactly(members: seq<Member>, name: string)
    ensures FindMember(members, name).Error? <==> forall m | m in members :: m.name != name
    ensures FindMember(members, name).Ok? ==>
      exists i | 0 <= i < |members| ::
        members[i] == FindMember(members, name).value && members[i].name == name && forall j | 0 <= j < i :: members[j].name != name
    decreases |members|
  {
    if members != [] && members[0].name != name {
      var rest := members[1..];
      FindExactly(rest, name);
      forall m ensures m in members <==> m == members[0] || m in rest { assert members == [members[0]] + rest; }
      if FindMember(rest, name).Ok? {
        var i: nat :| i < |rest| && rest[i] == FindMember(rest, name).value && rest[i].name == name
                      && forall j | 0 <= j < i :: rest[j].name != name;
        assert members[i + 1] == rest[i];
        forall j | 0 <= j < i + 1 ensures members[j].name != name { if j > 0 { assert members[j] == rest[j - 1]; } }
      }
    }
  }

  // ---------------------------------------------------------------- what a selector selects

  function Nth(start: nat, q: nat, step: Step): int { start + q * step }

  ghost predicate OnGrid(start: nat, step: Step, i: nat) { exists q: nat :: i == Nth(start, q, step) }

  /** The selector stays inside an array of `size` elements; only the last array may go without one. */
  predicate InRange(s: Selector, last: bool, size: nat) {
    match s
    case At(index) => index < size
    case Slice(start, stop, _) => start <= size && (stop.Until? ==> stop.stop <= size)
    case NoSelector => last
  }

  ghost predicate Selects(s: Selector, size: nat, i: nat) {
    match s
    case At(index) => i == index
    case Slice(start, stop, step) => i < (if stop.Until? then stop.stop else size) && OnGrid(start, step, i)
    case NoSelector => i < size
  }

  ghost predicate Ascending(s: seq<nat>) { forall i, j | 0 <= i < j < |s| :: s[i] < s[j] }

  lemma NthNext(start: nat, q: nat, step: Step)
    ensures Nth(start + step, q, step) == Nth(start, q + 1, step) && Nth(start, 0, step) == start && Nth(start, q, step) >= start
  {
    NonNegative(q, step);
    assert (q + 1) * step == q * step + step;
  }

  lemma AscendingFrom(first: nat, rest: seq<nat>)
    requires Ascending(rest) && forall i | i in rest :: first < i
    ensures Ascending([first] + rest)
  {
    var s := [first] + rest;
    forall i, j | 0 <= i < j < |s| ensures s[i] < s[j] {
      assert s[j] == rest[j - 1] && s[j] in rest;
      if i > 0 { assert s[i] == rest[i - 1]; }
    }
  }

  lemma {:induction false} RangeExactly(start: nat, stop: nat, step: Step)
    ensures forall i: nat :: i in Range(start, stop, step) <==> i < stop && OnGrid(start, step, i)
    ensures Ascending(Range(start, stop, step))
    decreases if start < stop then stop - start else 0
  {
    var rest := Range(start + step, stop, step);
    if start < stop {
      RangeExactly(start + step, stop, step);
      RangeBelow(start + step, stop, step);
      AscendingFrom(start, rest);
      forall i: nat ensures i in [start] + rest <==> i < stop && OnGrid(start, step, i) { GridStep(start, step, i); }
    } else {
      forall i: nat | OnGrid(start, step, i) ensures i >= stop { GridFrom(start, step, i); }
    }
  }

  lemma GridFrom(start: nat, step: Step, i: nat)
    requires OnGrid(start, step, i)
    ensures i >= start
  {
    var q: nat :| i == Nth(start, q, step);
    NthNext(start, q, step);
  }

  lemma GridStep(start: nat, step: Step, i: nat)
    ensures OnGrid(start, step, i) <==> i == start || OnGrid(start + step, step, i)
  {
    NthNext(start, 0, step);
    if q: nat :| i == Nth(start, q, step) {
      if q > 0 { NthNext(start, q - 1, step); }
    }
    if OnGrid(start + step, step, i) {
      var q: nat :| i == Nth(start + step, q, step);
      NthNext(start, q, step);
    }
  }

  lemma EveryIndex(size: nat)
    ensures forall i: nat :: i in Range(0, size, 1) <==> i < size
  {
    RangeExactly(0, size, 1);
    forall i: nat | i < size ensures i in Range(0, size, 1) { assert i == Nth(0, i, 1); }
  }

  /** A source array yields exactly the selected indices, ascending, and refuses exactly what is out of range. */
  lemma SourceExactly(s: Segment, last: bool, size: nat)
    ensures SourceIndices(s, last, size).Ok? <==> InRange(s.selector, last, size)
    ensures SourceIndices(s, last, size).Ok? ==>
      var indices := SourceIndices(s, last, size).value;
      Ascending(indices) && forall i: nat :: (i in indices <==> Selects(s.selector, size, i)) && (i in indices ==> i < size)
  {
    match s.selector
    case At(_) =>
    case Slice(start, stop, step) => RangeExactly(start, if stop.Until? then stop.stop else size, step);
    case NoSelector =>
      EveryIndex(size);
      RangeExactly(0, size, 1);
  }

  // ---------------------------------------------------------------- what the encoder reads

  predicate HeadFits(m: Member, s: Segment, last: bool, size: nat) {
    if m.shape.Single? then s.selector.NoSelector? else InRange(s.selector, last, size)
  }

  ghost predicate Picks(m: Member, s: Segment, size: nat, i: nat) {
    if m.shape.Single? then i == 0 else Selects(s.selector, size, i)
  }

  /** The path leads somewhere in this message: every name is known, only arrays have selectors, every selector
      is in range, and what lies in the middle is a message. Nothing is asked below an empty slice. */
  ghost predicate Resolves(members: seq<Member>, v: Value, path: seq<Segment>)
    requires path != []
    decreases |path|, 1
  {
    match FindMember(members, path[0].name)
    case Error => false
    case Ok(m) =>
      var values := FieldValues(v, m.name);
      HeadFits(m, path[0], |path| == 1, |values|) && forall i: nat | Picks(m, path[0], |values|, i) :: ElementResolves(m, values, i, path)
  }

  ghost predicate ElementResolves(m: Member, values: seq<Value>, i: nat, path: seq<Segment>)
    requires path != []
    decreases |path|, 0
  {
    |path| > 1 ==> m.nested.Message? && i < |values| && Resolves(m.nested.members, values[i], path[1..])
  }

  /** `hops` names one selected leaf of this message. */
  ghost predicate Selected(members: seq<Member>, v: Value, path: seq<Segment>, hops: seq<Hop>)
    requires path != []
    decreases |path|, 1
  {
    && |hops| == |path| && hops[0].name == path[0].name
    && match FindMember(members, path[0].name)
       case Error => false
       case Ok(m) =>
         var values := FieldValues(v, m.name);
         var i := if hops[0].Field? then 0 else hops[0].index;
         (hops[0].Field? <==> m.shape.Single?) && Picks(m, path[0], |values|, i) && ElementSelected(m, values, i, path, hops)
  }

  ghost predicate ElementSelected(m: Member, values: seq<Value>, i: nat, path: seq<Segment>, hops: seq<Hop>)
    requires path != [] && |hops| == |path|
    decreases |path|, 0
  {
    |path| > 1 ==> m.nested.Message? && i < |values| && Selected(m.nested.members, values[i], path[1..], hops[1..])
  }

  /** Same way up to an array, then a smaller index. */
  ghost predicate Before(p: Place, q: Place) {
    exists k: nat | k < |p| && k < |q| && p[..k] == q[..k] :: p[k].Element? && q[k].Element? && p[k].index < q[k].index
  }

  ghost predicate InOrder(places: seq<Place>) { forall i, j | 0 <= i < j < |places| :: Before(places[i], places[j]) }

  ghost predicate Under(at: Place, p: Place) { |p| >= |at| && p[..|at|] == at }

  /** Collecting succeeds exactly when the path resolves. */
  lemma {:induction false} CollectsIff(members: seq<Member>, v: Value, path: seq<Segment>, at: Place)
    requires path != [] && Conforms(members, v)
    ensures Collect(members, v, path, at).Ok? <==> Resolves(members, v, path)
    decreases |path|, 1
  {
    match FindMember(members, path[0].name)
    case Error =>
    case Ok(m) =>
      var values := FieldValues(v, m.name);
      if m.shape.Single? {
        SingleCollectsIff(m, v, path, at);
        assert Picks(m, path[0], |values|, 0);
      } else {
        SourceExactly(path[0], |path| == 1, |values|);
        if SourceIndices(path[0], |path| == 1, |values|).Ok? {
          ElementsCollectIff(m, values, SourceIndices(path[0], |path| == 1, |values|).value, path, at);
        }
      }
  }

  lemma {:induction false} SingleCollectsIff(m: Member, v: Value, path: seq<Segment>, at: Place)
    requires path != [] && |FieldValues(v, m.name)| == 1
    requires m.nested.Message? ==> Conforms(m.nested.members, FieldValues(v, m.name)[0])
    ensures ElementResolves(m, FieldValues(v, m.name), 0, path) <==>
            |path| == 1 || (m.nested.Message? && Collect(m.nested.members, FieldValues(v, m.name)[0], path[1..], at + [Field(m.name)]).Ok?)
    decreases |path|, 0
  {
    if |path| > 1 && m.nested.Message? {
      CollectsIff(m.nested.members, FieldValues(v, m.name)[0], path[1..], at + [Field(m.name)]);
    }
  }

  lemma {:induction false} ElementsCollectIff(m: Member, values: seq<Value>, indices: seq<nat>, path: seq<Segment>, at: Place)
    requires path != [] && (m.nested.Message? ==> forall x | x in values :: Conforms(m.nested.members, x))
    ensures CollectElements(m, values, indices, path, at).Ok? <==> forall i | i in indices :: ElementResolves(m, values, i, path)
    decreases |path|, 0, |indices|
  {
    if indices != [] {
      var i, rest := indices[0], indices[1..];
      if |path| > 1 && m.nested.Message? && i < |values| {
        CollectsIff(m.nested.members, values[i], path[1..], at + [Element(m.name, i)]);
      }
      ElementsCollectIff(m, values, rest, path, at);
      assert (forall j | j in indices :: ElementResolves(m, values, j, path))
             == (ElementResolves(m, values, i, path) && forall j | j in rest :: ElementResolves(m, values, j, path)) by {
        assert indices == [i] + rest;
        assert forall j :: j in indices <==> j == i || j in rest;
      }
      assert CollectElements(m, values, indices, path, at).Ok? <==> ElementResolves(m, values, i, path) && CollectElements(m, values, rest, path, at).Ok?;
    }
  }

  /** The list holds exactly the selected leaves, in ascending order of their indices. */
  ghost predicate Lists(places: seq<Place>, at: Place, members: seq<Member>, v: Value, path: seq<Segment>)
    requires path != []
  {
    InOrder(places) && forall p :: p in places <==> Under(at, p) && Selected(members, v, path, p[|at|..])
  }

  /** `p` is a selected leaf that leaves `at` through this hop. */
  ghost predicate Via(m: Member, values: seq<Value>, i: nat, hop: Hop, path: seq<Segment>, at: Place, p: Place)
    requires path != []
  {
    Under(at, p) && |p| == |at| + |path| && p[|at|] == hop && ElementSelected(m, values, i, path, p[|at|..])
  }

  ghost predicate ViaElement(m: Member, values: seq<Value>, i: nat, path: seq<Segment>, at: Place, p: Place)
    requires path != []
  { Via(m, values, i, Element(m.name, i), path, at, p) }

  lemma HopUnder(at: Place, hop: Hop, p: Place)
    ensures Under(at + [hop], p) <==> Under(at, p) && |p| > |at| && p[|at|] == hop
    ensures |p| > |at| ==> p[|at|..][1..] == p[|at| + 1..]
  {
    if |p| > |at| { assert p[..|at| + 1] == p[..|at|] + [p[|at|]]; }
  }

  /** Collecting lists exactly the selected leaves, in ascending order of their indices. */
  lemma {:induction false} CollectsExactly(members: seq<Member>, v: Value, path: seq<Segment>, at: Place)
    requires path != [] && Conforms(members, v) && Collect(members, v, path, at).Ok?
    ensures Lists(Collect(members, v, path, at).value, at, members, v, path)
    decreases |path|, 2
  {
    var m := FindMember(members, path[0].name).value;
    var values := FieldValues(v, m.name);
    var places := Collect(members, v, path, at).value;
    if m.shape.Single? {
      ThroughHop(m, values, 0, Field(m.name), path, at, places);
      forall p ensures p in places <==> Under(at, p) && Selected(members, v, path, p[|at|..]) {
        FieldSelected(members, v, path, at, m, p);
      }
    } else {
      SourceExactly(path[0], |path| == 1, |values|);
      var indices := SourceIndices(path[0], |path| == 1, |values|).value;
      ThroughElements(m, values, indices, path, at);
      forall p ensures p in places <==> Under(at, p) && Selected(members, v, path, p[|at|..]) {
        ElementIsSelected(members, v, path, at, m, indices, p);
      }
    }
  }

  lemma FieldSelected(members: seq<Member>, v: Value, path: seq<Segment>, at: Place, m: Member, p: Place)
    requires path != [] && FindMember(members, path[0].name) == Ok(m) && m.shape.Single?
    ensures Via(m, FieldValues(v, m.name), 0, Field(m.name), path, at, p) <==> Under(at, p) && Selected(members, v, path, p[|at|..])
  {
    if Under(at, p) && |p| > |at| { assert p[|at|..][0] == p[|at|]; }
  }

  lemma ElementIsSelected(members: seq<Member>, v: Value, path: seq<Segment>, at: Place, m: Member, indices: seq<nat>, p: Place)
    requires path != [] && FindMember(members, path[0].name) == Ok(m) && !m.shape.Single?
    requires forall i: nat :: i in indices <==> Selects(path[0].selector, |FieldValues(v, m.name)|, i)
    ensures (exists i | i in indices :: ViaElement(m, FieldValues(v, m.name), i, path, at, p))
            <==> Under(at, p) && Selected(members, v, path, p[|at|..])
  {
    if Under(at, p) && |p| > |at| {
      assert p[|at|..][0] == p[|at|];
      if Selected(members, v, path, p[|at|..]) {
        assert ViaElement(m, FieldValues(v, m.name), p[|at|].index, path, at, p);
      }
    }
  }

  lemma {:induction false} ThroughHop(m: Member, values: seq<Value>, i: nat, hop: Hop, path: seq<Segment>, at: Place, places: seq<Place>)
    requires path != [] && i < |values|
    requires if |path| == 1 then places == [at + [hop]]
             else m.nested.Message? && Conforms(m.nested.members, values[i]) && Collect(m.nested.members, values[i], path[1..], at + [hop]) == Ok(places)
    ensures InOrder(places) && forall p :: p in places <==> Via(m, values, i, hop, path, at, p)
    decreases |path|, 0
  {
    if |path| > 1 { CollectsExactly(m.nested.members, values[i], path[1..], at + [hop]); }
    forall p ensures p in places <==> Via(m, values, i, hop, path, at, p) {
      HopUnder(at, hop, p);
      if |path| == 1 && |p| == |at| + 1 { assert p == p[..|at|] + [p[|at|]]; }
    }
  }

  lemma OrderAppend(a: seq<Place>, b: seq<Place>)
    requires InOrder(a) && InOrder(b) && forall p, q | p in a && q in b :: Before(p, q)
    ensures InOrder(a + b)
  {
    var s := a + b;
    forall i, j | 0 <= i < j < |s| ensures Before(s[i], s[j]) {
      if i < |a| <= j { assert s[i] in a && s[j] in b; }
    }
  }

  lemma SmallerIndex(m: Member, values: seq<Value>, i: nat, j: nat, path: seq<Segment>, at: Place, p: Place, q: Place)
    requires path != [] && i < j && ViaElement(m, values, i, path, at, p) && ViaElement(m, values, j, path, at, q)
    ensures Before(p, q)
  {
    assert p[..|at|] == q[..|at|];
  }

  lemma {:induction false} ThroughElements(m: Member, values: seq<Value>, indices: seq<nat>, path: seq<Segment>, at: Place)
    requires path != [] && (m.nested.Message? ==> forall x | x in values :: Conforms(m.nested.members, x))
    requires Ascending(indices) && CollectElements(m, values, indices, path, at).Ok?
    requires forall i | i in indices :: i < |values|
    ensures var places := CollectElements(m, values, indices, path, at).value;
            InOrder(places) && forall p :: p in places <==> exists i | i in indices :: ViaElement(m, values, i, path, at, p)
    decreases |path|, 1, |indices|
  {
    if indices != [] {
      var i, rest := indices[0], indices[1..];
      assert indices == [i] + rest && i in indices;
      assert forall j :: j in indices <==> j == i || j in rest;
      var here := at + [Element(m.name, i)];
      var first := if |path| == 1 then [here] else Collect(m.nested.members, values[i], path[1..], here).value;
      var others := CollectElements(m, values, rest, path, at).value;
      ThroughHop(m, values, i, Element(m.name, i), path, at, first);
      ThroughElements(m, values, rest, path, at);
      forall p, q | p in first && q in others ensures Before(p, q) {
        var j :| j in rest && ViaElement(m, values, j, path, at, q);
        SmallerIndex(m, values, i, j, path, at, p, q);
      }
      OrderAppend(first, others);
    }
  }

  // ---------------------------------------------------------------- the whole message

  /** The encoder accepts a message exactly when every configured path resolves in it. */
  lemma {:induction false} EncodesIff(members: seq<Member>, v: Value, specs: seq<Spec>, k: nat)
    requires Usable(specs) && Conforms(members, v) && k <= |specs|
    ensures EncodeFrom(members, v, specs, k).Ok? <==>
            forall j | k <= j < |specs| :: specs[j].Target? ==> Resolves(members, v, specs[j].path)
    decreases |specs| - k
  {
    if k < |specs| {
      EncodesIff(members, v, specs, k + 1);
      if specs[k].Target? { CollectsIff(members, v, specs[k].path, []); }
      assert EncodeFrom(members, v, specs, k).Ok? <==> Mine(members, v, specs, k).Ok? && EncodeFrom(members, v, specs, k + 1).Ok?;
    }
  }

  /** One entry per computed member, one per selected leaf of a configured path. */
  ghost predicate Wanted(members: seq<Member>, v: Value, specs: seq<Spec>, k: nat, e: Entry)
    requires Usable(specs)
  {
    && k <= e.spec < |specs|
    && match e
       case Unbound(j) => specs[j].Computed?
       case BoundTo(j, place) => specs[j].Target? && Selected(members, v, specs[j].path, place)
  }

  /** Members in configured order, leaves of one member in ascending order of their indices. */
  ghost predicate EntryBefore(a: Entry, b: Entry) {
    a.spec < b.spec || (a.spec == b.spec && a.BoundTo? && b.BoundTo? && Before(a.place, b.place))
  }

  ghost predicate EntriesInOrder(entries: seq<Entry>) { forall i, j | 0 <= i < j < |entries| :: EntryBefore(entries[i], entries[j]) }

  lemma WholePlace(p: Place)
    ensures Under([], p) && p[0..] == p
  {}

  lemma MineExactly(members: seq<Member>, v: Value, specs: seq<Spec>, k: nat)
    requires Usable(specs) && Conforms(members, v) && k < |specs| && Mine(members, v, specs, k).Ok?
    ensures var mine := Mine(members, v, specs, k).value;
            EntriesInOrder(mine) && forall e :: e in mine <==> e.spec == k && Wanted(members, v, specs, k, e)
  {
    match specs[k]
    case Computed(_) =>
    case Target(path, _) =>
      CollectsExactly(members, v, path, []);
      var places := Collect(members, v, path, []).value;
      var mine := Entries(k, places);
      forall i, j | 0 <= i < j < |mine| ensures EntryBefore(mine[i], mine[j]) { assert Before(places[i], places[j]); }
      forall e ensures e in mine <==> e.spec == k && Wanted(members, v, specs, k, e) { EntryIsSelected(members, v, specs, k, places, e); }
  }

  lemma EntryIsSelected(members: seq<Member>, v: Value, specs: seq<Spec>, k: nat, places: seq<Place>, e: Entry)
    requires Usable(specs) && k < |specs| && specs[k].Target?
    requires forall p :: p in places <==> Under([], p) && Selected(members, v, specs[k].path, p[0..])
    ensures e in Entries(k, places) <==> e.spec == k && Wanted(members, v, specs, k, e)
  {
    if e.BoundTo? {
      WholePlace(e.place);
      if e.spec == k && e.place in places {
        var i: nat :| i < |places| && places[i] == e.place;
        assert Entries(k, places)[i] == e;
      }
    }
  }

  /** What the encoder writes: exactly the wanted entries, in order. */
  lemma {:induction false} EncodesExactly(members: seq<Member>, v: Value, specs: seq<Spec>, k: nat)
    requires Usable(specs) && Conforms(members, v) && k <= |specs| && EncodeFrom(members, v, specs, k).Ok?
    ensures var entries := EncodeFrom(members, v, specs, k).value;
            EntriesInOrder(entries) && forall e :: e in entries <==> Wanted(members, v, specs, k, e)
    decreases |specs| - k
  {
    if k < |specs| {
      var mine, rest := Mine(members, v, specs, k).value, EncodeFrom(members, v, specs, k + 1).value;
      MineExactly(members, v, specs, k);
      EncodesExactly(members, v, specs, k + 1);
      assert EncodeFrom(members, v, specs, k).value == mine + rest;
      forall i, j | 0 <= i < j < |mine + rest| ensures EntryBefore((mine + rest)[i], (mine + rest)[j]) {
        if i < |mine| <= j { assert mine[i] in mine && rest[j - |mine|] in rest; }
      }
    }
  }

  // ---------------------------------------------------------------- what the decoder's plan accepts

  /** Judged from the schema: an index is never checked here, a bounded slice only against a fixed size, and only
      the last array may be taken whole or with an open slice. */
  predicate SegmentPlans(m: Member, s: Segment, last: bool) {
    if m.shape.Single? then s.selector.NoSelector?
    else
      match s.selector
      case At(_) => true
      case Slice(start, Until(stop), _) => m.shape.Fixed? ==> stop <= m.shape.size
      case Slice(start, Open, _) => last && (m.shape.Fixed? ==> start <= m.shape.size)
      case NoSelector => last
  }

  /** The path ends in a dynamic array taken whole or with an open slice. */
  predicate OpenEnded(members: seq<Member>, path: seq<Segment>)
    requires path != []
    decreases |path|
  {
    match FindMember(members, path[0].name)
    case Error => false
    case Ok(m) =>
      if |path| > 1 then m.nested.Message? && OpenEnded(m.nested.members, path[1..])
      else m.shape.Dynamic? && (path[0].selector.NoSelector? || (path[0].selector.Slice? && path[0].selector.stop.Open?))
  }

  /** The path can be counted: names known, segments well-formed, messages in the middle, and nothing
      open-ended below an array. */
  predicate Plans(members: seq<Member>, path: seq<Segment>)
    requires path != []
    decreases |path|
  {
    match FindMember(members, path[0].name)
    case Error => false
    case Ok(m) =>
      && SegmentPlans(m, path[0], |path| == 1)
      && (|path| > 1 ==>
            && m.nested.Message? && Plans(m.nested.members, path[1..])
            && (OpenEnded(m.nested.members, path[1..]) ==> m.shape.Single?))
  }

  lemma {:induction false} CountsIff(members: seq<Member>, path: seq<Segment>)
    requires path != []
    ensures SelectionCount(members, path).Ok? <==> Plans(members, path)
    ensures SelectionCount(members, path) == Ok(Unbounded) <==> Plans(members, path) && OpenEnded(members, path)
    decreases |path|
  {
    match FindMember(members, path[0].name)
    case Error =>
    case Ok(m) => if |path| > 1 && m.nested.Message? { CountsIff(m.nested.members, path[1..]); }
  }

  ghost predicate SpecPlans(members: seq<Member>, spec: Spec)
    requires spec.Target? ==> spec.path != []
  { spec.Target? ==> Plans(members, spec.path) }

  ghost predicate SpecOpen(members: seq<Member>, spec: Spec)
    requires spec.Target? ==> spec.path != []
  { spec.Target? && OpenEnded(members, spec.path) }

  /** The decoder accepts a configuration exactly when every path can be counted and at most one is open-ended. */
  lemma PlansIff(members: seq<Member>, specs: seq<Spec>)
    requires Usable(specs)
    ensures PlanFrom(members, specs, 0, NO_PLAN).Ok? <==>
            && (forall j | 0 <= j < |specs| :: SpecPlans(members, specs[j]))
            && (forall i, j | 0 <= i < |specs| && 0 <= j < |specs| && SpecOpen(members, specs[i]) && SpecOpen(members, specs[j]) :: i == j)
  {
    PlansFrom(members, specs, 0, NO_PLAN);
  }

  lemma SpecCountIff(members: seq<Member>, spec: Spec)
    requires spec.Target? ==> spec.path != []
    ensures SpecCount(members, spec).Ok? <==> SpecPlans(members, spec)
    ensures SpecCount(members, spec) == Ok(Unbounded) <==> SpecPlans(members, spec) && SpecOpen(members, spec)
  {
    if spec.Target? { CountsIff(members, spec.path); }
  }

  lemma {:induction false} PlansFrom(members: seq<Member>, specs: seq<Spec>, k: nat, plan: Plan)
    requires Usable(specs) && k <= |specs|
    ensures PlanFrom(members, specs, k, plan).Ok? <==>
            && (forall j | k <= j < |specs| :: SpecPlans(members, specs[j]))
            && (forall i, j | k <= i < |specs| && k <= j < |specs| && SpecOpen(members, specs[i]) && SpecOpen(members, specs[j]) :: i == j)
            && (plan.open.Ok? ==> forall j | k <= j < |specs| :: !SpecOpen(members, specs[j]))
    decreases |specs| - k
  {
    if k < |specs| {
      SpecCountIff(members, specs[k]);
      match SpecCount(members, specs[k])
      case Error =>
      case Ok(Unbounded) => if plan.open.Error? { PlansFrom(members, specs, k + 1, plan.(open := Ok(k))); }
      case Ok(Exactly(n)) => PlansFrom(members, specs, k + 1, plan.(fixedBytes := plan.fixedBytes + n * specs[k].width));
    }
  }

  // ---------------------------------------------------------------- what the decoder binds

  predicate EmptySlice(s: Selector) { s.Slice? && s.stop.Until? && s.start >= s.stop.stop }

  /** Every index the path takes of a fixed array is inside it; nothing is asked below an empty slice. */
  predicate Fits(members: seq<Member>, path: seq<Segment>)
    requires path != []
    decreases |path|
  {
    match FindMember(members, path[0].name)
    case Error => false
    case Ok(m) =>
      && (m.shape.Fixed? && path[0].selector.At? ==> path[0].selector.index < m.shape.size)
      && (|path| > 1 && !EmptySlice(path[0].selector) ==> m.nested.Message? && Fits(m.nested.members, path[1..]))
  }

  lemma DestinationIff(m: Member, s: Segment, last: bool, size: nat, count: Result<nat>)
    requires !m.shape.Single? && SegmentPlans(m, s, last) && (m.shape.Fixed? ==> size == m.shape.size)
    requires count.Ok? ==> m.shape.Dynamic? && last
    ensures DestinationIndices(m, s, last, size, count).Ok? <==> (m.shape.Fixed? && s.selector.At? ==> s.selector.index < m.shape.size)
    ensures DestinationIndices(m, s, last, size, count).Ok? && !last ==>
      (DestinationIndices(m, s, last, size, count).value == [] <==> EmptySlice(s.selector))
  {}

  /** A path that can be counted is bound exactly when it fits the fixed arrays, whatever the destination holds. */
  lemma {:induction false} BindsIff(members: seq<Member>, sizes: Sizes, path: seq<Segment>, at: Place, count: Result<nat>)
    requires path != [] && Plans(members, path) && (count.Ok? <==> OpenEnded(members, path))
    ensures Bind(members, sizes, path, at, count).Ok? <==> Fits(members, path)
    decreases |path|, 1
  {
    var m := FindMember(members, path[0].name).value;
    var last := |path| == 1;
    if m.shape.Single? {
      if !last { BindsIff(m.nested.members, sizes, path[1..], at + [Field(m.name)], count); }
    } else {
      var field := at + [Field(m.name)];
      var size := SizeAt(m, sizes, field);
      DestinationIff(m, path[0], last, size, count);
      if DestinationIndices(m, path[0], last, size, count).Ok? {
        var grown := if m.shape.Dynamic? then Grow(sizes, field, RequiredSize(path[0], count)) else sizes;
        ElementsBindIff(m, grown, DestinationIndices(m, path[0], last, size, count).value, path, at, count);
      }
    }
  }

  lemma {:induction false} ElementsBindIff(m: Member, sizes: Sizes, indices: seq<nat>, path: seq<Segment>, at: Place, count: Result<nat>)
    requires path != []
    requires |path| > 1 ==> m.nested.Message? && Plans(m.nested.members, path[1..]) && (count.Ok? <==> OpenEnded(m.nested.members, path[1..]))
    ensures BindElements(m, sizes, indices, path, at, count).Ok? <==> indices == [] || |path| == 1 || Fits(m.nested.members, path[1..])
    decreases |path|, 0, |indices|
  {
    if indices != [] {
      var here := at + [Element(m.name, indices[0])];
      if |path| == 1 {
        ElementsBindIff(m, sizes, indices[1..], path, at, count);
      } else {
        BindsIff(m.nested.members, sizes, path[1..], here, count);
        var first := Bind(m.nested.members, sizes, path[1..], here, count);
        if first.Ok? { ElementsBindIff(m, first.value.sizes, indices[1..], path, at, count); }
      }
    }
  }

  lemma {:induction false} BindsAllIff(members: seq<Member>, specs: seq<Spec>, plan: Plan, count: Result<nat>, sizes: Sizes, k: nat)
    requires Usable(specs) && k <= |specs| && PlanFrom(members, specs, 0, NO_PLAN) == Ok(plan) && (count.Ok? <==> plan.open.Ok?)
    ensures DecodeFrom(members, specs, plan, count, sizes, k).Ok? <==>
            forall j | k <= j < |specs| :: specs[j].Target? ==> Fits(members, specs[j].path)
    decreases |specs| - k
  {
    if k < |specs| {
      match specs[k]
      case Computed(_) => BindsAllIff(members, specs, plan, count, sizes, k + 1);
      case Target(path, _) =>
        PlannedOpen(members, specs, 0, NO_PLAN, k);
        CountsIff(members, path);
        BindsIff(members, sizes, path, [], CountFor(plan, count, k));
        var bound := Bind(members, sizes, path, [], CountFor(plan, count, k));
        if bound.Ok? { BindsAllIff(members, specs, plan, count, bound.value.sizes, k + 1); }
    }
  }

  /** The decoder accepts a payload exactly when its plan is accepted, the size is that of some element count,
      and every path fits the fixed arrays. */
  lemma DecodesIff(members: seq<Member>, specs: seq<Spec>, size: nat)
    requires Usable(specs)
    ensures var planned := PlanFrom(members, specs, 0, NO_PLAN);
            && (planned.Ok? && planned.value.open.Ok? ==> planned.value.open.value < |specs|)
            && (Decode(members, specs, size).Ok? <==>
                  && planned.Ok?
                  && (exists count: Result<nat> :: (count.Ok? <==> planned.value.open.Ok?) && size == PayloadSize(specs, planned.value, count))
                  && forall j | 0 <= j < |specs| :: specs[j].Target? ==> Fits(members, specs[j].path))
  {
    OpenInRange(members, specs, 0, NO_PLAN);
    var planned := PlanFrom(members, specs, 0, NO_PLAN);
    if planned.Ok? {
      forall count: Result<nat> ensures InferCount(specs, planned.value, size) == Counted(count)
                           <==> (count.Ok? <==> planned.value.open.Ok?) && size == PayloadSize(specs, planned.value, count)
      {
        InferredIff(specs, planned.value, size, count);
      }
      if InferCount(specs, planned.value, size).Counted? {
        BindsAllIff(members, specs, planned.value, InferCount(specs, planned.value, size).count, map[], 0);
      }
    }
  }
}
