/** What the exact evaluator computes: complete on every well-formed relation with any blanks, sound on
    every input, and exact: values are those of unbounded integers with truncating division. */
module ExprTheorems {
  import opened ExprText
  import opened IntegerExpr

  /** Checked evaluation of the syntax tree, operands left to right. */
  function Check(c: Cst, resolve: Resolver): Outcome {
    match c
    case Number(_, digits) => if DigitsFrom(0, digits) > MAXIMUM then Failed(LiteralOverflow) else Value(DigitsFrom(0, digits))
    case Numeral(_, whole, mark, _) => if NumeralMark(whole, mark) then CheckNumeral(whole) else Floating
    case Name(_, name) => Lookup(name, resolve)
    case Applied(_, _, _, _, _) => Floating
    case Group(_, inner, _) => Check(inner, resolve)
    case Sign(_, minus, operand) =>
      var o := Check(operand, resolve);
      if o.Value? && minus then Negated(o.value) else o
    case Binary(left, _, op, right) =>
      var a := Check(left, resolve);
      if !a.Value? then a
      else
        var b := Check(right, resolve);
        if !b.Value? then b else Apply(op, a.value, b.value)
  }

  /** A literal with a point or exponent asks for the floating path, unless its leading digits overflow. */
  function CheckNumeral(whole: string): Outcome
    requires forall i | 0 <= i < |whole| :: IsDigit(whole[i])
  {
    if DigitsFrom(0, whole) > MAXIMUM then Failed(LiteralOverflow) else Floating
  }

  function Lookup(name: string, resolve: Resolver): Outcome {
    if name == "pi" then Floating
    else
      match resolve(name)
      case Integral(value) => Value(value)
      case Declined => Floating
      case Threw => Failed(ResolverThrew)
  }

  // ---------------------------------------------------------------- completeness

  /** The parser read exactly `c`, up to blanks: its value, or the failure of its evaluation. */
  predicate Reads(p: Parsed, o: Outcome, rest: string) {
    if o.Value? then p.Done? && p.value == o.value && Skip(p.rest) == Skip(rest) else p == Stop(o)
  }

  lemma {:induction false} LiteralReads(acc: ExactInteger, digits: string, rest: string)
    requires acc >= 0 && (forall i | 0 <= i < |digits| :: IsDigit(digits[i])) && (rest != "" ==> !IsNameChar(rest[0]))
    ensures Literal(acc, digits + rest)
            == if DigitsFrom(acc, digits) > MAXIMUM then Stop(Failed(LiteralOverflow)) else Done(DigitsFrom(acc, digits), rest)
    decreases |digits|
  {
    if digits == "" {
      assert digits + rest == rest;
    } else {
      var next := 10 * acc + DigitValue(digits[0]);
      assert (digits + rest)[1..] == digits[1..] + rest;
      if next > MAXIMUM { DigitsGrow(next, digits[1..]); } else { LiteralReads(next, digits[1..], rest); }
    }
  }

  lemma {:induction false} NumeralStops(acc: ExactInteger, whole: string, mark: char, rest: string)
    requires acc >= 0 && (forall i | 0 <= i < |whole| :: IsDigit(whole[i])) && mark in ['.', 'e', 'E']
    ensures Literal(acc, whole + ([mark] + rest))
            == if DigitsFrom(acc, whole) > MAXIMUM then Stop(Failed(LiteralOverflow)) else Stop(Floating)
    decreases |whole|
  {
    var s := whole + ([mark] + rest);
    if whole == "" {
      assert s == [mark] + rest && s[0] == mark;
    } else {
      var next := 10 * acc + DigitValue(whole[0]);
      assert s[0] == whole[0] && s[1..] == whole[1..] + ([mark] + rest);
      if next > MAXIMUM { DigitsGrow(next, whole[1..]); } else { NumeralStops(next, whole[1..], mark, rest); }
    }
  }

  lemma ProductTailSkips(v: ExactInteger, s: string, t: string, resolve: Resolver)
    requires Skip(s) == Skip(t)
    ensures ProductTail(v, s, resolve) == ProductTail(v, t, resolve)
  {}

  lemma SumTailSkips(v: ExactInteger, s: string, t: string, resolve: Resolver)
    requires Skip(s) == Skip(t)
    ensures SumTail(v, s, resolve) == SumTail(v, t, resolve)
  {}

  lemma SkipTwice(s: string)
    ensures Skip(Skip(s)) == Skip(s)
  {}

  lemma UnarySkips(ws: string, s: string, resolve: Resolver)
    requires Spaces(ws)
    ensures Unary(ws + s, resolve) == Unary(s, resolve) && Primary(ws + s, resolve) == Primary(s, resolve)
  {
    SkipSpaces(ws, s);
  }

  lemma NumberReads(ws: string, digits: DigitText, rest: string, resolve: Resolver)
    requires Spaces(ws) && EndsToken(rest)
    ensures Reads(Primary(ws + (digits + rest), resolve), Check(Number(ws, digits), resolve), rest)
  {
    UnarySkips(ws, digits + rest, resolve);
    assert (digits + rest)[0] == digits[0];
    LiteralReads(0, digits, rest);
  }

  lemma NumeralReads(ws: string, whole: string, mark: char, fraction: string, rest: string, resolve: Resolver)
    requires Spaces(ws) && NumeralMark(whole, mark)
    ensures var c := Numeral(ws, whole, mark, fraction); Reads(Primary(Text(c) + rest, resolve), Check(c, resolve), rest)
  {
    var body := whole + ([mark] + (fraction + rest));
    assert Text(Numeral(ws, whole, mark, fraction)) + rest == ws + body;
    UnarySkips(ws, body, resolve);
    if whole == "" {
      assert body == [mark] + (fraction + rest) && body[0] == mark;
    } else {
      assert body[0] == whole[0];
      NumeralStops(0, whole, mark, fraction + rest);
    }
  }

  lemma NameOpens(name: string, gap: string, body: string)
    requires NameText(name) && Spaces(gap)
    ensures var s := name + (gap + (['('] + body));
            s != "" && s[0] == name[0] && NameLength(s) == |name| && s[..|name|] == name && Skip(s[|name|..]) == ['('] + body
  {
    var after := gap + (['('] + body);
    SkipSpaces(gap, ['('] + body);
    assert after[0] == if gap == "" then '(' else gap[0];
    NameLengthIs(name, after);
    assert (name + after)[|name|..] == after;
  }

  lemma CallReads(ws: string, name: string, gap: string, args: CstList, close: string, rest: string, resolve: Resolver)
    requires Spaces(ws) && NameText(name) && Spaces(gap)
    ensures var c := Applied(ws, name, gap, args, close); Reads(Primary(Text(c) + rest, resolve), Check(c, resolve), rest)
  {
    var body := ArgumentsText(args) + ((close + ")") + rest);
    var s := name + (gap + (['('] + body));
    assert Text(Applied(ws, name, gap, args, close)) + rest == ws + s;
    UnarySkips(ws, s, resolve);
    NameOpens(name, gap, body);
  }

  lemma NameReads(ws: string, name: string, rest: string, resolve: Resolver)
    requires Spaces(ws) && NameText(name) && EndsToken(rest)
    ensures Reads(Primary(ws + (name + rest), resolve), Check(Name(ws, name), resolve), rest)
  {
    UnarySkips(ws, name + rest, resolve);
    assert (name + rest)[0] == name[0];
    NameLengthIs(name, rest);
    assert (name + rest)[..|name|] == name && (name + rest)[|name|..] == rest;
    SkipTwice(rest);
  }

  lemma {:induction false} PrimaryReads(c: Cst, rest: string, resolve: Resolver)
    requires Fits(c, PrimaryLevel) && EndsToken(rest)
    ensures Reads(Primary(Text(c) + rest, resolve), Check(c, resolve), rest)
    decreases c, 0
  {
    match c
    case Number(ws, digits) =>
      assert Text(c) + rest == ws + (digits + rest);
      NumberReads(ws, digits, rest, resolve);
    case Numeral(ws, whole, mark, fraction) => NumeralReads(ws, whole, mark, fraction, rest, resolve);
    case Applied(ws, name, gap, args, close) => CallReads(ws, name, gap, args, close, rest, resolve);
    case Name(ws, name) =>
      assert Text(c) + rest == ws + (name + rest);
      NameReads(ws, name, rest, resolve);
    case Group(ws, inner, close) =>
      OperatorEndsToken(close, ')', rest);
      SumReads(inner, close + ([')'] + rest), resolve);
      GroupReads(ws, inner, close, rest, resolve);
  }

  lemma GroupReads(ws: string, inner: Cst, close: string, rest: string, resolve: Resolver)
    requires Spaces(ws) && Spaces(close) && Fits(inner, SumLevel)
    requires var after := close + ([')'] + rest); Reads(Sum(Text(inner) + after, resolve), Check(inner, resolve), after)
    ensures var c := Group(ws, inner, close); Reads(Primary(Text(c) + rest, resolve), Check(c, resolve), rest)
  {
    var after := close + ([')'] + rest);
    var body := Text(inner) + after;
    assert Text(Group(ws, inner, close)) + rest == ws + (['('] + body);
    UnarySkips(ws, ['('] + body, resolve);
    OperatorEndsToken(close, ')', rest);
    assert (['('] + body)[1..] == body;
    assert ([')'] + rest)[1..] == rest;
  }

  lemma SignReads(ws: string, minus: bool, operand: Cst, rest: string, resolve: Resolver)
    requires Spaces(ws) && Reads(Unary(Text(operand) + rest, resolve), Check(operand, resolve), rest)
    ensures Reads(Unary(Text(Sign(ws, minus, operand)) + rest, resolve), Check(Sign(ws, minus, operand), resolve), rest)
  {
    var mark := if minus then "-" else "+";
    var body := Text(operand) + rest;
    assert Text(Sign(ws, minus, operand)) + rest == ws + (mark + body);
    UnarySkips(ws, mark + body, resolve);
    assert (mark + body)[1..] == body;
  }

  lemma {:induction false} UnaryReads(c: Cst, rest: string, resolve: Resolver)
    requires Fits(c, UnaryLevel) && EndsToken(rest)
    ensures Reads(Unary(Text(c) + rest, resolve), Check(c, resolve), rest)
    decreases c, 2
  {
    match c
    case Sign(ws, minus, operand) =>
      UnaryReads(operand, rest, resolve);
      SignReads(ws, minus, operand, rest, resolve);
    case Number(ws, digits) => PrimaryUnary(c, ws, digits, rest, resolve);
    case Numeral(ws, whole, mark, fraction) =>
      assert NumeralText(whole, mark, fraction)[0] == if whole == "" then mark else whole[0];
      PrimaryUnary(c, ws, NumeralText(whole, mark, fraction), rest, resolve);
    case Applied(ws, name, gap, args, close) =>
      PrimaryUnary(c, ws, name + (gap + ("(" + (ArgumentsText(args) + (close + ")")))), rest, resolve);
    case Name(ws, name) => PrimaryUnary(c, ws, name, rest, resolve);
    case Group(ws, inner, close) => PrimaryUnary(c, ws, ['('] + (Text(inner) + (close + ")")), rest, resolve);
  }

  lemma {:induction false} PrimaryUnary(c: Cst, ws: string, body: string, rest: string, resolve: Resolver)
    requires Fits(c, PrimaryLevel) && EndsToken(rest) && Spaces(ws) && Text(c) == ws + body
    requires body != "" && !IsSpace(body[0]) && body[0] != '+' && body[0] != '-'
    ensures Reads(Unary(Text(c) + rest, resolve), Check(c, resolve), rest)
    decreases c, 1
  {
    PrimaryReads(c, rest, resolve);
    assert Text(c) + rest == ws + (body + rest);
    UnarySkips(ws, body + rest, resolve);
    assert (body + rest)[0] == body[0];
  }

  /** After reading `c` the product loop goes on with its value. */
  lemma {:induction false} ProductThen(c: Cst, rest: string, resolve: Resolver)
    requires Fits(c, ProductLevel) && EndsToken(rest)
    ensures Check(c, resolve).Value? ==> Product(Text(c) + rest, resolve) == ProductTail(Check(c, resolve).value, rest, resolve)
    ensures !Check(c, resolve).Value? ==> Product(Text(c) + rest, resolve) == Stop(Check(c, resolve))
    decreases c, 3
  {
    if c.Binary? {
      var tail := c.ws + ([c.op] + (Text(c.right) + rest));
      assert Text(c) + rest == Text(c.left) + tail;
      OperatorEndsToken(c.ws, c.op, Text(c.right) + rest);
      ProductThen(c.left, tail, resolve);
      assert ([c.op] + (Text(c.right) + rest))[1..] == Text(c.right) + rest;
      UnaryReads(c.right, rest, resolve);
      if Check(c.left, resolve).Value? {
        ProductStep(Check(c.left, resolve), c.op, tail, Text(c.right) + rest, Check(c.right, resolve), rest, resolve);
      }
    } else {
      UnaryReads(c, rest, resolve);
      var p := Unary(Text(c) + rest, resolve);
      if p.Done? { ProductTailSkips(p.value, p.rest, rest, resolve); }
    }
  }

  lemma ProductStep(a: Outcome, op: char, tail: string, body: string, b: Outcome, rest: string, resolve: Resolver)
    requires a.Value? && Multiplicative(op) && Skip(tail) == [op] + body && Reads(Unary(body, resolve), b, rest)
    ensures b.Value? && Apply(op, a.value, b.value).Value? ==>
              ProductTail(a.value, tail, resolve) == ProductTail(Apply(op, a.value, b.value).value, rest, resolve)
    ensures b.Value? && !Apply(op, a.value, b.value).Value? ==>
              ProductTail(a.value, tail, resolve) == Stop(Apply(op, a.value, b.value))
    ensures !b.Value? ==> ProductTail(a.value, tail, resolve) == Stop(b)
  {
    assert ([op] + body)[1..] == body;
    var p := Unary(body, resolve);
    if p.Done? && Apply(op, a.value, p.value).Value? {
      ProductTailSkips(Apply(op, a.value, p.value).value, p.rest, rest, resolve);
    }
  }

  lemma ProductReads(c: Cst, rest: string, resolve: Resolver)
    requires Fits(c, ProductLevel) && EndsProduct(rest)
    ensures Reads(Product(Text(c) + rest, resolve), Check(c, resolve), rest)
    decreases c, 4
  {
    ProductThen(c, rest, resolve);
    SkipTwice(rest);
  }

  lemma SumStep(a: Outcome, op: char, tail: string, body: string, b: Outcome, rest: string, resolve: Resolver)
    requires a.Value? && Additive(op) && Skip(tail) == [op] + body && Reads(Product(body, resolve), b, rest)
    ensures b.Value? && Apply(op, a.value, b.value).Value? ==>
              SumTail(a.value, tail, resolve) == SumTail(Apply(op, a.value, b.value).value, rest, resolve)
    ensures b.Value? && !Apply(op, a.value, b.value).Value? ==>
              SumTail(a.value, tail, resolve) == Stop(Apply(op, a.value, b.value))
    ensures !b.Value? ==> SumTail(a.value, tail, resolve) == Stop(b)
  {
    assert ([op] + body)[1..] == body;
    var p := Product(body, resolve);
    if p.Done? && Apply(op, a.value, p.value).Value? {
      SumTailSkips(Apply(op, a.value, p.value).value, p.rest, rest, resolve);
    }
  }

  /** After reading `c` the sum loop goes on with its value: operators associate to the left. */
  lemma {:induction false} SumThen(c: Cst, rest: string, resolve: Resolver)
    requires Fits(c, SumLevel) && EndsProduct(rest)
    ensures Check(c, resolve).Value? ==> Sum(Text(c) + rest, resolve) == SumTail(Check(c, resolve).value, rest, resolve)
    ensures !Check(c, resolve).Value? ==> Sum(Text(c) + rest, resolve) == Stop(Check(c, resolve))
    decreases c, 5
  {
    if c.Binary? && Additive(c.op) {
      var tail := c.ws + ([c.op] + (Text(c.right) + rest));
      assert Text(c) + rest == Text(c.left) + tail;
      OperatorEndsToken(c.ws, c.op, Text(c.right) + rest);
      SumThen(c.left, tail, resolve);
      ProductReads(c.right, rest, resolve);
      if Check(c.left, resolve).Value? {
        SumStep(Check(c.left, resolve), c.op, tail, Text(c.right) + rest, Check(c.right, resolve), rest, resolve);
      }
    } else {
      ProductReads(c, rest, resolve);
      var p := Product(Text(c) + rest, resolve);
      if p.Done? { SumTailSkips(p.value, p.rest, rest, resolve); }
    }
  }

  lemma {:induction false} SumReads(c: Cst, rest: string, resolve: Resolver)
    requires Fits(c, SumLevel) && EndsSum(rest)
    ensures Reads(Sum(Text(c) + rest, resolve), Check(c, resolve), rest)
    decreases c, 6
  {
    SumThen(c, rest, resolve);
    SkipTwice(rest);
  }

  /** Completeness: on every well-formed relation, with any blanks between and after its tokens, the
      evaluator returns exactly the left-associative checked value, or fails exactly as it does. */
  lemma Complete(c: Cst, trailing: string, resolve: Resolver)
    requires Fits(c, SumLevel) && Spaces(trailing)
    ensures EvaluateInteger(Text(c) + trailing, resolve) == Check(c, resolve)
  {
    SkipSpaces(trailing, "");
    assert trailing + "" == trailing;
    assert trailing != "" ==> IsSpace(trailing[0]);
    SumReads(c, trailing, resolve);
  }

  lemma OperandFirst(ws: string, body: string, resolve: Resolver)
    requires Spaces(ws) && body != "" && !IsSpace(body[0]) && body[0] != '+' && body[0] != '-'
    ensures Primary(body, resolve).Stop? ==> EvaluateInteger(ws + body, resolve) == Primary(body, resolve).outcome
  {
    UnarySkips(ws, body, resolve);
    assert Unary(ws + body, resolve) == Primary(body, resolve);
    if Primary(body, resolve).Stop? { assert Product(ws + body, resolve) == Primary(body, resolve); }
  }

  /** A first literal with a decimal point or exponent asks for the floating path whatever follows, unless the
      digits before the mark overflow. */
  lemma PointAsksForFloating(ws: string, whole: string, mark: char, rest: string, resolve: Resolver)
    requires Spaces(ws) && NumeralMark(whole, mark)
    ensures EvaluateInteger(ws + (whole + ([mark] + rest)), resolve)
            == if DigitsFrom(0, whole) > MAXIMUM then Failed(LiteralOverflow) else Floating
  {
    var body := whole + ([mark] + rest);
    if whole == "" {
      assert body == [mark] + rest && body[0] == mark;
    } else {
      assert body[0] == whole[0];
      NumeralStops(0, whole, mark, rest);
    }
    OperandFirst(ws, body, resolve);
  }

  /** So does a first call, of whatever name, whatever follows its opening parenthesis. */
  lemma CallAsksForFloating(ws: string, name: string, gap: string, rest: string, resolve: Resolver)
    requires Spaces(ws) && NameText(name) && Spaces(gap)
    ensures EvaluateInteger(ws + (name + (gap + (['('] + rest))), resolve) == Floating
  {
    NameOpens(name, gap, rest);
    OperandFirst(ws, name + (gap + (['('] + rest)), resolve);
  }

  // ---------------------------------------------------------------- soundness

  lemma Prepended(d: char, more: string, rest: string)
    ensures ([d] + more) + rest == [d] + (more + rest)
  {}

  lemma {:induction false} LiteralSound(acc: ExactInteger, s: string) returns (digits: string)
    requires acc >= 0 && Literal(acc, s).Done?
    ensures (forall i | 0 <= i < |digits| :: IsDigit(digits[i])) && digits + Literal(acc, s).rest == s
    ensures DigitsFrom(acc, digits) == Literal(acc, s).value
    ensures s != "" && IsDigit(s[0]) ==> digits != ""
    decreases |s|
  {
    if s != "" && IsDigit(s[0]) {
      var next := 10 * acc + DigitValue(s[0]);
      var more := LiteralSound(next, s[1..]);
      digits := [s[0]] + more;
      assert digits[0] == s[0] && digits[1..] == more;
      Prepended(s[0], more, Literal(next, s[1..]).rest);
      assert s == [s[0]] + s[1..];
    } else {
      digits := "";
    }
  }

  /** `c` followed by the blanks `gap` is what the parser consumed of `s`. */
  predicate Consumed(s: string, c: Cst, gap: string, rest: string) { s == Text(c) + (gap + rest) && Spaces(gap) }

  lemma GroupText(ws: string, inner: Cst, close: string, more: string, rest: string)
    ensures Text(Group(ws, inner, close + more)) + ("" + rest) == ws + (['('] + (Text(inner) + (close + (more + ([')'] + rest)))))
  {
    assert "" + rest == rest;
  }

  /** The pieces of a parenthesised operand. */
  lemma GroupParts(s: string, resolve: Resolver)
    requires Primary(s, resolve).Done? && Starts(Skip(s), '(')
    ensures Sum(Skip(s)[1..], resolve).Done? && Primary(s, resolve).value == Sum(Skip(s)[1..], resolve).value
    ensures Starts(Skip(Sum(Skip(s)[1..], resolve).rest), ')')
    ensures Primary(s, resolve).rest == Skip(Sum(Skip(s)[1..], resolve).rest)[1..]
  {}

  lemma Opens(s: string, x: char)
    requires Starts(s, x)
    ensures s == [x] + s[1..]
  {}

  lemma {:induction false} GroupSound(s: string, resolve: Resolver) returns (c: Cst, gap: string)
    requires Primary(s, resolve).Done? && Starts(Skip(s), '(')
    ensures Fits(c, PrimaryLevel) && Check(c, resolve) == Value(Primary(s, resolve).value)
    ensures Consumed(s, c, gap, Primary(s, resolve).rest)
    decreases |s|, 0, 0
  {
    var ws := Skipped(s);
    var t := Skip(s);
    GroupParts(s, resolve);
    var inner, close := SumSound(t[1..], resolve);
    var after := Sum(t[1..], resolve).rest;
    var more := Skipped(after);
    c, gap := Group(ws, inner, close + more), "";
    Opens(t, '(');
    Opens(Skip(after), ')');
    GroupConsumed(s, ws, t, inner, close, after, more, Primary(s, resolve).rest);
  }

  lemma GroupConsumed(s: string, ws: string, t: string, inner: Cst, close: string, after: string, more: string, rest: string)
    requires t != "" && s == ws + t && t == ['('] + t[1..] && t[1..] == Text(inner) + (close + after) && after == more + ([')'] + rest)
    ensures Consumed(s, Group(ws, inner, close + more), "", rest)
  {
    GroupText(ws, inner, close, more, rest);
  }

  lemma NumberSound(s: string, resolve: Resolver) returns (c: Cst, gap: string)
    requires Primary(s, resolve).Done? && Skip(s) != "" && IsDigit(Skip(s)[0])
    ensures Fits(c, PrimaryLevel) && Check(c, resolve) == Value(Primary(s, resolve).value)
    ensures Consumed(s, c, gap, Primary(s, resolve).rest)
  {
    var ws := Skipped(s);
    var digits := LiteralSound(0, Skip(s));
    c, gap := Number(ws, digits), "";
    assert Text(c) + (gap + Primary(s, resolve).rest) == ws + (digits + Primary(s, resolve).rest);
  }

  lemma NameSound(s: string, resolve: Resolver) returns (c: Cst, gap: string)
    requires Skip(s) != "" && IsNameStart(Skip(s)[0]) && Identifier(Skip(s), resolve).Done?
    ensures Fits(c, PrimaryLevel) && Check(c, resolve) == Value(Identifier(Skip(s), resolve).value)
    ensures Consumed(s, c, gap, Identifier(Skip(s), resolve).rest)
  {
    var ws := Skipped(s);
    var t := Skip(s);
    var n := NameLength(t);
    gap := Skipped(t[n..]);
    c := Name(ws, t[..n]);
    NameConsumed(s, ws, t, n, gap, Skip(t[n..]));
  }

  lemma NameConsumed(s: string, ws: string, t: string, n: nat, gap: string, rest: string)
    requires s == ws + t && n <= |t| && t[n..] == gap + rest && Spaces(gap)
    ensures s == (ws + t[..n]) + (gap + rest)
  {
    assert t == t[..n] + t[n..];
  }

  lemma {:induction false} PrimarySound(s: string, resolve: Resolver) returns (c: Cst, gap: string)
    requires Primary(s, resolve).Done?
    ensures Fits(c, PrimaryLevel) && Check(c, resolve) == Value(Primary(s, resolve).value)
    ensures Consumed(s, c, gap, Primary(s, resolve).rest)
    decreases |s|, 0
  {
    if Starts(Skip(s), '(') {
      c, gap := GroupSound(s, resolve);
    } else if IsDigit(Skip(s)[0]) {
      c, gap := NumberSound(s, resolve);
    } else {
      c, gap := NameSound(s, resolve);
    }
  }

  lemma SignText(ws: string, minus: bool, operand: Cst, tail: string)
    ensures Text(Sign(ws, minus, operand)) + tail == ws + ([if minus then '-' else '+'] + (Text(operand) + tail))
  {}

  lemma {:induction false} UnarySound(s: string, resolve: Resolver) returns (c: Cst, gap: string)
    requires Unary(s, resolve).Done?
    ensures Fits(c, UnaryLevel) && Check(c, resolve) == Value(Unary(s, resolve).value)
    ensures Consumed(s, c, gap, Unary(s, resolve).rest)
    decreases |s|, 1
  {
    var t := Skip(s);
    var ws := Skipped(s);
    if Starts(t, '+') || Starts(t, '-') {
      var operand;
      operand, gap := UnarySound(t[1..], resolve);
      c := Sign(ws, t[0] == '-', operand);
      HeadTail(t);
      SignText(ws, t[0] == '-', operand, gap + Unary(t[1..], resolve).rest);
    } else {
      var inner;
      inner, gap := PrimarySound(t, resolve);
      c := Indented(ws, inner);
      IndentedSame(ws, inner, resolve);
      assert Text(c) + (gap + Unary(s, resolve).rest) == ws + (Text(inner) + (gap + Unary(s, resolve).rest));
    }
  }

  /** Leading blanks belong to the first token. */
  function Indented(ws: string, c: Cst): Cst {
    match c
    case Number(more, digits) => Number(ws + more, digits)
    case Numeral(more, whole, mark, fraction) => Numeral(ws + more, whole, mark, fraction)
    case Name(more, name) => Name(ws + more, name)
    case Applied(more, name, gap, args, close) => Applied(ws + more, name, gap, args, close)
    case Group(more, inner, close) => Group(ws + more, inner, close)
    case Sign(more, minus, operand) => Sign(ws + more, minus, operand)
    case Binary(left, more, op, right) => Binary(Indented(ws, left), more, op, right)
  }

  lemma IndentedSame(ws: string, c: Cst, resolve: Resolver)
    requires Spaces(ws) && Fits(c, PrimaryLevel)
    ensures Text(Indented(ws, c)) == ws + Text(c)
    ensures Fits(Indented(ws, c), UnaryLevel) && Check(Indented(ws, c), resolve) == Check(c, resolve)
  {
    match c
    case Number(more, digits) => assert (ws + more) + digits == ws + (more + digits);
    case Numeral(more, whole, mark, fraction) =>
      assert (ws + more) + NumeralText(whole, mark, fraction) == ws + (more + NumeralText(whole, mark, fraction));
    case Name(more, name) => assert (ws + more) + name == ws + (more + name);
    case Applied(more, name, gap, args, close) =>
      var body := name + (gap + ("(" + (ArgumentsText(args) + (close + ")"))));
      assert (ws + more) + body == ws + (more + body);
    case Group(more, inner, close) =>
      var body := "(" + (Text(inner) + (close + ")"));
      assert (ws + more) + body == ws + (more + body);
  }

  lemma HeadTail(t: string)
    requires t != ""
    ensures t == [t[0]] + t[1..]
  {}

  lemma BinaryText(first: Cst, gap: string, ws: string, op: Operator, right: Cst, tail: string)
    ensures Text(Binary(first, gap + ws, op, right)) + tail == Text(first) + (gap + (ws + ([op] + (Text(right) + tail))))
  {}

  lemma {:induction false} ProductTailSound(first: Cst, gap: string, s: string, resolve: Resolver) returns (c: Cst, gap': string)
    requires Fits(first, ProductLevel) && Check(first, resolve).Value? && Spaces(gap)
    requires ProductTail(Check(first, resolve).value, s, resolve).Done?
    ensures var p := ProductTail(Check(first, resolve).value, s, resolve);
            Fits(c, ProductLevel) && Check(c, resolve) == Value(p.value) && Consumed(Text(first) + (gap + s), c, gap', p.rest)
    decreases |s|
  {
    var t := Skip(s);
    var ws := Skipped(s);
    if t != "" && Multiplicative(t[0]) {
      var right, close := UnarySound(t[1..], resolve);
      var rest := Unary(t[1..], resolve).rest;
      var both := Binary(first, gap + ws, t[0], right);
      assert Check(both, resolve) == Apply(t[0], Check(first, resolve).value, Unary(t[1..], resolve).value);
      BinaryText(first, gap, ws, t[0], right, close + rest);
      HeadTail(t);
      c, gap' := ProductTailSound(both, close, rest, resolve);
    } else {
      c, gap' := first, gap + ws;
      assert Text(first) + (gap + s) == Text(first) + ((gap + ws) + t);
    }
  }

  lemma {:induction false} ProductSound(s: string, resolve: Resolver) returns (c: Cst, gap: string)
    requires Product(s, resolve).Done?
    ensures Fits(c, ProductLevel) && Check(c, resolve) == Value(Product(s, resolve).value)
    ensures Consumed(s, c, gap, Product(s, resolve).rest)
    decreases |s|, 3
  {
    var first, blanks := UnarySound(s, resolve);
    c, gap := ProductTailSound(first, blanks, Unary(s, resolve).rest, resolve);
  }

  lemma {:induction false} SumTailSound(first: Cst, gap: string, s: string, resolve: Resolver) returns (c: Cst, gap': string)
    requires Fits(first, SumLevel) && Check(first, resolve).Value? && Spaces(gap)
    requires SumTail(Check(first, resolve).value, s, resolve).Done?
    ensures var p := SumTail(Check(first, resolve).value, s, resolve);
            Fits(c, SumLevel) && Check(c, resolve) == Value(p.value) && Consumed(Text(first) + (gap + s), c, gap', p.rest)
    decreases |s|
  {
    var t := Skip(s);
    var ws := Skipped(s);
    if t != "" && Additive(t[0]) {
      var right, close := ProductSound(t[1..], resolve);
      var rest := Product(t[1..], resolve).rest;
      var both := Binary(first, gap + ws, t[0], right);
      assert Check(both, resolve) == Apply(t[0], Check(first, resolve).value, Product(t[1..], resolve).value);
      BinaryText(first, gap, ws, t[0], right, close + rest);
      HeadTail(t);
      c, gap' := SumTailSound(both, close, rest, resolve);
    } else {
      c, gap' := first, gap + ws;
      assert Text(first) + (gap + s) == Text(first) + ((gap + ws) + t);
    }
  }

  lemma {:induction false} SumSound(s: string, resolve: Resolver) returns (c: Cst, gap: string)
    requires Sum(s, resolve).Done?
    ensures Fits(c, SumLevel) && Check(c, resolve) == Value(Sum(s, resolve).value)
    ensures Consumed(s, c, gap, Sum(s, resolve).rest)
    decreases |s|, 5
  {
    var first, blanks := ProductSound(s, resolve);
    c, gap := SumTailSound(first, blanks, Product(s, resolve).rest, resolve);
  }

  /** Soundness: whenever a value is returned the whole input was one well-formed relation. */
  lemma Sound(s: string, resolve: Resolver) returns (c: Cst, trailing: string)
    requires EvaluateInteger(s, resolve).Value?
    ensures s == Text(c) + trailing && Spaces(trailing) && Fits(c, SumLevel)
    ensures Check(c, resolve) == EvaluateInteger(s, resolve)
  {
    var gap;
    c, gap := SumSound(s, resolve);
    var more := Skipped(Sum(s, resolve).rest);
    trailing := gap + more;
    assert Sum(s, resolve).rest == more;
  }

  // ---------------------------------------------------------------- exactness

  lemma Negation(b: int, q: int)
    ensures b * (-q) == -(b * q) && (-b) * q == -(b * q)
  {}

  lemma AtLeast(d: nat, q: nat, k: nat)
    requires d >= k
    ensures d * q >= k * q
  {}

  lemma DivMod(n: nat, d: nat)
    requires d > 0
    ensures n == d * (n / d) + n % d
  {}

  lemma AtLeastQuotient(n: nat, d: nat)
    requires d > 0
    ensures n == d * (n / d) + n % d && n / d <= n
  {
    DivMod(n, d);
    AtLeast(d, n / d, 1);
  }

  /** Truncating division: the defining identity, the size of the remainder, and its sign. */
  lemma Truncates(a: int, b: int)
    requires b != 0
    ensures a == b * Quotient(a, b) + Remainder(a, b)
    ensures Abs(Remainder(a, b)) < Abs(b) && (Remainder(a, b) == 0 || (Remainder(a, b) < 0) == (a < 0))
    ensures Abs(Quotient(a, b)) <= Abs(a)
  {
    var n, d := Abs(a), Abs(b);
    AtLeastQuotient(n, d);
    TruncatesBy(a, b, n / d, n % d);
  }

  lemma TruncatesBy(a: int, b: int, q: int, r: int)
    requires 0 <= q <= Abs(a) && 0 <= r < Abs(b) && b != 0 && q == Abs(a) / Abs(b) && Abs(a) == Abs(b) * q + r
    ensures Abs(Remainder(a, b)) == r && (r == 0 || (Remainder(a, b) < 0) == (a < 0)) && Abs(Quotient(a, b)) == q
  {
    Negation(b, q);
    assert Remainder(a, b) == if a < 0 then -r else r;
  }

  datatype Meaning = Undefined | Exactly(value: int)

  /** The value over unbounded integers with truncating division. */
  function Exact(c: Cst, resolve: Resolver): Meaning {
    match c
    case Number(_, digits) => Exactly(DigitsFrom(0, digits))
    case Numeral(_, _, _, _) => Undefined
    case Name(_, name) => if name != "pi" && resolve(name).Integral? then Exactly(resolve(name).value) else Undefined
    case Applied(_, _, _, _, _) => Undefined
    case Group(_, inner, _) => Exact(inner, resolve)
    case Sign(_, minus, operand) =>
      var m := Exact(operand, resolve);
      if m.Exactly? && minus then Exactly(-m.value) else m
    case Binary(left, _, op, right) =>
      var a := Exact(left, resolve);
      var b := Exact(right, resolve);
      if a.Exactly? && b.Exactly? then Combined(op, a.value, b.value) else Undefined
  }

  function Combined(op: Operator, a: int, b: int): Meaning {
    if op == '+' then Exactly(a + b)
    else if op == '-' then Exactly(a - b)
    else if op == '*' then Exactly(a * b)
    else if b == 0 then Undefined
    else if op == '/' then Exactly(Quotient(a, b))
    else Exactly(Remainder(a, b))
  }

  predicate Small(m: Meaning) { m.Exactly? && InRange(m.value) }

  /** Every intermediate result fits 128 bits; a remainder also needs the quotient of its division to. */
  predicate AllSmall(c: Cst, resolve: Resolver) {
    && Small(Exact(c, resolve))
    && match c {
         case Number(_, _) => true
         case Name(_, _) => true
         case Numeral(_, _, _, _) => false
         case Applied(_, _, _, _, _) => false
         case Group(_, inner, _) => AllSmall(inner, resolve)
         case Sign(_, _, operand) => AllSmall(operand, resolve)
         case Binary(left, _, op, right) =>
           AllSmall(left, resolve) && AllSmall(right, resolve)
           && (op == '%' ==> Small(Combined('/', Exact(left, resolve).value, Exact(right, resolve).value)))
       }
  }

  lemma QuotientRange(a: ExactInteger, b: ExactInteger)
    requires b != 0
    ensures InRange(Quotient(a, b)) <==> !(a == MINIMUM && b == -1)
    ensures InRange(Remainder(a, b))
  {
    Truncates(a, b);
    if Abs(b) > 1 { HalvesAtLeast(Abs(a), Abs(b)); }
  }

  lemma HalvesAtLeast(n: nat, d: nat)
    requires d > 1
    ensures n / d <= n / 2
  {
    AtLeastQuotient(n, d);
    AtLeast(d, n / d, 2);
  }

  lemma ApplyExact(op: Operator, a: ExactInteger, b: ExactInteger)
    ensures Apply(op, a, b).Value? <==>
              Small(Combined(op, a, b)) && (op == '%' ==> Small(Combined('/', a, b)))
    ensures Apply(op, a, b).Value? ==> Combined(op, a, b) == Exactly(Apply(op, a, b).value)
  {
    if b != 0 { QuotientRange(a, b); }
  }

  /** Checked evaluation succeeds exactly when every intermediate fits, and then it is the exact value. */
  lemma {:induction false} CheckedIffExact(c: Cst, resolve: Resolver)
    ensures Check(c, resolve).Value? <==> AllSmall(c, resolve)
    ensures Check(c, resolve).Value? ==> Exact(c, resolve) == Exactly(Check(c, resolve).value)
    decreases c
  {
    match c
    case Number(_, digits) => DigitsGrow(0, digits);
    case Numeral(_, _, _, _) =>
    case Name(_, _) =>
    case Applied(_, _, _, _, _) =>
    case Group(_, inner, _) => CheckedIffExact(inner, resolve);
    case Sign(_, _, operand) => CheckedIffExact(operand, resolve);
    case Binary(left, _, op, right) =>
      CheckedIffExact(left, resolve);
      CheckedIffExact(right, resolve);
      if Check(left, resolve).Value? && Check(right, resolve).Value? {
        ApplyExact(op, Check(left, resolve).value, Check(right, resolve).value);
      }
  }

  /** The text is one relation whose exact value is `v`, every intermediate fitting 128 bits. */
  ghost predicate Denotes(s: string, v: int, resolve: Resolver) {
    exists c, trailing :: IsRelation(s, c, trailing) && AllSmall(c, resolve) && Exact(c, resolve) == Exactly(v)
  }

  predicate IsRelation(s: string, c: Cst, trailing: string) { s == Text(c) + trailing && Spaces(trailing) && Fits(c, SumLevel) }

  /** Exactness on every input string: a value is returned exactly when the text denotes it. */
  lemma ValueIffDenotes(s: string, v: ExactInteger, resolve: Resolver)
    ensures EvaluateInteger(s, resolve) == Value(v) <==> Denotes(s, v, resolve)
  {
    if EvaluateInteger(s, resolve) == Value(v) {
      var c, trailing := Sound(s, resolve);
      CheckedIffExact(c, resolve);
      assert IsRelation(s, c, trailing);
    }
    if Denotes(s, v, resolve) {
      var c, trailing :| IsRelation(s, c, trailing) && AllSmall(c, resolve) && Exact(c, resolve) == Exactly(v);
      CheckedIffExact(c, resolve);
      Complete(c, trailing, resolve);
    }
  }

  // ---------------------------------------------------------------- trees and their minimal text

  type Word = s: string | NameText(s) witness "x"

  datatype Expr =
    | Constant(n: nat)
    | Variable(name: Word)
    | Signed(minus: bool, operand: Expr)
    | Operation(left: Expr, op: Operator, right: Expr)

  /** Left-associative checked 128-bit value of a tree. */
  function CheckTree(e: Expr, resolve: Resolver): Outcome {
    match e
    case Constant(n) => if n > MAXIMUM then Failed(LiteralOverflow) else Value(n)
    case Variable(name) => Lookup(name, resolve)
    case Signed(minus, operand) =>
      var o := CheckTree(operand, resolve);
      if o.Value? && minus then Negated(o.value) else o
    case Operation(left, op, right) =>
      var a := CheckTree(left, resolve);
      if !a.Value? then a
      else
        var b := CheckTree(right, resolve);
        if !b.Value? then b else Apply(op, a.value, b.value)
  }

  function Rank(level: Level): nat {
    match level case PrimaryLevel => 0 case UnaryLevel => 1 case ProductLevel => 2 case SumLevel => 3
  }

  /** The level of the outermost operation of a tree. */
  function LevelOf(e: Expr): Level {
    match e
    case Constant(_) => PrimaryLevel
    case Variable(_) => PrimaryLevel
    case Signed(_, _) => UnaryLevel
    case Operation(_, op, _) => if Additive(op) then SumLevel else ProductLevel
  }

  function LeftLevel(op: Operator): Level { if Additive(op) then SumLevel else ProductLevel }
  function RightLevel(op: Operator): Level { if Additive(op) then ProductLevel else UnaryLevel }

  /** `c` writes tree `e` where `level` is expected: decimal literals, parentheses only around operations
      that bind too loosely, and any blanks between tokens. */
  predicate Writes(c: Cst, e: Expr, level: Level)
    decreases c
  {
    if Rank(LevelOf(e)) > Rank(level) then
      c.Group? && Spaces(c.ws) && Spaces(c.close) && Writes(c.inner, e, SumLevel)
    else
      match e
      case Constant(n) => c.Number? && Spaces(c.ws) && c.digits == Decimal(n)
      case Variable(name) => c.Name? && Spaces(c.ws) && c.name == name
      case Signed(minus, operand) => c.Sign? && Spaces(c.ws) && c.minus == minus && Writes(c.operand, operand, UnaryLevel)
      case Operation(left, op, right) =>
        && c.Binary? && Spaces(c.ws) && c.op == op
        && Writes(c.left, left, LeftLevel(op)) && Writes(c.right, right, RightLevel(op))
  }

  lemma {:induction false} WritesFits(c: Cst, e: Expr, level: Level, resolve: Resolver)
    requires Writes(c, e, level)
    ensures Fits(c, level) && Check(c, resolve) == CheckTree(e, resolve)
    decreases c
  {
    if Rank(LevelOf(e)) > Rank(level) {
      WritesFits(c.inner, e, SumLevel, resolve);
    } else {
      match e
      case Constant(n) => DecimalValue(n);
      case Variable(_) =>
      case Signed(_, operand) => WritesFits(c.operand, operand, UnaryLevel, resolve);
      case Operation(left, op, right) =>
        WritesFits(c.left, left, LeftLevel(op), resolve);
        WritesFits(c.right, right, RightLevel(op), resolve);
    }
  }

  /** The parser inverts the printer: the minimally parenthesised text of any tree, with any blanks,
      evaluates to the tree's left-associative checked value and fails exactly when that fails. */
  lemma ParserInvertsPrinter(c: Cst, e: Expr, trailing: string, resolve: Resolver)
    requires Writes(c, e, SumLevel) && Spaces(trailing)
    ensures EvaluateInteger(Text(c) + trailing, resolve) == CheckTree(e, resolve)
  {
    WritesFits(c, e, SumLevel, resolve);
    Complete(c, trailing, resolve);
  }

  /** The printer, with the same blanks before every token. */
  function Print(e: Expr, level: Level, ws: string): Cst
    decreases e, 3 - Rank(level)
  {
    if Rank(LevelOf(e)) > Rank(level) then Group(ws, Print(e, SumLevel, ws), ws)
    else
      match e
      case Constant(n) => Number(ws, Decimal(n))
      case Variable(name) => Name(ws, name)
      case Signed(minus, operand) => Sign(ws, minus, Print(operand, UnaryLevel, ws))
      case Operation(left, op, right) => Binary(Print(left, LeftLevel(op), ws), ws, op, Print(right, RightLevel(op), ws))
  }

  lemma {:induction false} PrintWrites(e: Expr, level: Level, ws: string)
    requires Spaces(ws)
    ensures Writes(Print(e, level, ws), e, level)
    decreases e, 3 - Rank(level)
  {
    if Rank(LevelOf(e)) > Rank(level) {
      PrintWrites(e, SumLevel, ws);
    } else {
      match e
      case Constant(_) =>
      case Variable(_) =>
      case Signed(_, operand) => PrintWrites(operand, UnaryLevel, ws);
      case Operation(left, op, right) =>
        PrintWrites(left, LeftLevel(op), ws);
        PrintWrites(right, RightLevel(op), ws);
    }
  }

  /** Text of a tree: no decimal literals and no calls. */
  predicate Plain(c: Cst) {
    match c
    case Number(_, _) => true
    case Numeral(_, _, _, _) => false
    case Name(_, _) => true
    case Applied(_, _, _, _, _) => false
    case Group(_, inner, _) => Plain(inner)
    case Sign(_, _, operand) => Plain(operand)
    case Binary(left, _, _, right) => Plain(left) && Plain(right)
  }

  /** The tree a piece of syntax stands for. */
  function Strip(c: Cst): Expr
    requires Fits(c, SumLevel) && Plain(c)
  {
    match c
    case Number(_, digits) => Constant(DigitsFrom(0, digits))
    case Name(_, name) => Variable(name)
    case Group(_, inner, _) => Strip(inner)
    case Sign(_, minus, operand) => FitsSum(operand, UnaryLevel); Signed(minus, Strip(operand))
    case Binary(left, _, op, right) =>
      FitsSum(left, LeftLevel(op)); FitsSum(right, RightLevel(op));
      Operation(Strip(left), op, Strip(right))
  }

  lemma FitsSum(c: Cst, level: Level)
    requires Fits(c, level)
    ensures Fits(c, SumLevel)
  {}

  function Groups(c: Cst): nat
    requires Plain(c)
  {
    match c
    case Number(_, _) => 0
    case Name(_, _) => 0
    case Group(_, inner, _) => 1 + Groups(inner)
    case Sign(_, _, operand) => Groups(operand)
    case Binary(left, _, _, right) => Groups(left) + Groups(right)
  }

  /** No text of the same tree has fewer parentheses. */
  lemma {:induction false} PrintIsMinimal(c: Cst, level: Level, ws: string)
    requires Fits(c, level) && Fits(c, SumLevel) && Plain(c)
    ensures Plain(Print(Strip(c), level, ws)) && Groups(Print(Strip(c), level, ws)) <= Groups(c)
    decreases c
  {
    match c
    case Number(_, _) =>
    case Name(_, _) =>
    case Group(_, inner, _) => PrintIsMinimal(inner, SumLevel, ws);
    case Sign(_, _, operand) =>
      FitsSum(operand, UnaryLevel);
      PrintIsMinimal(operand, UnaryLevel, ws);
    case Binary(left, _, op, right) =>
      FitsSum(left, LeftLevel(op));
      FitsSum(right, RightLevel(op));
      PrintIsMinimal(left, LeftLevel(op), ws);
      PrintIsMinimal(right, RightLevel(op), ws);
  }
}
