/** The exact evaluator: checked 128-bit integers, recursive descent over a mutable position. The
    functions give its meaning on the unread text; the class moves through the input as the code does. */
module IntegerExpr {
  import opened ExprText

  const MAXIMUM: int := 0x7fff_ffff_ffff_ffff_ffff_ffff_ffff_ffff
  const MINIMUM: int := -0x8000_0000_0000_0000_0000_0000_0000_0000

  type ExactInteger = x: int | MINIMUM <= x <= MAXIMUM

  predicate InRange(x: int) { MINIMUM <= x <= MAXIMUM }

  /** What the caller's resolver says about an identifier; it may decline or throw. */
  datatype Resolution = Integral(value: ExactInteger) | Declined | Threw
  type Resolver = string -> Resolution

  datatype Reason =
    | TrailingText | IntegerOverflow | LiteralOverflow | DivisionByZero | MissingParenthesis
    | ExpectedOperand | ExpectedIdentifier | ResolverThrew

  /** `Floating` is the request to use the floating evaluator instead. */
  datatype Outcome = Value(value: ExactInteger) | Floating | Failed(reason: Reason)

  /** A parsed piece of the unread text: its value and what is left, or the exception that ended it. */
  datatype Parsed = Done(value: ExactInteger, rest: string) | Stop(outcome: Exception)
  type Exception = o: Outcome | !o.Value? witness Floating

  // ---------------------------------------------------------------- machine arithmetic

  function Abs(x: int): nat { if x < 0 then -x else x }

  /** C++ division: truncation toward zero. */
  function Quotient(a: int, b: int): int
    requires b != 0
  {
    if (a < 0) == (b < 0) then Abs(a) / Abs(b) else -(Abs(a) / Abs(b))
  }

  function Remainder(a: int, b: int): int
    requires b != 0
  { a - b * Quotient(a, b) }

  function Checked(x: int): Outcome { if InRange(x) then Value(x) else Failed(IntegerOverflow) }

  function Apply(op: Operator, a: ExactInteger, b: ExactInteger): Outcome {
    if op == '+' then Checked(a + b)
    else if op == '-' then Checked(a - b)
    else if op == '*' then Checked(a * b)
    else if b == 0 then Failed(DivisionByZero)
    else if a == MINIMUM && b == -1 then Failed(IntegerOverflow)
    else if op == '/' then Checked(Quotient(a, b))
    else Checked(Remainder(a, b))
  }

  function Negated(a: ExactInteger): Outcome { if a == MINIMUM then Failed(IntegerOverflow) else Value(-a) }

  // ---------------------------------------------------------------- the grammar on unread text

  function Literal(acc: ExactInteger, s: string): (r: Parsed)
    requires acc >= 0
    ensures r.Done? ==> |r.rest| <= |s| && (s != "" && IsDigit(s[0]) ==> |r.rest| < |s|)
    decreases |s|
  {
    if s != "" && IsDigit(s[0]) then
      var next := 10 * acc + DigitValue(s[0]);
      if next > MAXIMUM then Stop(Failed(LiteralOverflow)) else Literal(next, s[1..])
    else if Starts(s, '.') || Starts(s, 'e') || Starts(s, 'E') then Stop(Floating)
    else Done(acc, s)
  }

  function Identifier(s: string, resolve: Resolver): (r: Parsed)
    requires s != "" && IsNameStart(s[0])
    ensures r.Done? ==> |r.rest| < |s|
  {
    var n := NameLength(s);
    assert n > 0;
    var after := Skip(s[n..]);
    if Starts(after, '(') || s[..n] == "pi" then Stop(Floating)
    else
      match resolve(s[..n])
      case Integral(value) => Done(value, after)
      case Declined => Stop(Floating)
      case Threw => Stop(Failed(ResolverThrew))
  }

  function Primary(s: string, resolve: Resolver): (r: Parsed)
    ensures r.Done? ==> |r.rest| < |s|
    decreases |s|, 0
  {
    var t := Skip(s);
    if Starts(t, '(') then
      match Sum(t[1..], resolve)
      case Stop(outcome) => Stop(outcome)
      case Done(value, rest) =>
        var u := Skip(rest);
        if Starts(u, ')') then Done(value, u[1..]) else Stop(Failed(MissingParenthesis))
    else if t == "" then Stop(Failed(ExpectedOperand))
    else if t[0] == '.' then Stop(Floating)
    else if IsDigit(t[0]) then
      Literal(0, t)
    else if !IsNameStart(t[0]) then Stop(Failed(ExpectedIdentifier))
    else Identifier(t, resolve)
  }

  function Unary(s: string, resolve: Resolver): (r: Parsed)
    ensures r.Done? ==> |r.rest| < |s|
    decreases |s|, 1
  {
    var t := Skip(s);
    if Starts(t, '+') then Unary(t[1..], resolve)
    else if Starts(t, '-') then
      match Unary(t[1..], resolve)
      case Stop(outcome) => Stop(outcome)
      case Done(value, rest) => Continue(Negated(value), rest)
    else Primary(t, resolve)
  }

  function Continue(o: Outcome, rest: string): Parsed { if o.Value? then Done(o.value, rest) else Stop(o) }

  /** The product loop after a first factor. */
  function ProductTail(acc: ExactInteger, s: string, resolve: Resolver): (r: Parsed)
    ensures r.Done? ==> |r.rest| <= |s|
    decreases |s|, 2
  {
    var t := Skip(s);
    if t != "" && Multiplicative(t[0]) then
      match Unary(t[1..], resolve)
      case Stop(outcome) => Stop(outcome)
      case Done(value, rest) =>
        var next := Apply(t[0], acc, value);
        if next.Value? then ProductTail(next.value, rest, resolve) else Stop(next)
    else Done(acc, t)
  }

  function Product(s: string, resolve: Resolver): (r: Parsed)
    ensures r.Done? ==> |r.rest| < |s|
    decreases |s|, 3
  {
    match Unary(s, resolve)
    case Stop(outcome) => Stop(outcome)
    case Done(value, rest) => ProductTail(value, rest, resolve)
  }

  function SumTail(acc: ExactInteger, s: string, resolve: Resolver): (r: Parsed)
    ensures r.Done? ==> |r.rest| <= |s|
    decreases |s|, 4
  {
    var t := Skip(s);
    if t != "" && Additive(t[0]) then
      match Product(t[1..], resolve)
      case Stop(outcome) => Stop(outcome)
      case Done(value, rest) =>
        var next := Apply(t[0], acc, value);
        if next.Value? then SumTail(next.value, rest, resolve) else Stop(next)
    else Done(acc, t)
  }

  function Sum(s: string, resolve: Resolver): (r: Parsed)
    ensures r.Done? ==> |r.rest| < |s|
    decreases |s|, 5
  {
    match Product(s, resolve)
    case Stop(outcome) => Stop(outcome)
    case Done(value, rest) => SumTail(value, rest, resolve)
  }

  function EvaluateInteger(s: string, resolve: Resolver): Outcome {
    match Sum(s, resolve)
    case Stop(outcome) => outcome
    case Done(value, rest) => if Skip(rest) == "" then Value(value) else Failed(TrailingText)
  }

  // ---------------------------------------------------------------- the parser object

  class IntegerParser {
    const input: string
    const resolver: Resolver
    var position: nat

    predicate Valid()
      reads this
    { position <= |input| }

    /** The unread text. */
    function Unread(): (s: string)
      requires Valid()
      reads this
      ensures |s| == |input| - position
    { input[position..] }

    constructor (input: string, resolver: Resolver)
      ensures Valid() && this.input == input && this.resolver == resolver && Unread() == input
    {
      this.input, this.resolver, position := input, resolver, 0;
    }

    method Evaluate() returns (r: Outcome)
      requires Valid()
      modifies this
      ensures Valid() && r == EvaluateInteger(old(Unread()), resolver)
    {
      r := ParseSum();
      if !r.Value? { return; }
      Whitespace();
      if position != |input| { r := Failed(TrailingText); }
    }

    method Whitespace()
      requires Valid()
      modifies this
      ensures Valid() && Unread() == Skip(old(Unread())) && position >= old(position)
    {
      while position < |input| && IsSpace(input[position])
        invariant old(position) <= position <= |input| && Skip(Unread()) == Skip(old(Unread()))
      {
        assert Unread()[1..] == input[position + 1..];
        position := position + 1;
      }
    }

    method Consume(token: char) returns (found: bool)
      requires Valid() && !IsSpace(token)
      modifies this
      ensures Valid() && position >= old(position) && found == Starts(Skip(old(Unread())), token)
      ensures Unread() == if found then Skip(old(Unread()))[1..] else Skip(old(Unread()))
      ensures found ==> position > old(position) && input[position - 1] == token
    {
      Whitespace();
      found := false;
      if position < |input| && input[position] == token {
        assert Unread()[1..] == input[position + 1..];
        position := position + 1;
        return true;
      }
    }

    /** The outcome `r` and the new position are what the grammar function says. */
    predicate Agrees(r: Outcome, p: Parsed)
      requires Valid()
      reads this
    {
      match p
      case Done(value, rest) => r == Value(value) && Unread() == rest
      case Stop(outcome) => r == outcome
    }

    method ParseSum() returns (r: Outcome)
      requires Valid()
      modifies this
      ensures Valid() && position >= old(position) && Agrees(r, Sum(old(Unread()), resolver))
      decreases |input| - position, 5
    {
      r := ParseProduct();
      if !r.Value? { return; }
      while true
        invariant Valid() && position > old(position) && r.Value?
        invariant SumTail(r.value, Unread(), resolver) == Sum(old(Unread()), resolver)
        decreases |input| - position
      {
        ghost var before := Unread();
        var plus := Consume('+');
        if plus {
          r := SumStep('+', r.value, before);
          if !r.Value? { return; }
        } else {
          var minus := Consume('-');
          if minus {
            r := SumStep('-', r.value, before);
            if !r.Value? { return; }
          } else {
            return;
          }
        }
      }
    }

    method SumStep(op: char, acc: ExactInteger, ghost before: string) returns (r: Outcome)
      requires Valid() && Additive(op) && Starts(Skip(before), op) && Unread() == Skip(before)[1..]
      modifies this
      ensures Valid() && position >= old(position)
      ensures r.Value? ==> position > old(position) && SumTail(r.value, Unread(), resolver) == SumTail(acc, before, resolver)
      ensures !r.Value? ==> SumTail(acc, before, resolver) == Stop(r)
      decreases |input| - position, 4
    {
      r := ParseProduct();
      if r.Value? { r := Apply(op, acc, r.value); }
    }

    method ParseProduct() returns (r: Outcome)
      requires Valid()
      modifies this
      ensures Valid() && position >= old(position) && Agrees(r, Product(old(Unread()), resolver))
      decreases |input| - position, 3
    {
      r := ParseUnary();
      if !r.Value? { return; }
      while true
        invariant Valid() && position > old(position) && r.Value?
        invariant ProductTail(r.value, Unread(), resolver) == Product(old(Unread()), resolver)
        decreases |input| - position
      {
        ghost var before := Unread();
        var times := Consume('*');
        if times {
          r := ProductStep('*', r.value, before);
          if !r.Value? { return; }
        } else {
          assert Skip(Unread()) == Skip(before);
          var over := Consume('/');
          var modulo := false;
          if !over { modulo := Consume('%'); }
          if over || modulo {
            var op := input[position - 1];
            r := ProductStep(op, r.value, before);
            if !r.Value? { return; }
          } else {
            return;
          }
        }
      }
    }

    method ProductStep(op: char, acc: ExactInteger, ghost before: string) returns (r: Outcome)
      requires Valid() && Multiplicative(op) && Starts(Skip(before), op) && Unread() == Skip(before)[1..]
      modifies this
      ensures Valid() && position >= old(position)
      ensures r.Value? ==> position > old(position) && ProductTail(r.value, Unread(), resolver) == ProductTail(acc, before, resolver)
      ensures !r.Value? ==> ProductTail(acc, before, resolver) == Stop(r)
      decreases |input| - position, 2
    {
      r := ParseUnary();
      if r.Value? { r := Apply(op, acc, r.value); }
    }

    method ParseUnary() returns (r: Outcome)
      requires Valid()
      modifies this
      ensures Valid() && position >= old(position) && Agrees(r, Unary(old(Unread()), resolver))
      decreases |input| - position, 1
    {
      var plus := Consume('+');
      if plus {
        r := ParseUnary();
        return;
      }
      var minus := Consume('-');
      if minus {
        r := ParseUnary();
        if r.Value? { r := Negated(r.value); }
        return;
      }
      r := ParsePrimary();
    }

    method ParsePrimary() returns (r: Outcome)
      requires Valid()
      modifies this
      ensures Valid() && position >= old(position) && Agrees(r, Primary(old(Unread()), resolver))
      decreases |input| - position, 0
    {
      Whitespace();
      var open := Consume('(');
      if open {
        r := ParseSum();
        if !r.Value? { return; }
        var closed := Consume(')');
        if !closed { r := Failed(MissingParenthesis); }
        return;
      }
      if position >= |input| { return Failed(ExpectedOperand); }
      var current := input[position];
      if current == '.' { return Floating; }
      if IsDigit(current) {
        r := ParseLiteral();
        return;
      }
      if !IsNameStart(current) { return Failed(ExpectedIdentifier); }
      r := ParseIdentifier();
    }

    method ParseLiteral() returns (r: Outcome)
      requires Valid() && position < |input| && IsDigit(input[position])
      modifies this
      ensures Valid() && position >= old(position)
      ensures Agrees(r, Literal(0, old(Unread())))
    {
      ghost var digits := Unread();
      var value: ExactInteger := 0;
      while position < |input| && IsDigit(input[position])
        invariant Valid() && position >= old(position) && value >= 0
        invariant Literal(value, Unread()) == Literal(0, digits)
      {
        var next := 10 * value + DigitValue(input[position]);
        if next > MAXIMUM { return Failed(LiteralOverflow); }
        assert Unread()[1..] == input[position + 1..];
        value := next;
        position := position + 1;
      }
      if position < |input| && (input[position] == '.' || input[position] == 'e' || input[position] == 'E') { return Floating; }
      r := Value(value);
    }

    method ParseIdentifier() returns (r: Outcome)
      requires Valid() && position < |input| && IsNameStart(input[position])
      modifies this
      ensures Valid() && position >= old(position) && Agrees(r, Identifier(old(Unread()), resolver))
    {
      ghost var text := Unread();
      var begin := position;
      position := position + 1;
      while position < |input| && IsNameChar(input[position])
        invariant begin < position <= |input|
        invariant forall i | 0 <= i < position - begin :: IsNameChar(text[i])
      {
        position := position + 1;
      }
      var name := input[begin..position];
      assert NameLength(text) == |name| && text[..|name|] == name && text[|name|..] == Unread() by {
        assert text == name + Unread();
        NameLengthIs(name, Unread());
      }
      Whitespace();
      if position < |input| && input[position] == '(' { return Floating; }
      if name == "pi" { return Floating; }
      match resolver(name)
      case Integral(value) => r := Value(value);
      case Declined => r := Floating;
      case Threw => r := Failed(ResolverThrew);
    }
  }
}
