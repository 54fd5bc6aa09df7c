/** The floating evaluator over ideal reals: the same grammar with calls, decimal numbers and pi, and
    without remainders. Number scanning, transcendental functions and pi are parameters. */
module FloatExpr {
  import opened ExprText

  datatype Option<+T> = None | Some(value: T)

  /** `scan` returns the number at the start of a text and how many characters it took, 0 for none;
      `resolve` answers `None` when the caller's resolver throws. */
  datatype Env = Env(scan: string -> (real, nat), resolve: string -> Option<real>, analytic: (string, seq<real>) -> real, pi: real)

  datatype Reason =
    | TrailingText | DivisionByZero | MissingParenthesis | MissingCallParenthesis | ExpectedOperand | InvalidNumber
    | ExpectedIdentifier | WrongArity | UnknownFunction | ResolverThrew

  datatype Outcome = Value(value: real) | Failed(reason: Reason)
  datatype Parsed = Done(value: real, rest: string) | Stop(reason: Reason)
  datatype Arguments = Args(values: seq<real>, rest: string) | BadArgs(reason: Reason)

  function AbsReal(x: real): real { if x < 0.0 then -x else x }
  function Rounded(x: real): real { if x < 0.0 then -((-x + 0.5).Floor as real) else (x + 0.5).Floor as real }
  function Clamped(x: real, low: real, high: real): real { if x < low then low else if high < x then high else x }

  function Arity(name: string): nat {
    if name in {"sin", "cos", "asin", "sqrt", "abs", "floor", "round"} then 1
    else if name in {"atan2", "min", "max"} then 2
    else if name == "clamp" then 3
    else 0
  }

  function Call(name: string, args: seq<real>, env: Env): Outcome {
    if Arity(name) == 0 then Failed(UnknownFunction)
    else if |args| != Arity(name) then Failed(WrongArity)
    else if name == "abs" then Value(AbsReal(args[0]))
    else if name == "floor" then Value(args[0].Floor as real)
    else if name == "round" then Value(Rounded(args[0]))
    else if name == "min" then Value(if args[1] < args[0] then args[1] else args[0])
    else if name == "max" then Value(if args[0] < args[1] then args[1] else args[0])
    else if name == "clamp" then Value(Clamped(args[0], args[1], args[2]))
    else Value(env.analytic(name, args))
  }

  function Combine(op: char, a: real, b: real): Outcome {
    if op == '+' then Value(a + b)
    else if op == '-' then Value(a - b)
    else if op == '*' then Value(a * b)
    else if b == 0.0 then Failed(DivisionByZero)
    else Value(a / b)
  }

  predicate Scaling(op: char) { op == '*' || op == '/' }

  function Continue(o: Outcome, rest: string): Parsed {
    match o case Value(value) => Done(value, rest) case Failed(reason) => Stop(reason)
  }

  function Scanned(s: string, env: Env): (r: Parsed)
    ensures r.Done? ==> |r.rest| < |s|
  {
    var (value, n) := env.scan(s);
    if n == 0 || n > |s| then Stop(InvalidNumber) else Done(value, s[n..])
  }

  function Identifier(s: string, env: Env): (r: Parsed)
    requires s != "" && IsNameStart(s[0])
    ensures r.Done? ==> |r.rest| < |s|
    decreases |s|, 0
  {
    var n := NameLength(s);
    assert n > 0;
    var after := Skip(s[n..]);
    if Starts(after, '(') then
      CallRest(s[..n], after[1..], env)
    else if s[..n] == "pi" then Done(env.pi, after)
    else
      match env.resolve(s[..n])
      case Some(value) => Done(value, after)
      case None => Stop(ResolverThrew)
  }

  /** A call after its opening parenthesis. */
  function CallRest(name: string, s: string, env: Env): (r: Parsed)
    ensures r.Done? ==> |r.rest| <= |s|
    decreases |s|, 8
  {
    var open := Skip(s);
    if Starts(open, ')') then Continue(Call(name, [], env), open[1..])
    else
      match ArgumentList([], open, env)
      case BadArgs(reason) => Stop(reason)
      case Args(values, rest) =>
        var close := Skip(rest);
        if Starts(close, ')') then Continue(Call(name, values, env), close[1..]) else Stop(MissingCallParenthesis)
  }

  function ArgumentList(values: seq<real>, s: string, env: Env): (r: Arguments)
    ensures r.Args? ==> |r.rest| <= |s|
    decreases |s|, 7
  {
    match Sum(s, env)
    case Stop(reason) => BadArgs(reason)
    case Done(value, rest) =>
      var t := Skip(rest);
      if Starts(t, ',') then ArgumentList(values + [value], t[1..], env) else Args(values + [value], t)
  }

  function Primary(s: string, env: Env): (r: Parsed)
    ensures r.Done? ==> |r.rest| < |s|
    decreases |s|, 1
  {
    var t := Skip(s);
    if Starts(t, '(') then
      match Sum(t[1..], env)
      case Stop(reason) => Stop(reason)
      case Done(value, rest) =>
        var u := Skip(rest);
        if Starts(u, ')') then Done(value, u[1..]) else Stop(MissingParenthesis)
    else if t == "" then Stop(ExpectedOperand)
    else if IsDigit(t[0]) || t[0] == '.' then Scanned(t, env)
    else if !IsNameStart(t[0]) then Stop(ExpectedIdentifier)
    else Identifier(t, env)
  }

  function Unary(s: string, env: Env): (r: Parsed)
    ensures r.Done? ==> |r.rest| < |s|
    decreases |s|, 2
  {
    var t := Skip(s);
    if Starts(t, '+') then Unary(t[1..], env)
    else if Starts(t, '-') then
      match Unary(t[1..], env)
      case Stop(reason) => Stop(reason)
      case Done(value, rest) => Done(-value, rest)
    else Primary(t, env)
  }

  function ProductTail(acc: real, s: string, env: Env): (r: Parsed)
    ensures r.Done? ==> |r.rest| <= |s|
    decreases |s|, 3
  {
    var t := Skip(s);
    if t != "" && Scaling(t[0]) then
      match Unary(t[1..], env)
      case Stop(reason) => Stop(reason)
      case Done(value, rest) =>
        match Combine(t[0], acc, value)
        case Failed(reason) => Stop(reason)
        case Value(next) => ProductTail(next, rest, env)
    else Done(acc, t)
  }

  function Product(s: string, env: Env): (r: Parsed)
    ensures r.Done? ==> |r.rest| < |s|
    decreases |s|, 4
  {
    match Unary(s, env)
    case Stop(reason) => Stop(reason)
    case Done(value, rest) => ProductTail(value, rest, env)
  }

  function SumTail(acc: real, s: string, env: Env): (r: Parsed)
    ensures r.Done? ==> |r.rest| <= |s|
    decreases |s|, 5
  {
    var t := Skip(s);
    if t != "" && Additive(t[0]) then
      match Product(t[1..], env)
      case Stop(reason) => Stop(reason)
      case Done(value, rest) => SumTail(if t[0] == '+' then acc + value else acc - value, rest, env)
    else Done(acc, t)
  }

  function Sum(s: string, env: Env): (r: Parsed)
    ensures r.Done? ==> |r.rest| < |s|
    decreases |s|, 6
  {
    match Product(s, env)
    case Stop(reason) => Stop(reason)
    case Done(value, rest) => SumTail(value, rest, env)
  }

  function EvaluateReal(s: string, env: Env): Outcome {
    match Sum(s, env)
    case Stop(reason) => Failed(reason)
    case Done(value, rest) => if Skip(rest) == "" then Value(value) else Failed(TrailingText)
  }

  // ---------------------------------------------------------------- the parser object

  class Parser {
    const input: string
    const env: Env
    var position: nat

    predicate Valid()
      reads this
    { position <= |input| }

    function Unread(): (s: string)
      requires Valid()
      reads this
      ensures |s| == |input| - position
    { input[position..] }

    constructor (input: string, env: Env)
      ensures Valid() && this.input == input && this.env == env && Unread() == input
    {
      this.input, this.env, position := input, env, 0;
    }

    method Evaluate() returns (r: Outcome)
      requires Valid()
      modifies this
      ensures Valid() && r == EvaluateReal(old(Unread()), env)
    {
      r := ParseSum();
      if r.Failed? { return; }
      Whitespace();
      if position != |input| { r := Failed(TrailingText); }
    }

    method Whitespace()
      requires Valid()
      modifies this
      ensures Valid() && Unread() == Skip(old(Unread())) && position >= old(position)
    {
      while position < |input| && IsSpace(input[position])
        invariant old(position) <= position <= |input| && Skip(Unread()) == Skip(old(Unread()))
      {
        assert Unread()[1..] == input[position + 1..];
        position := position + 1;
      }
    }

    method Consume(token: char) returns (found: bool)
      requires Valid() && !IsSpace(token)
      modifies this
      ensures Valid() && position >= old(position) && found == Starts(Skip(old(Unread())), token)
      ensures Unread() == if found then Skip(old(Unread()))[1..] else Skip(old(Unread()))
      ensures found ==> position > old(position)
    {
      Whitespace();
      found := false;
      if position < |input| && input[position] == token {
        assert Unread()[1..] == input[position + 1..];
        position := position + 1;
        return true;
      }
    }

    predicate Agrees(r: Outcome, p: Parsed)
      requires Valid()
      reads this
    {
      match p
      case Done(value, rest) => r == Value(value) && Unread() == rest
      case Stop(reason) => r == Failed(reason)
    }

    method ParseSum() returns (r: Outcome)
      requires Valid()
      modifies this
      ensures Valid() && position >= old(position) && Agrees(r, Sum(old(Unread()), env))
      decreases |input| - position, 6
    {
      r := ParseProduct();
      if r.Failed? { return; }
      while true
        invariant Valid() && position > old(position) && r.Value?
        invariant SumTail(r.value, Unread(), env) == Sum(old(Unread()), env)
        decreases |input| - position
      {
        ghost var before := Unread();
        var plus := Consume('+');
        if plus {
          r := SumStep('+', r.value, before);
          if r.Failed? { return; }
        } else {
          var minus := Consume('-');
          if !minus { return; }
          r := SumStep('-', r.value, before);
          if r.Failed? { return; }
        }
      }
    }

    method SumStep(op: char, acc: real, ghost before: string) returns (r: Outcome)
      requires Valid() && Additive(op) && Starts(Skip(before), op) && Unread() == Skip(before)[1..]
      modifies this
      ensures Valid() && position >= old(position)
      ensures r.Value? ==> position > old(position) && SumTail(r.value, Unread(), env) == SumTail(acc, before, env)
      ensures r.Failed? ==> SumTail(acc, before, env) == Stop(r.reason)
      decreases |input| - position, 5
    {
      r := ParseProduct();
      if r.Value? { r := Value(if op == '+' then acc + r.value else acc - r.value); }
    }

    method ParseProduct() returns (r: Outcome)
      requires Valid()
      modifies this
      ensures Valid() && position >= old(position) && Agrees(r, Product(old(Unread()), env))
      decreases |input| - position, 4
    {
      r := ParseUnary();
      if r.Failed? { return; }
      while true
        invariant Valid() && position > old(position) && r.Value?
        invariant ProductTail(r.value, Unread(), env) == Product(old(Unread()), env)
        decreases |input| - position
      {
        ghost var before := Unread();
        var times := Consume('*');
        if times {
          r := ProductStep('*', r.value, before);
          if r.Failed? { return; }
        } else {
          var over := Consume('/');
          if !over { return; }
          r := ProductStep('/', r.value, before);
          if r.Failed? { return; }
        }
      }
    }

    method ProductStep(op: char, acc: real, ghost before: string) returns (r: Outcome)
      requires Valid() && Scaling(op) && Starts(Skip(before), op) && Unread() == Skip(before)[1..]
      modifies this
      ensures Valid() && position >= old(position)
      ensures r.Value? ==> position > old(position) && ProductTail(r.value, Unread(), env) == ProductTail(acc, before, env)
      ensures r.Failed? ==> ProductTail(acc, before, env) == Stop(r.reason)
      decreases |input| - position, 3
    {
      r := ParseUnary();
      if r.Value? { r := Combine(op, acc, r.value); }
    }

    method ParseUnary() returns (r: Outcome)
      requires Valid()
      modifies this
      ensures Valid() && position >= old(position) && Agrees(r, Unary(old(Unread()), env))
      decreases |input| - position, 2
    {
      var plus := Consume('+');
      if plus {
        r := ParseUnary();
        return;
      }
      var minus := Consume('-');
      if minus {
        r := ParseUnary();
        if r.Value? { r := Value(-r.value); }
        return;
      }
      r := ParsePrimary();
    }

    method ParsePrimary() returns (r: Outcome)
      requires Valid()
      modifies this
      ensures Valid() && position >= old(position) && Agrees(r, Primary(old(Unread()), env))
      decreases |input| - position, 1
    {
      Whitespace();
      var open := Consume('(');
      if open {
        r := ParseSum();
        if r.Failed? { return; }
        var closed := Consume(')');
        if !closed { r := Failed(MissingParenthesis); }
        return;
      }
      if position >= |input| { return Failed(ExpectedOperand); }
      var current := input[position];
      if IsDigit(current) || current == '.' {
        var number := env.scan(Unread());
        if number.1 == 0 || number.1 > |Unread()| { return Failed(InvalidNumber); }
        assert Unread()[number.1..] == input[position + number.1..];
        position := position + number.1;
        return Value(number.0);
      }
      if !IsNameStart(current) { return Failed(ExpectedIdentifier); }
      r := ParseIdentifier();
    }

    method ReadName() returns (name: string)
      requires Valid() && position < |input| && IsNameStart(input[position])
      modifies this
      ensures Valid() && position > old(position)
      ensures name == old(Unread())[..NameLength(old(Unread()))] && Unread() == old(Unread())[NameLength(old(Unread()))..]
    {
      ghost var text := Unread();
      var begin := position;
      position := position + 1;
      while position < |input| && IsNameChar(input[position])
        invariant begin < position <= |input|
        invariant forall i | 0 <= i < position - begin :: IsNameChar(text[i])
      {
        position := position + 1;
      }
      name := input[begin..position];
      NameLengthIs(name, Unread());
      assert name + Unread() == text && name == text[..position - begin];
    }

    method ParseIdentifier() returns (r: Outcome)
      requires Valid() && position < |input| && IsNameStart(input[position])
      modifies this
      ensures Valid() && position >= old(position) && Agrees(r, Identifier(old(Unread()), env))
      decreases |input| - position, 0
    {
      var name := ReadName();
      var open := Consume('(');
      if open {
        r := ParseCall(name);
        return;
      }
      if name == "pi" { return Value(env.pi); }
      match env.resolve(name)
      case Some(value) => r := Value(value);
      case None => r := Failed(ResolverThrew);
    }

    method ParseCall(name: string) returns (r: Outcome)
      requires Valid()
      modifies this
      ensures Valid() && position >= old(position) && Agrees(r, CallRest(name, old(Unread()), env))
      decreases |input| - position, 8
    {
      var empty := Consume(')');
      if empty { return Call(name, [], env); }
      var args := ParseArguments([]);
      if args.BadArgs? { return Failed(args.reason); }
      var closed := Consume(')');
      if !closed { return Failed(MissingCallParenthesis); }
      r := Call(name, args.values, env);
    }

    /** `do { args.push_back(expression()); } while (consume(','))`. */
    method ParseArguments(values: seq<real>) returns (r: Arguments)
      requires Valid()
      modifies this
      ensures Valid() && position >= old(position) && r == ArgumentList(values, old(Unread()), env)
      ensures r.Args? ==> Unread() == r.rest
      decreases |input| - position, 7
    {
      var args := values;
      while true
        invariant Valid() && position >= old(position)
        invariant ArgumentList(args, Unread(), env) == ArgumentList(values, old(Unread()), env)
        decreases |input| - position
      {
        var value := ParseSum();
        if value.Failed? { return BadArgs(value.reason); }
        args := args + [value.value];
        var comma := Consume(',');
        if !comma { return Args(args, Unread()); }
      }
    }
  }
}
