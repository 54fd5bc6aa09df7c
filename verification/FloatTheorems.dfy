/** What the floating evaluator computes over ideal reals: complete on every well-formed relation without a
    remainder, calls and decimal literals included, in value and in failure; and what each built-in means. */
module FloatTheorems {
  import opened ExprText
  import opened FloatExpr
  import T = ExprTheorems

  // ---------------------------------------------------------------- the built-in functions

  predicate OneArgument(name: string) { name in {"sin", "cos", "asin", "sqrt", "abs", "floor", "round"} }
  predicate TwoArguments(name: string) { name in {"atan2", "min", "max"} }

  predicate IsWhole(x: real) { x.Floor as real == x }

  /** The defining property of a built-in's value; sine, cosine, arcsine, arctangent and root stay abstract. */
  ghost predicate Means(name: string, args: seq<real>, v: real, env: Env)
    requires |args| == if OneArgument(name) then 1 else if TwoArguments(name) then 2 else 3
  {
    if name == "min" then v <= args[0] && v <= args[1] && (v == args[0] || v == args[1])
    else if name == "max" then v >= args[0] && v >= args[1] && (v == args[0] || v == args[1])
    else if name == "abs" then v >= 0.0 && (v == args[0] || v == -args[0])
    else if name == "floor" then IsWhole(v) && v <= args[0] < v + 1.0
    else if name == "round" then
      && IsWhole(v) && -0.5 <= v - args[0] <= 0.5
      && (v - args[0] == 0.5 ==> args[0] > 0.0) && (v - args[0] == -0.5 ==> args[0] < 0.0)
    else if name == "clamp" then
      && (args[1] <= args[0] <= args[2] ==> v == args[0])
      && (args[1] <= args[2] ==> args[1] <= v <= args[2] && (args[0] < args[1] ==> v == args[1]) && (args[0] > args[2] ==> v == args[2]))
    else v == env.analytic(name, args)
  }

  /** A call fails exactly for an unknown name or a wrong number of arguments, and otherwise means what its name says. */
  ghost predicate CallMeans(name: string, args: seq<real>, o: Outcome, env: Env) {
    var known := OneArgument(name) || TwoArguments(name) || name == "clamp";
    var arity := if OneArgument(name) then 1 else if TwoArguments(name) then 2 else 3;
    && (o == Failed(UnknownFunction) <==> !known)
    && (o == Failed(WrongArity) <==> known && |args| != arity)
    && (o.Value? <==> known && |args| == arity)
    && (o.Value? ==> Means(name, args, o.value, env))
  }

  lemma FloorBounds(x: real)
    ensures x.Floor as real <= x < x.Floor as real + 1.0
  {}

  lemma WholeOf(n: int)
    ensures IsWhole(n as real) && (n as real).Floor == n
  {}

  lemma Negates(n: int)
    ensures -(n as real) == (-n) as real
  {}

  lemma RoundedMeans(x: real)
    ensures var v := Rounded(x);
            && IsWhole(v) && -0.5 <= v - x <= 0.5
            && (v - x == 0.5 ==> x > 0.0) && (v - x == -0.5 ==> x < 0.0)
  {
    if x < 0.0 {
      var n := (-x + 0.5).Floor;
      FloorBounds(-x + 0.5);
      Negates(n);
      WholeOf(-n);
    } else {
      FloorBounds(x + 0.5);
      WholeOf((x + 0.5).Floor);
    }
  }

  lemma CallExactly(name: string, args: seq<real>, env: Env)
    ensures CallMeans(name, args, FloatExpr.Call(name, args, env), env)
  {
    if name == "round" && |args| == 1 { RoundedMeans(args[0]); }
  }

  /** Except for the abstract functions and a clamp with crossed bounds, that property leaves one value only. */
  lemma MeaningIsUnique(name: string, args: seq<real>, v: real, w: real, env: Env)
    requires |args| == if OneArgument(name) then 1 else if TwoArguments(name) then 2 else 3
    requires OneArgument(name) || TwoArguments(name) || (name == "clamp" && args[1] <= args[2])
    requires Means(name, args, v, env) && Means(name, args, w, env)
    ensures v == w
  {
    if name == "floor" || name == "round" { CloseWholes(v, w); }
  }

  lemma CloseWholes(v: real, w: real)
    requires IsWhole(v) && IsWhole(w) && -1.0 < v - w < 1.0
    ensures v == w
  {
    Difference(v.Floor, w.Floor);
  }

  lemma Difference(a: int, b: int)
    requires -1.0 < a as real - b as real < 1.0
    ensures a == b
  {
    assert a as real - b as real == (a - b) as real;
  }

  // ---------------------------------------------------------------- the meaning of a relation

  datatype Listed = Listed(values: seq<real>) | Unlisted(reason: Reason)

  /** Evaluation of the syntax tree over ideal reals, operands and arguments left to right. */
  function RealCheck(c: Cst, env: Env): Outcome
    decreases c
  {
    match c
    case Number(_, digits) => Value(DigitsFrom(0, digits) as real)
    case Numeral(_, whole, mark, fraction) => Value(env.scan(NumeralText(whole, mark, fraction)).0)
    case Name(_, name) =>
      if name == "pi" then Value(env.pi) else (match env.resolve(name) case Some(value) => Value(value) case None => Failed(ResolverThrew))
    case Applied(_, name, _, args, _) =>
      CallCheck(name, args, env)
    case Group(_, inner, _) => RealCheck(inner, env)
    case Sign(_, minus, operand) =>
      var o := RealCheck(operand, env);
      if o.Value? && minus then Value(-o.value) else o
    case Binary(left, _, op, right) =>
      var a := RealCheck(left, env);
      if !a.Value? then a
      else
        var b := RealCheck(right, env);
        if !b.Value? then b else Arithmetic(op, a.value, b.value)
  }

  function CallCheck(name: string, args: CstList, env: Env): Outcome
    decreases args, 1
  {
    match ListCheck(args, env)
    case Listed(values) => FloatExpr.Call(name, values, env)
    case Unlisted(reason) => Failed(reason)
  }

  function Arithmetic(op: char, a: real, b: real): Outcome {
    match op
    case '+' => Value(a + b)
    case '-' => Value(a - b)
    case '*' => Value(a * b)
    case _ => if b == 0.0 then Failed(DivisionByZero) else Value(a / b)
  }

  function ListCheck(args: CstList, env: Env): Listed
    decreases args, 0
  {
    match args
    case NoArguments => Listed([])
    case LastArgument(arg) =>
      (match RealCheck(arg, env) case Value(v) => Listed([v]) case Failed(reason) => Unlisted(reason))
    case Argument(arg, _, others) =>
      (match RealCheck(arg, env)
       case Failed(reason) => Unlisted(reason)
       case Value(v) =>
         match ListCheck(others, env) case Listed(values) => Listed([v] + values) case Unlisted(reason) => Unlisted(reason))
  }

  /** The floating grammar has no remainder. */
  predicate Percentless(c: Cst)
    decreases c
  {
    match c
    case Number(_, _) => true
    case Numeral(_, _, _, _) => true
    case Name(_, _) => true
    case Applied(_, _, _, args, _) => AllPercentless(args)
    case Group(_, inner, _) => Percentless(inner)
    case Sign(_, _, operand) => Percentless(operand)
    case Binary(left, _, op, right) => op != '%' && Percentless(left) && Percentless(right)
  }

  predicate AllPercentless(args: CstList)
    decreases args
  {
    match args
    case NoArguments => true
    case LastArgument(arg) => Percentless(arg)
    case Argument(arg, _, others) => Percentless(arg) && AllPercentless(others)
  }

  ghost predicate ScansAs(env: Env, text: string, value: real, rest: string) { env.scan(text + rest) == (value, |text|) }

  /** The scanner reads the whole literal, whatever ends it. */
  ghost predicate ScansWhole(env: Env, text: string, value: real) {
    forall rest: string | rest == "" || !IsNameChar(rest[0]) :: ScansAs(env, text, value, rest)
  }

  /** The scanner reads a complete decimal integer as its value. */
  ghost predicate ScansDecimals(env: Env) {
    forall digits: DigitText :: ScansWhole(env, digits, DigitsFrom(0, digits) as real)
  }

  /** Every literal with a point or exponent is one the scanner reads as a whole. */
  ghost predicate WellScanned(c: Cst, env: Env)
    decreases c
  {
    match c
    case Number(_, _) => true
    case Numeral(_, whole, mark, fraction) =>
      ScansWhole(env, NumeralText(whole, mark, fraction), env.scan(NumeralText(whole, mark, fraction)).0)
    case Name(_, _) => true
    case Applied(_, _, _, args, _) => AllScanned(args, env)
    case Group(_, inner, _) => WellScanned(inner, env)
    case Sign(_, _, operand) => WellScanned(operand, env)
    case Binary(left, _, _, right) => WellScanned(left, env) && WellScanned(right, env)
  }

  ghost predicate AllScanned(args: CstList, env: Env)
    decreases args
  {
    match args
    case NoArguments => true
    case LastArgument(arg) => WellScanned(arg, env)
    case Argument(arg, _, others) => WellScanned(arg, env) && AllScanned(others, env)
  }

  /** Text of the floating grammar. */
  ghost predicate Floats(c: Cst, env: Env) { Percentless(c) && WellScanned(c, env) && ScansDecimals(env) }
  ghost predicate AllFloat(args: CstList, env: Env) { AllPercentless(args) && AllScanned(args, env) && ScansDecimals(env) }

  // ---------------------------------------------------------------- completeness

  /** The parser read its text up to blanks with this value, or failed as the evaluation does. */
  predicate Reads(p: Parsed, o: Outcome, rest: string) {
    match o
    case Value(v) => p.Done? && p.value == v && Skip(p.rest) == Skip(rest)
    case Failed(reason) => p == Stop(reason)
  }

  lemma ProductTailSkips(v: real, s: string, t: string, env: Env)
    requires Skip(s) == Skip(t)
    ensures ProductTail(v, s, env) == ProductTail(v, t, env)
  {}

  lemma SumTailSkips(v: real, s: string, t: string, env: Env)
    requires Skip(s) == Skip(t)
    ensures SumTail(v, s, env) == SumTail(v, t, env)
  {}

  lemma PrimarySkips(ws: string, s: string, env: Env)
    requires Spaces(ws)
    ensures Unary(ws + s, env) == Unary(s, env) && Primary(ws + s, env) == Primary(s, env)
  {
    SkipSpaces(ws, s);
  }

  lemma LiteralReads(ws: string, text: string, value: real, rest: string, env: Env)
    requires Spaces(ws) && EndsToken(rest) && text != "" && (IsDigit(text[0]) || text[0] == '.') && ScansWhole(env, text, value)
    ensures Reads(Primary(ws + (text + rest), env), Value(value), rest)
  {
    PrimarySkips(ws, text + rest, env);
    assert ScansAs(env, text, value, rest);
    assert (text + rest)[0] == text[0];
    assert (text + rest)[|text|..] == rest;
  }

  lemma NumeralReads(ws: string, whole: string, mark: char, fraction: string, rest: string, env: Env)
    requires var c := Numeral(ws, whole, mark, fraction); Fits(c, PrimaryLevel) && EndsToken(rest) && WellScanned(c, env)
    ensures var c := Numeral(ws, whole, mark, fraction); Reads(Primary(Text(c) + rest, env), RealCheck(c, env), rest)
  {
    var t := NumeralText(whole, mark, fraction);
    assert (ws + t) + rest == ws + (t + rest) && t[0] == if whole == "" then mark else whole[0];
    LiteralReads(ws, t, env.scan(t).0, rest, env);
  }

  lemma NameReads(ws: string, name: string, rest: string, env: Env)
    requires Spaces(ws) && NameText(name) && EndsToken(rest)
    ensures Reads(Primary(ws + (name + rest), env), RealCheck(Name(ws, name), env), rest)
  {
    PrimarySkips(ws, name + rest, env);
    assert (name + rest)[0] == name[0];
    NameLengthIs(name, rest);
    assert (name + rest)[..|name|] == name && (name + rest)[|name|..] == rest;
    T.SkipTwice(rest);
  }

  lemma GroupStep(ws: string, inner: Cst, close: string, o: Outcome, rest: string, env: Env)
    requires Spaces(ws) && Spaces(close)
    requires var after := close + ([')'] + rest); Reads(Sum(Text(inner) + after, env), o, after)
    ensures Reads(Primary(Text(Group(ws, inner, close)) + rest, env), o, rest)
  {
    var body := Text(inner) + (close + ([')'] + rest));
    assert Text(Group(ws, inner, close)) + rest == ws + (['('] + body);
    PrimarySkips(ws, ['('] + body, env);
    PrimaryOpens(body, env);
    SkipSpaces(close, [')'] + rest);
    assert ([')'] + rest)[1..] == rest;
  }

  lemma PrimaryOpens(body: string, env: Env)
    ensures Primary(['('] + body, env)
            == match Sum(body, env)
               case Stop(reason) => Stop(reason)
               case Done(value, rest) =>
                 if Starts(Skip(rest), ')') then Done(value, Skip(rest)[1..]) else Stop(MissingParenthesis)
  {
    assert (['('] + body)[1..] == body;
  }

  /** The argument list was read up to blanks, its values after those before it, or it failed. */
  predicate ListReads(a: Arguments, before: seq<real>, l: Listed, rest: string) {
    match l
    case Listed(values) => a.Args? && a.values == before + values && Skip(a.rest) == Skip(rest)
    case Unlisted(reason) => a == BadArgs(reason)
  }

  lemma LastStep(before: seq<real>, body: string, o: Outcome, rest: string, env: Env)
    requires Reads(Sum(body, env), o, rest) && !Starts(Skip(rest), ',')
    ensures ListReads(ArgumentList(before, body, env), before, if o.Value? then Listed([o.value]) else Unlisted(o.reason), rest)
  {
    T.SkipTwice(rest);
  }

  lemma NextStep(before: seq<real>, body: string, o: Outcome, comma: string, others: string, l: Listed, rest: string, env: Env)
    requires Spaces(comma) && Reads(Sum(body, env), o, comma + ([','] + others))
    requires o.Value? ==> ListReads(ArgumentList(before + [o.value], others, env), before + [o.value], l, rest)
    ensures ListReads(ArgumentList(before, body, env), before,
              if !o.Value? then Unlisted(o.reason) else if l.Listed? then Listed([o.value] + l.values) else l, rest)
  {
    SkipSpaces(comma, [','] + others);
    assert ([','] + others)[1..] == others;
    if o.Value? && l.Listed? { assert (before + [o.value]) + l.values == before + ([o.value] + l.values); }
  }

  lemma {:induction false} ListReadsText(before: seq<real>, args: CstList, rest: string, env: Env)
    requires FitsAll(args) && EndsSum(rest) && !Starts(Skip(rest), ',') && AllFloat(args, env)
    ensures ListReads(ArgumentList(before, ArgumentsText(args) + rest, env), before, ListCheck(args, env), rest)
    decreases args, 7
  {
    match args
    case LastArgument(arg) =>
      SumReads(arg, rest, env);
      LastStep(before, Text(arg) + rest, RealCheck(arg, env), rest, env);
    case Argument(arg, comma, others) =>
      var more := ArgumentsText(others) + rest;
      assert ArgumentsText(args) + rest == Text(arg) + (comma + ([','] + more));
      OperatorEndsToken(comma, ',', more);
      SumReads(arg, comma + ([','] + more), env);
      if RealCheck(arg, env).Value? { ListReadsText(before + [RealCheck(arg, env).value], others, rest, env); }
      NextStep(before, Text(arg) + (comma + ([','] + more)), RealCheck(arg, env), comma, more, ListCheck(others, env), rest, env);
  }

  /** A call after its opening parenthesis. */
  lemma CallStep(name: string, body: string, l: Listed, close: string, rest: string, env: Env)
    requires Spaces(close) && !Starts(Skip(body), ')')
    requires ListReads(ArgumentList([], Skip(body), env), [], l, close + ([')'] + rest))
    ensures Reads(CallRest(name, body, env), if l.Listed? then FloatExpr.Call(name, l.values, env) else Failed(l.reason), rest)
  {
    SkipSpaces(close, [')'] + rest);
    assert ([')'] + rest)[1..] == rest;
    if l.Listed? { assert [] + l.values == l.values; }
  }

  lemma EmptyCall(name: string, close: string, rest: string, env: Env)
    requires Spaces(close)
    ensures Reads(CallRest(name, close + ([')'] + rest), env), FloatExpr.Call(name, [], env), rest)
  {
    SkipSpaces(close, [')'] + rest);
    assert ([')'] + rest)[1..] == rest;
  }

  lemma BlanksThen(ws: string, body: string, rest: string)
    requires Spaces(ws) && body != "" && !IsSpace(body[0]) && body[0] != ')'
    ensures Skip((ws + body) + rest) != "" && !Starts(Skip((ws + body) + rest), ')')
  {
    assert (ws + body) + rest == ws + (body + rest);
    assert (body + rest)[0] == body[0];
    SkipSpaces(ws, body + rest);
  }

  /** Text of a relation starts with no closing parenthesis. */
  lemma {:induction false} StartsOperand(c: Cst, rest: string)
    requires Fits(c, SumLevel)
    ensures Skip(Text(c) + rest) != "" && !Starts(Skip(Text(c) + rest), ')')
    decreases c
  {
    match c
    case Number(ws, digits) => BlanksThen(ws, digits, rest);
    case Numeral(ws, whole, mark, fraction) =>
      assert NumeralText(whole, mark, fraction)[0] == if whole == "" then mark else whole[0];
      BlanksThen(ws, NumeralText(whole, mark, fraction), rest);
    case Name(ws, name) => BlanksThen(ws, name, rest);
    case Applied(ws, name, gap, args, close) => BlanksThen(ws, name + (gap + ("(" + (ArgumentsText(args) + (close + ")")))), rest);
    case Group(ws, inner, close) => BlanksThen(ws, "(" + (Text(inner) + (close + ")")), rest);
    case Sign(ws, minus, operand) => BlanksThen(ws, (if minus then "-" else "+") + Text(operand), rest);
    case Binary(left, ws, op, right) =>
      T.FitsSum(left, T.LeftLevel(op));
      assert Text(c) + rest == Text(left) + ((ws + ([op] + Text(right))) + rest);
      StartsOperand(left, (ws + ([op] + Text(right))) + rest);
  }

  lemma ListStarts(args: CstList, rest: string)
    requires FitsAll(args)
    ensures !Starts(Skip(ArgumentsText(args) + rest), ')')
  {
    match args
    case LastArgument(arg) => StartsOperand(arg, rest);
    case Argument(arg, comma, others) =>
      assert ArgumentsText(args) + rest == Text(arg) + ((comma + ("," + ArgumentsText(others))) + rest);
      StartsOperand(arg, (comma + ("," + ArgumentsText(others))) + rest);
  }

  lemma SkippedList(before: seq<real>, s: string, env: Env)
    ensures ArgumentList(before, Skip(s), env) == ArgumentList(before, s, env)
  {
    var ws := Skipped(s);
    PrimarySkips(ws, Skip(s), env);
    assert Product(s, env) == Product(Skip(s), env);
    assert Sum(s, env) == Sum(Skip(s), env);
  }

  lemma {:induction false} CallReads(name: string, args: CstList, close: string, rest: string, env: Env)
    requires Spaces(close) && (args.NoArguments? || FitsAll(args)) && AllFloat(args, env)
    ensures Reads(CallRest(name, ArgumentsText(args) + (close + ([')'] + rest)), env), CallCheck(name, args, env), rest)
    decreases args, 8
  {
    var after := close + ([')'] + rest);
    if args.NoArguments? {
      assert ArgumentsText(args) + after == after;
      EmptyCall(name, close, rest, env);
    } else {
      OperatorEndsToken(close, ')', rest);
      ListReadsText([], args, after, env);
      ListStarts(args, after);
      SkippedList([], ArgumentsText(args) + after, env);
      CallStep(name, ArgumentsText(args) + after, ListCheck(args, env), close, rest, env);
    }
  }

  lemma NameThenCall(ws: string, name: string, gap: string, body: string, env: Env)
    requires Spaces(ws) && NameText(name) && Spaces(gap)
    ensures Primary(ws + (name + (gap + (['('] + body))), env) == CallRest(name, body, env)
  {
    var s := name + (gap + (['('] + body));
    PrimarySkips(ws, s, env);
    T.NameOpens(name, gap, body);
    assert (['('] + body)[1..] == body;
  }

  lemma AppliedStep(ws: string, name: string, gap: string, args: CstList, close: string, o: Outcome, rest: string, env: Env)
    requires Spaces(ws) && NameText(name) && Spaces(gap)
    requires Reads(CallRest(name, ArgumentsText(args) + (close + ([')'] + rest)), env), o, rest)
    ensures Reads(Primary(Text(Applied(ws, name, gap, args, close)) + rest, env), o, rest)
  {
    var body := ArgumentsText(args) + (close + ([')'] + rest));
    assert Text(Applied(ws, name, gap, args, close)) + rest == ws + (name + (gap + (['('] + body)));
    NameThenCall(ws, name, gap, body, env);
  }

  lemma {:induction false} PrimaryReads(c: Cst, rest: string, env: Env)
    requires Fits(c, PrimaryLevel) && EndsToken(rest) && Floats(c, env)
    ensures Reads(Primary(Text(c) + rest, env), RealCheck(c, env), rest)
    decreases c, 0
  {
    match c
    case Number(ws, digits) =>
      assert Text(c) + rest == ws + (digits + rest);
      LiteralReads(ws, digits, DigitsFrom(0, digits) as real, rest, env);
    case Numeral(ws, whole, mark, fraction) => NumeralReads(ws, whole, mark, fraction, rest, env);
    case Name(ws, name) =>
      assert Text(c) + rest == ws + (name + rest);
      NameReads(ws, name, rest, env);
    case Applied(ws, name, gap, args, close) =>
      CallReads(name, args, close, rest, env);
      AppliedStep(ws, name, gap, args, close, CallCheck(name, args, env), rest, env);
    case Group(ws, inner, close) =>
      OperatorEndsToken(close, ')', rest);
      SumReads(inner, close + ([')'] + rest), env);
      GroupStep(ws, inner, close, RealCheck(inner, env), rest, env);
  }

  lemma {:induction false} PrimaryUnary(c: Cst, ws: string, body: string, rest: string, env: Env)
    requires Fits(c, PrimaryLevel) && EndsToken(rest) && Floats(c, env)
    requires Spaces(ws) && Text(c) == ws + body && body != "" && !IsSpace(body[0]) && body[0] != '+' && body[0] != '-'
    ensures Reads(Unary(Text(c) + rest, env), RealCheck(c, env), rest)
    decreases c, 1
  {
    PrimaryReads(c, rest, env);
    assert Text(c) + rest == ws + (body + rest);
    PrimarySkips(ws, body + rest, env);
    assert (body + rest)[0] == body[0];
  }

  lemma SignStep(ws: string, minus: bool, body: string, o: Outcome, rest: string, env: Env)
    requires Spaces(ws) && Reads(Unary(body, env), o, rest)
    ensures Reads(Unary(ws + ([if minus then '-' else '+'] + body), env), if o.Value? && minus then Value(-o.value) else o, rest)
  {
    var marked := [if minus then '-' else '+'] + body;
    PrimarySkips(ws, marked, env);
    assert marked[1..] == body;
  }

  lemma {:induction false} UnaryReads(c: Cst, rest: string, env: Env)
    requires Fits(c, UnaryLevel) && EndsToken(rest) && Floats(c, env)
    ensures Reads(Unary(Text(c) + rest, env), RealCheck(c, env), rest)
    decreases c, 2
  {
    match c
    case Sign(ws, minus, operand) =>
      T.SignText(ws, minus, operand, rest);
      UnaryReads(operand, rest, env);
      SignStep(ws, minus, Text(operand) + rest, RealCheck(operand, env), rest, env);
    case Number(ws, digits) => PrimaryUnary(c, ws, digits, rest, env);
    case Numeral(ws, whole, mark, fraction) =>
      assert NumeralText(whole, mark, fraction)[0] == if whole == "" then mark else whole[0];
      PrimaryUnary(c, ws, NumeralText(whole, mark, fraction), rest, env);
    case Name(ws, name) => PrimaryUnary(c, ws, name, rest, env);
    case Applied(ws, name, gap, args, close) =>
      PrimaryUnary(c, ws, name + (gap + ("(" + (ArgumentsText(args) + (close + ")")))), rest, env);
    case Group(ws, inner, close) => PrimaryUnary(c, ws, ['('] + (Text(inner) + (close + ")")), rest, env);
  }

  lemma ProductStep(a: real, op: Operator, tail: string, body: string, b: Outcome, rest: string, env: Env)
    requires Scaling(op) && Skip(tail) == [op] + body && Reads(Unary(body, env), b, rest)
    ensures var o := if b.Value? then Arithmetic(op, a, b.value) else b;
            ProductTail(a, tail, env) == if o.Value? then ProductTail(o.value, rest, env) else Stop(o.reason)
  {
    assert ([op] + body)[1..] == body;
    if b.Value? && Arithmetic(op, a, b.value).Value? {
      ProductTailSkips(Arithmetic(op, a, b.value).value, Unary(body, env).rest, rest, env);
    }
  }

  lemma {:induction false} ProductThen(c: Cst, rest: string, env: Env)
    requires Fits(c, ProductLevel) && EndsToken(rest) && Floats(c, env)
    ensures var o := RealCheck(c, env);
            Product(Text(c) + rest, env) == if o.Value? then ProductTail(o.value, rest, env) else Stop(o.reason)
    decreases c, 3
  {
    if c.Binary? {
      var tail := c.ws + ([c.op] + (Text(c.right) + rest));
      assert Text(c) + rest == Text(c.left) + tail;
      OperatorEndsToken(c.ws, c.op, Text(c.right) + rest);
      ProductThen(c.left, tail, env);
      UnaryReads(c.right, rest, env);
      if RealCheck(c.left, env).Value? {
        ProductStep(RealCheck(c.left, env).value, c.op, tail, Text(c.right) + rest, RealCheck(c.right, env), rest, env);
      }
    } else {
      UnaryReads(c, rest, env);
      if RealCheck(c, env).Value? { ProductTailSkips(RealCheck(c, env).value, Unary(Text(c) + rest, env).rest, rest, env); }
    }
  }

  lemma ProductReads(c: Cst, rest: string, env: Env)
    requires Fits(c, ProductLevel) && EndsProduct(rest) && Floats(c, env)
    ensures Reads(Product(Text(c) + rest, env), RealCheck(c, env), rest)
    decreases c, 4
  {
    ProductThen(c, rest, env);
    T.SkipTwice(rest);
  }

  lemma SumStep(a: real, op: Operator, tail: string, body: string, b: Outcome, rest: string, env: Env)
    requires Additive(op) && Skip(tail) == [op] + body && Reads(Product(body, env), b, rest)
    ensures var o := if b.Value? then Arithmetic(op, a, b.value) else b;
            SumTail(a, tail, env) == if o.Value? then SumTail(o.value, rest, env) else Stop(o.reason)
  {
    assert ([op] + body)[1..] == body;
    if b.Value? { SumTailSkips(Arithmetic(op, a, b.value).value, Product(body, env).rest, rest, env); }
  }

  lemma {:induction false} SumThen(c: Cst, rest: string, env: Env)
    requires Fits(c, SumLevel) && EndsProduct(rest) && Floats(c, env)
    ensures var o := RealCheck(c, env);
            Sum(Text(c) + rest, env) == if o.Value? then SumTail(o.value, rest, env) else Stop(o.reason)
    decreases c, 5
  {
    if c.Binary? && Additive(c.op) {
      var tail := c.ws + ([c.op] + (Text(c.right) + rest));
      assert Text(c) + rest == Text(c.left) + tail;
      OperatorEndsToken(c.ws, c.op, Text(c.right) + rest);
      SumThen(c.left, tail, env);
      ProductReads(c.right, rest, env);
      if RealCheck(c.left, env).Value? {
        SumStep(RealCheck(c.left, env).value, c.op, tail, Text(c.right) + rest, RealCheck(c.right, env), rest, env);
      }
    } else {
      ProductReads(c, rest, env);
      if RealCheck(c, env).Value? { SumTailSkips(RealCheck(c, env).value, Product(Text(c) + rest, env).rest, rest, env); }
    }
  }

  lemma {:induction false} SumReads(c: Cst, rest: string, env: Env)
    requires Fits(c, SumLevel) && EndsSum(rest) && Floats(c, env)
    ensures Reads(Sum(Text(c) + rest, env), RealCheck(c, env), rest)
    decreases c, 6
  {
    SumThen(c, rest, env);
    T.SkipTwice(rest);
  }

  /** On every relation of the floating grammar, calls and decimal literals included, with any blanks, the floating
      evaluator returns its left-associative value over ideal reals, or fails exactly as that evaluation does. */
  lemma FloatingComplete(s: string, c: Cst, trailing: string, env: Env)
    requires T.IsRelation(s, c, trailing) && Floats(c, env)
    ensures EvaluateReal(s, env) == RealCheck(c, env)
  {
    SkipSpaces(trailing, "");
    assert trailing + "" == trailing;
    assert trailing != "" ==> IsSpace(trailing[0]);
    SumReads(c, trailing, env);
  }
}
