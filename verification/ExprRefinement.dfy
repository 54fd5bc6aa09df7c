/** The exact path refines the floating path: where every division is exact, whatever value the integer
    evaluator returns is also what the floating evaluator returns over ideal reals. */
module ExprRefinement {
  import opened ExprText
  import I = IntegerExpr
  import F = FloatExpr
  import opened FloatTheorems

  /** Both resolvers answer integral identifiers alike. */
  ghost predicate SameAnswers(resolve: I.Resolver, env: F.Env) {
    forall name :: resolve(name).Integral? ==> env.resolve(name) == F.Some(resolve(name).value as real)
  }

  ghost predicate Compatible(resolve: I.Resolver, env: F.Env) { SameAnswers(resolve, env) && ScansDecimals(env) }

  lemma {:induction false} NatProduct(a: nat, b: int)
    ensures (a * b) as real == a as real * b as real
    decreases a
  {
    if a > 0 {
      NatProduct(a - 1, b);
      assert a * b == (a - 1) * b + b;
      assert a as real * b as real == (a - 1) as real * b as real + b as real;
    }
  }

  lemma RealProduct(a: int, b: int)
    ensures (a * b) as real == a as real * b as real
  {
    if a >= 0 {
      NatProduct(a, b);
    } else {
      NatProduct(-a, b);
      assert a * b == -((-a) * b);
      assert a as real * b as real == -((-a) as real * b as real);
    }
  }

  // ---------------------------------------------------------------- where both paths agree

  /** No remainder operation, and every division leaves no remainder. */
  predicate Divides(c: Cst, resolve: I.Resolver) {
    match c
    case Number(_, _) => true
    case Numeral(_, _, _, _) => true
    case Name(_, _) => true
    case Applied(_, _, _, _, _) => true
    case Group(_, inner, _) => Divides(inner, resolve)
    case Sign(_, _, operand) => Divides(operand, resolve)
    case Binary(left, _, op, right) =>
      && Divides(left, resolve) && Divides(right, resolve) && op != '%'
      && (op == '/' && T.Exact(c, resolve).Exactly? ==>
            I.Remainder(T.Exact(left, resolve).value, T.Exact(right, resolve).value) == 0)
  }

  lemma RealQuotient(a: int, b: int)
    requires b != 0
    ensures a as real / b as real == I.Quotient(a, b) as real <==> I.Remainder(a, b) == 0
  {
    T.Truncates(a, b);
    QuotientBy(a, b, I.Quotient(a, b), I.Remainder(a, b));
  }

  lemma QuotientBy(a: int, b: int, q: int, r: int)
    requires b != 0 && a == b * q + r
    ensures a as real / b as real == q as real <==> r == 0
  {
    RealProduct(b, q);
    QuotientUnique(a as real, b as real, q as real);
    RealEqual(a, b * q);
  }

  lemma RealEqual(a: int, b: int)
    ensures a as real == b as real <==> a == b
  {}

  lemma QuotientUnique(a: real, b: real, q: real)
    requires b != 0.0
    ensures a / b == q <==> a == b * q
  {
    if a == b * q { assert a / b == q; }
    if a / b == q { assert a == b * q; }
  }

  ghost predicate CombinesAlike(op: Operator, a: int, b: int)
    requires T.Combined(op, a, b).Exactly?
  {
    F.Combine(op, a as real, b as real) == F.Value(T.Combined(op, a, b).value as real)
  }

  lemma LinearReal(op: Operator, a: int, b: int)
    requires op == '+' || op == '-'
    ensures T.Combined(op, a, b).Exactly? && CombinesAlike(op, a, b)
  {}

  lemma ProductReal(op: Operator, a: int, b: int)
    requires op == '*'
    ensures T.Combined(op, a, b).Exactly? && CombinesAlike(op, a, b)
  {
    RealProduct(a, b);
  }

  lemma QuotientReal(op: Operator, a: int, b: int)
    requires op == '/' && b != 0 && I.Remainder(a, b) == 0
    ensures T.Combined(op, a, b).Exactly? && CombinesAlike(op, a, b)
  {
    RealQuotient(a, b);
  }

  lemma NoZeroDivisor(a: int, b: int)
    requires T.Combined('/', a, b).Exactly?
    ensures b != 0
  {}

  lemma CombinedReal(op: Operator, a: int, b: int)
    requires op != '%' && T.Combined(op, a, b).Exactly? && (op == '/' ==> I.Remainder(a, b) == 0)
    ensures F.Combine(op, a as real, b as real) == F.Value(T.Combined(op, a, b).value as real)
  {
    if op == '*' {
      ProductReal(op, a, b);
    } else if op == '/' {
      NoZeroDivisor(a, b);
      QuotientReal(op, a, b);
    } else {
      LinearReal(op, a, b);
    }
    assert CombinesAlike(op, a, b);
  }

  /** Where every division is exact the value over reals is the value over integers. */
  lemma {:induction false} DividesIsReal(c: Cst, resolve: I.Resolver, env: F.Env)
    requires Divides(c, resolve) && T.Exact(c, resolve).Exactly? && SameAnswers(resolve, env)
    ensures RealCheck(c, env) == F.Value(T.Exact(c, resolve).value as real)
    ensures Percentless(c) && (ScansDecimals(env) ==> WellScanned(c, env))
    decreases c
  {
    match c
    case Number(_, _) =>
    case Numeral(_, _, _, _) =>
    case Name(_, name) => assert resolve(name).Integral?;
    case Applied(_, _, _, _, _) =>
    case Group(_, inner, _) => DividesIsReal(inner, resolve, env);
    case Sign(_, _, operand) => DividesIsReal(operand, resolve, env);
    case Binary(left, _, op, right) =>
      DividesIsReal(left, resolve, env);
      DividesIsReal(right, resolve, env);
      CombinedReal(op, T.Exact(left, resolve).value, T.Exact(right, resolve).value);
  }

  /** If the exact evaluator returns `v` and every division was exact, so does the floating evaluator. */
  lemma ExactDivisionRefines(s: string, c: Cst, trailing: string, v: I.ExactInteger, resolve: I.Resolver, env: F.Env)
    requires T.IsRelation(s, c, trailing) && I.EvaluateInteger(s, resolve) == I.Value(v)
    requires Divides(c, resolve) && Compatible(resolve, env)
    ensures F.EvaluateReal(s, env) == F.Value(v as real)
  {
    T.Complete(c, trailing, resolve);
    T.CheckedIffExact(c, resolve);
    DividesIsReal(c, resolve, env);
    FloatingComplete(s, c, trailing, env);
  }

  lemma {:induction false} PlainDivides(c: Cst, resolve: I.Resolver)
    requires '/' !in Text(c) && '%' !in Text(c)
    ensures Divides(c, resolve)
    decreases c
  {
    match c
    case Number(_, _) =>
    case Numeral(_, _, _, _) =>
    case Name(_, _) =>
    case Applied(_, _, _, _, _) =>
    case Group(ws, inner, close) =>
      forall x | x in Text(inner) ensures x in Text(c) {}
      PlainDivides(inner, resolve);
    case Sign(ws, minus, operand) =>
      forall x | x in Text(operand) ensures x in Text(c) {}
      PlainDivides(operand, resolve);
    case Binary(left, ws, op, right) =>
      assert op in [op] + Text(right);
      assert op in Text(c);
      forall x | x in Text(left) || x in Text(right) ensures x in Text(c) {}
      PlainDivides(left, resolve);
      PlainDivides(right, resolve);
  }

  /** If the exact evaluator returns `v` on text without / and %, so does the floating evaluator. */
  lemma ExactRefinesFloating(s: string, v: I.ExactInteger, resolve: I.Resolver, env: F.Env)
    requires I.EvaluateInteger(s, resolve) == I.Value(v) && '/' !in s && '%' !in s && Compatible(resolve, env)
    ensures F.EvaluateReal(s, env) == F.Value(v as real)
  {
    var c, trailing := T.Sound(s, resolve);
    forall x | x in Text(c) ensures x in s {}
    PlainDivides(c, resolve);
    ExactDivisionRefines(s, c, trailing, v, resolve, env);
  }

  // ---------------------------------------------------------------- where they part

  /** When the last operation is the first inexact division, the paths agree exactly if it leaves no remainder. */
  lemma LastDivisionIff(s: string, c: Cst, trailing: string, v: I.ExactInteger, resolve: I.Resolver, env: F.Env)
    requires T.IsRelation(s, c, trailing) && I.EvaluateInteger(s, resolve) == I.Value(v) && Compatible(resolve, env)
    requires c.Binary? && c.op == '/' && Divides(c.left, resolve) && Divides(c.right, resolve)
    ensures T.Exact(c.left, resolve).Exactly? && T.Exact(c.right, resolve).Exactly? && T.Exact(c.right, resolve).value != 0
    ensures var a, b := T.Exact(c.left, resolve).value, T.Exact(c.right, resolve).value;
            && F.EvaluateReal(s, env) == F.Value(a as real / b as real)
            && (F.EvaluateReal(s, env) == F.Value(v as real) <==> I.Remainder(a, b) == 0)
  {
    T.Complete(c, trailing, resolve);
    T.CheckedIffExact(c, resolve);
    DividesIsReal(c.left, resolve, env);
    DividesIsReal(c.right, resolve, env);
    RealQuotient(T.Exact(c.left, resolve).value, T.Exact(c.right, resolve).value);
    FloatingComplete(s, c, trailing, env);
  }

  /** The number scanner never reads over a percent sign. */
  ghost predicate StopsAtPercent(env: F.Env) {
    forall s: string :: env.scan(s).1 <= |s| ==> '%' !in s[..env.scan(s).1]
  }

  /** A percent sign of the text is still unread. */
  predicate Left(s: string, rest: string) { '%' in s ==> '%' in rest }

  lemma SkipLeaves(s: string)
    ensures Left(s, Skip(s))
  {
    var ws := Skipped(s);
    assert forall i | 0 <= i < |ws| :: ws[i] != '%';
  }

  lemma RestLeaves(s: string)
    requires s != "" && s[0] != '%'
    ensures Left(s, s[1..])
  {}

  lemma NameLeaves(s: string)
    ensures Left(s, s[NameLength(s)..])
  {
    assert s == s[..NameLength(s)] + s[NameLength(s)..];
  }

  lemma ScanLeaves(s: string, env: F.Env)
    requires StopsAtPercent(env) && F.Scanned(s, env).Done?
    ensures Left(s, F.Scanned(s, env).rest)
  {
    var n := env.scan(s).1;
    assert s == s[..n] + s[n..];
  }

  lemma {:induction false} SumLeaves(s: string, env: F.Env)
    requires StopsAtPercent(env) && F.Sum(s, env).Done?
    ensures Left(s, F.Sum(s, env).rest)
    decreases |s|, 6
  {
    ProductLeaves(s, env);
    var p := F.Product(s, env);
    SumTailLeaves(p.value, p.rest, env);
  }

  lemma {:induction false} SumTailLeaves(acc: real, s: string, env: F.Env)
    requires StopsAtPercent(env) && F.SumTail(acc, s, env).Done?
    ensures Left(s, F.SumTail(acc, s, env).rest)
    decreases |s|, 5
  {
    var t := Skip(s);
    SkipLeaves(s);
    if t != "" && Additive(t[0]) {
      RestLeaves(t);
      ProductLeaves(t[1..], env);
      var p := F.Product(t[1..], env);
      SumTailLeaves(if t[0] == '+' then acc + p.value else acc - p.value, p.rest, env);
    }
  }

  lemma {:induction false} ProductLeaves(s: string, env: F.Env)
    requires StopsAtPercent(env) && F.Product(s, env).Done?
    ensures Left(s, F.Product(s, env).rest)
    decreases |s|, 4
  {
    UnaryLeaves(s, env);
    var p := F.Unary(s, env);
    ProductTailLeaves(p.value, p.rest, env);
  }

  lemma {:induction false} ProductTailLeaves(acc: real, s: string, env: F.Env)
    requires StopsAtPercent(env) && F.ProductTail(acc, s, env).Done?
    ensures Left(s, F.ProductTail(acc, s, env).rest)
    decreases |s|, 3
  {
    var t := Skip(s);
    SkipLeaves(s);
    if t != "" && F.Scaling(t[0]) {
      RestLeaves(t);
      UnaryLeaves(t[1..], env);
      var p := F.Unary(t[1..], env);
      ProductTailLeaves(F.Combine(t[0], acc, p.value).value, p.rest, env);
    }
  }

  lemma {:induction false} UnaryLeaves(s: string, env: F.Env)
    requires StopsAtPercent(env) && F.Unary(s, env).Done?
    ensures Left(s, F.Unary(s, env).rest)
    decreases |s|, 2
  {
    var t := Skip(s);
    SkipLeaves(s);
    if Starts(t, '+') || Starts(t, '-') {
      RestLeaves(t);
      UnaryLeaves(t[1..], env);
    } else {
      PrimaryLeaves(t, env);
    }
  }

  lemma {:induction false} PrimaryLeaves(s: string, env: F.Env)
    requires StopsAtPercent(env) && F.Primary(s, env).Done?
    ensures Left(s, F.Primary(s, env).rest)
    decreases |s|, 1
  {
    var t := Skip(s);
    SkipLeaves(s);
    if Starts(t, '(') {
      RestLeaves(t);
      SumLeaves(t[1..], env);
      CloseLeaves(F.Sum(t[1..], env).rest, ')');
    } else if IsDigit(t[0]) || t[0] == '.' {
      ScanLeaves(t, env);
    } else {
      IdentifierLeaves(t, env);
    }
  }

  lemma CloseLeaves(s: string, close: char)
    requires Starts(Skip(s), close) && close != '%'
    ensures Left(s, Skip(s)[1..])
  {
    SkipLeaves(s);
    RestLeaves(Skip(s));
  }

  lemma {:induction false} IdentifierLeaves(s: string, env: F.Env)
    requires StopsAtPercent(env) && s != "" && IsNameStart(s[0]) && F.Identifier(s, env).Done?
    ensures Left(s, F.Identifier(s, env).rest)
    decreases |s|, 0
  {
    NameLeaves(s);
    SkipLeaves(s[NameLength(s)..]);
    var after := Skip(s[NameLength(s)..]);
    if Starts(after, '(') {
      RestLeaves(after);
      CallLeaves(s[..NameLength(s)], after[1..], env);
    }
  }

  lemma {:induction false} CallLeaves(name: string, s: string, env: F.Env)
    requires StopsAtPercent(env) && F.CallRest(name, s, env).Done?
    ensures Left(s, F.CallRest(name, s, env).rest)
    decreases |s|, 8
  {
    var open := Skip(s);
    SkipLeaves(s);
    if Starts(open, ')') {
      RestLeaves(open);
    } else {
      ArgumentsLeave([], open, env);
      CloseLeaves(F.ArgumentList([], open, env).rest, ')');
    }
  }

  lemma {:induction false} ArgumentsLeave(values: seq<real>, s: string, env: F.Env)
    requires StopsAtPercent(env) && F.ArgumentList(values, s, env).Args?
    ensures Left(s, F.ArgumentList(values, s, env).rest)
    decreases |s|, 7
  {
    SumLeaves(s, env);
    var p := F.Sum(s, env);
    SkipLeaves(p.rest);
    var t := Skip(p.rest);
    if Starts(t, ',') {
      RestLeaves(t);
      ArgumentsLeave(values + [p.value], t[1..], env);
    }
  }

  /** The floating path accepts no text with a percent sign, whatever the exact path makes of it. */
  lemma FloatingRejectsPercent(s: string, env: F.Env)
    requires StopsAtPercent(env) && '%' in s
    ensures F.EvaluateReal(s, env).Failed?
  {
    if F.Sum(s, env).Done? {
      SumLeaves(s, env);
      SkipLeaves(F.Sum(s, env).rest);
    }
  }
}
