/** Text of arithmetic relations: character classes, concrete syntax with every blank kept, and the
    grammar levels of the two recursive-descent evaluators. */
module ExprText {

  predicate IsSpace(c: char) { c in {' ', '\t', '\n', '\r', 11 as char, 12 as char} }
  predicate IsDigit(c: char) { '0' <= c <= '9' }
  predicate IsAlpha(c: char) { 'a' <= c <= 'z' || 'A' <= c <= 'Z' }
  predicate IsNameStart(c: char) { IsAlpha(c) || c == '_' }
  predicate IsNameChar(c: char) { IsAlpha(c) || IsDigit(c) || c in {'_', '.', '[', ']'} }

  predicate Starts(s: string, c: char) { s != "" && s[0] == c }

  predicate Spaces(s: string) { forall i | 0 <= i < |s| :: IsSpace(s[i]) }
  predicate Digits(s: string) { s != "" && forall i | 0 <= i < |s| :: IsDigit(s[i]) }
  predicate NameText(s: string) { s != "" && IsNameStart(s[0]) && forall i | 0 <= i < |s| :: IsNameChar(s[i]) }

  /** The text after leading blanks. */
  function Skip(s: string): (r: string)
    ensures |r| <= |s| && (r != "" ==> !IsSpace(r[0]))
  {
    if s != "" && IsSpace(s[0]) then Skip(s[1..]) else s
  }

  lemma {:induction false} SkipSpaces(ws: string, s: string)
    requires Spaces(ws)
    ensures Skip(ws + s) == Skip(s)
    decreases |ws|
  {
    if ws == "" {
      assert ws + s == s;
    } else {
      assert (ws + s)[1..] == ws[1..] + s;
      SkipSpaces(ws[1..], s);
    }
  }

  /** What `Skip` removed. */
  lemma {:induction false} Skipped(s: string) returns (ws: string)
    ensures Spaces(ws) && ws + Skip(s) == s
    decreases |s|
  {
    if s != "" && IsSpace(s[0]) {
      var rest := Skipped(s[1..]);
      ws := [s[0]] + rest;
      assert ws + Skip(s) == [s[0]] + (rest + Skip(s[1..]));
    } else {
      ws := "";
    }
  }

  /** The longest prefix of name characters. */
  function NameLength(s: string): (n: nat)
    ensures n <= |s| && (forall i | 0 <= i < n :: IsNameChar(s[i])) && (n < |s| ==> !IsNameChar(s[n]))
  {
    if s != "" && IsNameChar(s[0]) then
      var m := NameLength(s[1..]);
      assert forall i | 1 <= i < m + 1 :: s[i] == s[1..][i - 1];
      1 + m
    else 0
  }

  lemma NameLengthIs(name: string, rest: string)
    requires forall i | 0 <= i < |name| :: IsNameChar(name[i])
    requires rest != "" ==> !IsNameChar(rest[0])
    ensures NameLength(name + rest) == |name|
  {
    var s := name + rest;
    assert forall i | 0 <= i < |name| :: s[i] == name[i];
    assert rest != "" ==> s[|name|] == rest[0];
  }

  // ---------------------------------------------------------------- literals

  function DigitValue(c: char): (d: nat)
    requires IsDigit(c)
    ensures d < 10
  { c as int - '0' as int }

  /** Value of a digit string read after `high`. */
  function DigitsFrom(high: nat, digits: string): nat
    requires forall i | 0 <= i < |digits| :: IsDigit(digits[i])
    decreases |digits|
  {
    if digits == "" then high else DigitsFrom(10 * high + DigitValue(digits[0]), digits[1..])
  }

  function DigitChar(d: nat): (c: char)
    requires d < 10
    ensures IsDigit(c) && DigitValue(c) == d
  { ('0' as int + d) as char }

  /** Decimal notation without leading zeros. */
  function Decimal(n: nat): (digits: string)
    ensures Digits(digits)
  {
    if n < 10 then [DigitChar(n)] else Decimal(n / 10) + [DigitChar(n % 10)]
  }

  lemma {:induction false} DigitsAppend(high: nat, digits: string, last: char)
    requires (forall i | 0 <= i < |digits| :: IsDigit(digits[i])) && IsDigit(last)
    ensures DigitsFrom(high, digits + [last]) == 10 * DigitsFrom(high, digits) + DigitValue(last)
    decreases |digits|
  {
    if digits != "" {
      assert (digits + [last])[1..] == digits[1..] + [last];
      DigitsAppend(10 * high + DigitValue(digits[0]), digits[1..], last);
    } else {
      assert digits + [last] == [last];
      assert DigitsFrom(high, [last]) == DigitsFrom(10 * high + DigitValue(last), [last][1..]);
    }
  }

  lemma {:induction false} DecimalValue(n: nat)
    ensures DigitsFrom(0, Decimal(n)) == n
  {
    if n >= 10 {
      DecimalValue(n / 10);
      DigitsAppend(0, Decimal(n / 10), DigitChar(n % 10));
    } else {
      assert Decimal(n)[1..] == "";
    }
  }

  lemma {:induction false} DigitsGrow(high: nat, digits: string)
    requires forall i | 0 <= i < |digits| :: IsDigit(digits[i])
    ensures DigitsFrom(high, digits) >= high
    decreases |digits|
  {
    if digits != "" { DigitsGrow(10 * high + DigitValue(digits[0]), digits[1..]); }
  }

  // ---------------------------------------------------------------- concrete syntax

  type DigitText = s: string | Digits(s) witness "0"
  type Operator = c: char | Additive(c) || Multiplicative(c) witness '+'

  /** A `Numeral` is a literal with a decimal point or exponent: its digits, the mark, and what follows. */
  datatype Cst =
    | Number(ws: string, digits: DigitText)
    | Numeral(ws: string, whole: string, mark: char, fraction: string)
    | Name(ws: string, name: string)
    | Applied(ws: string, name: string, gap: string, args: CstList, close: string)
    | Group(ws: string, inner: Cst, close: string)
    | Sign(ws: string, minus: bool, operand: Cst)
    | Binary(left: Cst, ws: string, op: Operator, right: Cst)

  datatype CstList =
    | NoArguments
    | LastArgument(arg: Cst)
    | Argument(arg: Cst, comma: string, others: CstList)

  function Text(c: Cst): string {
    match c
    case Number(ws, digits) => ws + digits
    case Numeral(ws, whole, mark, fraction) => ws + NumeralText(whole, mark, fraction)
    case Name(ws, name) => ws + name
    case Applied(ws, name, gap, args, close) => ws + (name + (gap + ("(" + (ArgumentsText(args) + (close + ")")))))
    case Group(ws, inner, close) => ws + ("(" + (Text(inner) + (close + ")")))
    case Sign(ws, minus, operand) => ws + ((if minus then "-" else "+") + Text(operand))
    case Binary(left, ws, op, right) => Text(left) + (ws + ([op] + Text(right)))
  }

  function NumeralText(whole: string, mark: char, fraction: string): string { whole + ([mark] + fraction) }

  function ArgumentsText(args: CstList): string {
    match args
    case NoArguments => ""
    case LastArgument(arg) => Text(arg)
    case Argument(arg, comma, others) => Text(arg) + (comma + ("," + ArgumentsText(others)))
  }

  datatype Level = PrimaryLevel | UnaryLevel | ProductLevel | SumLevel

  predicate Additive(op: char) { op == '+' || op == '-' }
  predicate Multiplicative(op: char) { op == '*' || op == '/' || op == '%' }

  /** `c` is well-formed text of the grammar at (or below) this level. */
  predicate Fits(c: Cst, level: Level)
    decreases c
  {
    match c
    case Number(ws, _) => Spaces(ws)
    case Numeral(ws, whole, mark, _) => Spaces(ws) && NumeralMark(whole, mark)
    case Name(ws, name) => Spaces(ws) && NameText(name)
    case Applied(ws, name, gap, args, close) =>
      Spaces(ws) && NameText(name) && Spaces(gap) && Spaces(close) && (args.NoArguments? || FitsAll(args))
    case Group(ws, inner, close) => Spaces(ws) && Spaces(close) && Fits(inner, SumLevel)
    case Sign(ws, _, operand) => level != PrimaryLevel && Spaces(ws) && Fits(operand, UnaryLevel)
    case Binary(left, ws, op, right) =>
      Spaces(ws) &&
      ((level == SumLevel && Additive(op) && Fits(left, SumLevel) && Fits(right, ProductLevel))
       || ((level == SumLevel || level == ProductLevel) && Multiplicative(op) && Fits(left, ProductLevel) && Fits(right, UnaryLevel)))
  }

  /** A point may start a literal; an exponent needs a digit before it. */
  predicate NumeralMark(whole: string, mark: char) {
    (forall i | 0 <= i < |whole| :: IsDigit(whole[i])) && (mark == '.' || (whole != "" && (mark == 'e' || mark == 'E')))
  }

  /** A nonempty list of relations. */
  predicate FitsAll(args: CstList)
    decreases args
  {
    match args
    case NoArguments => false
    case LastArgument(arg) => Fits(arg, SumLevel)
    case Argument(arg, comma, others) => Fits(arg, SumLevel) && Spaces(comma) && FitsAll(others)
  }

  /** `rest` ends a token: it continues neither a number nor a name, and opens no call. */
  predicate EndsToken(rest: string) { (rest != "" ==> !IsNameChar(rest[0])) && !Starts(Skip(rest), '(') }

  predicate EndsProduct(rest: string) {
    EndsToken(rest) && (Skip(rest) != "" ==> !Multiplicative(Skip(rest)[0]))
  }

  predicate EndsSum(rest: string) {
    EndsProduct(rest) && (Skip(rest) != "" ==> !Additive(Skip(rest)[0]))
  }

  lemma OperatorIsMark(op: char)
    requires op in ['+', '-', '*', '/', '%', ')', ',']
    ensures !IsSpace(op) && !IsNameChar(op) && op != '('
  {}

  lemma OperatorEndsToken(ws: string, op: char, s: string)
    requires Spaces(ws) && (Additive(op) || Multiplicative(op) || op == ')' || op == ',')
    ensures EndsToken(ws + ([op] + s)) && Skip(ws + ([op] + s)) == [op] + s
    ensures !Multiplicative(op) ==> EndsProduct(ws + ([op] + s))
    ensures op == ')' || op == ',' ==> EndsSum(ws + ([op] + s))
  {
    var body := [op] + s;
    OperatorIsMark(op);
    assert body[0] == op && Skip(body) == body;
    SkipSpaces(ws, body);
    if ws == "" {
      assert ws + body == body;
    } else {
      assert (ws + body)[0] == ws[0] && IsSpace(ws[0]);
    }
  }
}
