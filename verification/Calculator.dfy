/** The recursive-descent calculator: grammar, meaning, printer, and the fused evaluator. */
module Calculator {
  import opened Prelude

  datatype Func =
    | Sqrt | Cbrt | Abs | Log | Log2 | Ln | Sin | Cos | Tan
    | Asin | Acos | Atan | Round | Floor | Ceil

  /** An identifier token after lower-casing: a function, one of the two constants, or unknown. */
  datatype Ident = FuncName(f: Func) | PiName | EName | OtherName(name: string)

  /** A lexed token. Decimal, `0x` and `0b` literals are all `Num`. */
  datatype Token =
    | Num(value: real) | Name(id: Ident)
    | Plus | Minus | Star | Slash | Percent | LParen | RParen | Caret | Bang

  datatype BinOp = Add | Sub | Mul | Div | Mod

  datatype Expr =
    | Lit(value: real) | Pi | E
    | Call(f: Func, arg: Expr)
    | Neg(arg: Expr)
    | Bin(op: BinOp, left: Expr, right: Expr)
    | Pow(base: Expr, exp: Expr)
    | Fact(arg: Expr)
    | Pct(arg: Expr)

  // ---------------------------------------------------------------- Meaning

  /** The foreign parts of the arithmetic: `math.pow` and the named functions may fail. */
  datatype Env = Env(pi: real, e: real, pow: (real, real) -> Option<real>, fn: (Func, real) -> Option<real>)

  function FactorialNat(n: nat): nat {
    if n == 0 then 1 else n * FactorialNat(n - 1)
  }

  function FactorialOf(v: real): Option<real> {
    if v == v.Floor as real && 0.0 <= v <= 170.0 then Some(FactorialNat(v.Floor) as real) else None
  }

  function Apply(op: BinOp, l: real, r: real): Option<real> {
    match op
    case Add => Some(l + r)
    case Sub => Some(l - r)
    case Mul => Some(l * r)
    case Div => if r == 0.0 then None else Some(l / r)
    case Mod => if r == 0.0 then None else Some(l - r * ((l / r).Floor as real))
  }

  function Eval(e: Expr, env: Env): Option<real> {
    match e
    case Lit(v) => Some(v)
    case Pi => Some(env.pi)
    case E => Some(env.e)
    case Call(f, a) =>
      var v := Eval(a, env);
      if v.None? then None else env.fn(f, v.value)
    case Neg(a) =>
      var v := Eval(a, env);
      if v.None? then None else Some(-v.value)
    case Bin(op, l, r) =>
      var v, w := Eval(l, env), Eval(r, env);
      if v.None? || w.None? then None else Apply(op, v.value, w.value)
    case Pow(b, x) =>
      var v, w := Eval(b, env), Eval(x, env);
      if v.None? || w.None? then None else env.pow(v.value, w.value)
    case Fact(a) =>
      var v := Eval(a, env);
      if v.None? then None else FactorialOf(v.value)
    case Pct(a) =>
      var v := Eval(a, env);
      if v.None? then None else Some(v.value / 100.0)
  }

  // ---------------------------------------------------------------- Laws of arithmetic

  lemma Scaled(a: real, b: real, r: real)
    ensures a <= b && r > 0.0 ==> a * r <= b * r
    ensures a < b && r > 0.0 ==> a * r < b * r
    ensures a <= b && r < 0.0 ==> a * r >= b * r
    ensures a < b && r < 0.0 ==> a * r > b * r
  {
  }

  lemma Quotient(l: real, r: real)
    requires r != 0.0
    ensures (l / r) * r == l && (l * r) / r == l
  {
    var q := (l * r) / r;
    assert q * r == l * r;
    if q < l {
      Scaled(q, l, r);
    } else if q > l {
      Scaled(l, q, r);
    }
  }

  /** Subtraction undoes addition. */
  lemma SumLaws(l: real, r: real)
    ensures Apply(Add, l, r) == Apply(Add, r, l)
    ensures Apply(Sub, Apply(Add, l, r).value, r) == Some(l)
  {
  }

  lemma SameTimes(a: real, b: real, r: real)
    requires a == b
    ensures r * a == r * b && a * r == r * b
  {
  }

  /** Multiplication repeats addition. */
  lemma ProductLaws(l: real, r: real)
    ensures Apply(Mul, l, r).value == Apply(Mul, r, l).value && Apply(Mul, l, 1.0).value == l
    ensures Apply(Mul, l, r + 1.0).value == Apply(Add, Apply(Mul, l, r).value, l).value
  {
    SameTimes(l, l, r);
  }

  /** Division undoes multiplication, except by zero. */
  lemma QuotientLaws(l: real, r: real)
    ensures r == 0.0 <==> Apply(Div, l, r).None?
    ensures r != 0.0 ==> Apply(Div, Apply(Mul, l, r).value, r).value == l
    ensures r != 0.0 ==> Apply(Mul, Apply(Div, l, r).value, r).value == l
  {
    if r != 0.0 {
      Quotient(l, r);
    }
  }

  lemma PartOf(d: real, r: real)
    requires 0.0 <= d < 1.0
    ensures r > 0.0 ==> 0.0 <= d * r < r
    ensures r < 0.0 ==> r < d * r <= 0.0
  {
    Scaled(d, 1.0, r);
    Scaled(0.0, d, r);
  }

  lemma Distributes(x: real, k: real, r: real)
    ensures (x - k) * r == x * r - r * k
  {
  }

  lemma LeftOver(l: real, r: real, x: real, k: real)
    requires x * r == l && k <= x < k + 1.0
    ensures r > 0.0 ==> 0.0 <= l - r * k < r
    ensures r < 0.0 ==> r < l - r * k <= 0.0
  {
    var d, left := x - k, l - r * k;
    Distributes(x, k, r);
    assert left == d * r;
    PartOf(d, r);
    assert r > 0.0 ==> left < r;
  }

  /** The modulo is what is left of whole multiples, and has the sign of the divisor. */
  lemma Remainder(l: real, r: real) returns (q: int)
    ensures r == 0.0 <==> Apply(Mod, l, r).None?
    ensures r != 0.0 ==> Apply(Mod, l, r).value == l - r * (q as real)
    ensures r > 0.0 ==> 0.0 <= Apply(Mod, l, r).value < r
    ensures r < 0.0 ==> r < Apply(Mod, l, r).value <= 0.0
  {
    q := 0;
    if r != 0.0 {
      q := (l / r).Floor;
      Quotient(l, r);
      SameTimes((l / r).Floor as real, q as real, r);
      LeftOver(l, r, l / r, q as real);
    }
  }

  // ---------------------------------------------------------------- Grammar

  /** The outcome of one parse function: the tree and the position after it. */
  datatype Parse = Fail | At(e: Expr, next: nat)

  predicate Sees(ts: seq<Token>, i: nat, t: Token) {
    i < |ts| && ts[i] == t
  }

  predicate SeesNum(ts: seq<Token>, i: nat) {
    i < |ts| && ts[i].Num?
  }

  /** A `%` is a modulo exactly when a numeric literal follows it. */
  predicate IsModulo(ts: seq<Token>, i: nat) {
    Sees(ts, i, Percent) && SeesNum(ts, i + 1)
  }

  /** A `(` or any identifier but `e` continues a term without an operator. */
  predicate IsImplicit(ts: seq<Token>, i: nat) {
    i < |ts| && (ts[i] == LParen || (ts[i].Name? && ts[i].id != EName))
  }

  /** At most one percent sign. */
  function FinishPercent(ts: seq<Token>, e: Expr, i: nat): (p: Parse)
    requires i <= |ts|
    ensures p.At? && i <= p.next <= |ts|
  {
    if Sees(ts, i, Percent) && !IsModulo(ts, i) then At(Pct(e), i + 1) else At(e, i)
  }

  /** At most one `!`, then at most one percent sign. */
  function Finish(ts: seq<Token>, e: Expr, i: nat): (p: Parse)
    requires i <= |ts|
    ensures p.At? && i <= p.next <= |ts|
  {
    if Sees(ts, i, Bang) then FinishPercent(ts, Fact(e), i + 1) else FinishPercent(ts, e, i)
  }

  function ParsePrimary(ts: seq<Token>, i: nat): (p: Parse)
    ensures p.At? ==> i < p.next <= |ts|
    decreases |ts| - i, 0
  {
    if i >= |ts| then Fail else
    match ts[i]
    case LParen =>
      var r := ParseExpr(ts, i + 1);
      if r.At? && Sees(ts, r.next, RParen) then Finish(ts, r.e, r.next + 1) else Fail
    case Name(FuncName(f)) =>
      if Sees(ts, i + 1, LParen) then
        var r := ParseExpr(ts, i + 2);
        if r.At? && Sees(ts, r.next, RParen) then Finish(ts, Call(f, r.e), r.next + 1) else Fail
      else
        var r := ParseUnary(ts, i + 1);
        if r.At? then Finish(ts, Call(f, r.e), r.next) else Fail
    case Name(PiName) => Finish(ts, Pi, i + 1)
    case Name(EName) => Finish(ts, E, i + 1)
    case Num(v) => Finish(ts, Lit(v), i + 1)
    case _ => Fail
  }

  function ParsePower(ts: seq<Token>, i: nat): (p: Parse)
    ensures p.At? ==> i < p.next <= |ts|
    decreases |ts| - i, 1
  {
    var b := ParsePrimary(ts, i);
    if b.At? && Sees(ts, b.next, Caret) then
      var x := ParseUnary(ts, b.next + 1);
      if x.At? then At(Pow(b.e, x.e), x.next) else Fail
    else b
  }

  function ParseUnary(ts: seq<Token>, i: nat): (p: Parse)
    ensures p.At? ==> i < p.next <= |ts|
    decreases |ts| - i, 2
  {
    if Sees(ts, i, Minus) then
      var r := ParseUnary(ts, i + 1);
      if r.At? then At(Neg(r.e), r.next) else Fail
    else if Sees(ts, i, Plus) then ParseUnary(ts, i + 1)
    else ParsePower(ts, i)
  }

  function TermOp(t: Token): Option<BinOp> {
    match t
    case Star => Some(Mul)
    case Slash => Some(Div)
    case Percent => Some(Mod)
    case _ => None
  }

  function ExprOp(t: Token): Option<BinOp> {
    match t
    case Plus => Some(Add)
    case Minus => Some(Sub)
    case _ => None
  }

  function ParseTerm(ts: seq<Token>, i: nat): (p: Parse)
    ensures p.At? ==> i < p.next <= |ts|
    decreases |ts| - i, 4
  {
    var r := ParseUnary(ts, i);
    if r.At? then TermRest(ts, r.next, r.e) else Fail
  }

  /** The loop of a term, entered with the operand read so far. */
  function TermRest(ts: seq<Token>, i: nat, left: Expr): (p: Parse)
    requires i <= |ts|
    ensures p.At? ==> i <= p.next <= |ts|
    decreases |ts| - i, 3
  {
    if IsImplicit(ts, i) then
      var r := ParseUnary(ts, i);
      if r.At? then TermRest(ts, r.next, Bin(Mul, left, r.e)) else Fail
    else if i < |ts| && TermOp(ts[i]).Some? then
      var r := ParseUnary(ts, i + 1);
      if r.At? then TermRest(ts, r.next, Bin(TermOp(ts[i]).value, left, r.e)) else Fail
    else At(left, i)
  }

  function ParseExpr(ts: seq<Token>, i: nat): (p: Parse)
    ensures p.At? ==> i < p.next <= |ts|
    decreases |ts| - i, 6
  {
    var r := ParseTerm(ts, i);
    if r.At? then ExprRest(ts, r.next, r.e) else Fail
  }

  /** The loop of an expression, entered with the term read so far. */
  function ExprRest(ts: seq<Token>, i: nat, left: Expr): (p: Parse)
    requires i <= |ts|
    ensures p.At? ==> i <= p.next <= |ts|
    decreases |ts| - i, 5
  {
    if i < |ts| && ExprOp(ts[i]).Some? then
      var r := ParseTerm(ts, i + 1);
      if r.At? then ExprRest(ts, r.next, Bin(ExprOp(ts[i]).value, left, r.e)) else Fail
    else At(left, i)
  }

  /** The tree of a complete token list. */
  function ParseAll(ts: seq<Token>): Option<Expr> {
    var p := ParseExpr(ts, 0);
    if p.At? && p.next == |ts| then Some(p.e) else None
  }

  /** Reference meaning of a token list: parse everything, then evaluate the tree. */
  function Evaluate(ts: seq<Token>, env: Env): Option<real> {
    var p := ParseAll(ts);
    if p.None? then None else Eval(p.value, env)
  }

  // ---------------------------------------------------------------- Printer

  /** Binding strength: 0 sum, 1 product, 2 sign, 3 power, 4 percent, 5 factorial, 6 atom. */
  function Level(e: Expr): (k: nat)
    ensures k <= 6
  {
    match e
    case Bin(Add, _, _) => 0
    case Bin(Sub, _, _) => 0
    case Bin(_, _, _) => 1
    case Neg(_) => 2
    case Pow(_, _) => 3
    case Pct(_) => 4
    case Fact(_) => 5
    case _ => 6
  }

  function OpToken(op: BinOp): Token {
    match op
    case Add => Plus
    case Sub => Minus
    case Mul => Star
    case Div => Slash
    case Mod => Percent
  }

  function Body(e: Expr): (s: seq<Token>)
    ensures |s| > 0
    decreases e, 0
  {
    match e
    case Lit(v) => [Num(v)]
    case Pi => [Name(PiName)]
    case E => [Name(EName)]
    case Call(f, a) => [Name(FuncName(f)), LParen] + Print(a, 0) + [RParen]
    case Neg(a) => [Minus] + Print(a, 2)
    case Bin(op, l, r) =>
      var k := if op == Add || op == Sub then 0 else 1;
      Print(l, k) + [OpToken(op)] + Print(r, k + 1)
    case Pow(b, x) => Print(b, 4) + [Caret] + Print(x, 2)
    case Fact(a) => Print(a, 6) + [Bang]
    case Pct(a) => Print(a, 5) + [Percent]
  }

  /** Prints `e` where strength `k` is wanted, with parentheses only when `e` is weaker. */
  function Print(e: Expr, k: nat): (s: seq<Token>)
    ensures |s| > 0
    decreases e, 1
  {
    if Level(e) < k then [LParen] + Body(e) + [RParen] else Body(e)
  }

  predicate EndsPct(e: Expr, k: nat) {
    var s := Print(e, k);
    s[|s| - 1] == Percent
  }

  predicate StartsNum(e: Expr, k: nat) {
    Print(e, k)[0].Num?
  }

  /** The trees the grammar can express: before a modulo comes a percent, or after it a number. */
  predicate Representable(e: Expr) {
    match e
    case Call(_, a) => Representable(a)
    case Neg(a) => Representable(a)
    case Fact(a) => Representable(a)
    case Pct(a) => Representable(a)
    case Pow(b, x) => Representable(b) && Representable(x)
    case Bin(op, l, r) =>
      Representable(l) && Representable(r) && (op == Mod ==> EndsPct(l, 1) || StartsNum(r, 2))
    case _ => true
  }
}
