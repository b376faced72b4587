/**
 The calculator as it runs: one cursor over the tokens, values computed while parsing.
 Every method is proved against the grammar and the meaning of the tree it would have built.
 */
module CalculatorEvaluator {
  import opened Prelude
  import opened Calculator

  /** The value a parse outcome stands for. */
  function Meaning(p: Parse, env: Env): Option<real> {
    if p.At? then Eval(p.e, env) else None
  }

  /** What a fused parse method returns: the value of the parse, and the cursor after it. */
  predicate Fused(v: Option<real>, pos: nat, p: Parse, env: Env) {
    v == Meaning(p, env) && (v.Some? ==> pos == p.next)
  }

  lemma FinishStrict(ts: seq<Token>, e: Expr, i: nat, env: Env)
    requires i <= |ts| && Eval(e, env).None?
    ensures Eval(Finish(ts, e, i).e, env).None?
  {
    assert Eval(Fact(e), env).None?;
    assert Eval(Pct(Fact(e)), env).None?;
    assert Eval(Pct(e), env).None?;
  }

  /** Once an operand has no value, no continuation of the product gives one. */
  lemma {:induction false} TermRestStrict(ts: seq<Token>, i: nat, left: Expr, env: Env)
    requires i <= |ts| && Eval(left, env).None?
    ensures Meaning(TermRest(ts, i, left), env).None?
    decreases |ts| - i
  {
    if IsImplicit(ts, i) {
      var r := ParseUnary(ts, i);
      if r.At? {
        TermRestStrict(ts, r.next, Bin(Mul, left, r.e), env);
      }
    } else if i < |ts| && TermOp(ts[i]).Some? {
      var r := ParseUnary(ts, i + 1);
      if r.At? {
        TermRestStrict(ts, r.next, Bin(TermOp(ts[i]).value, left, r.e), env);
      }
    }
  }

  lemma {:induction false} ExprRestStrict(ts: seq<Token>, i: nat, left: Expr, env: Env)
    requires i <= |ts| && Eval(left, env).None?
    ensures Meaning(ExprRest(ts, i, left), env).None?
    decreases |ts| - i
  {
    if i < |ts| && ExprOp(ts[i]).Some? {
      var r := ParseTerm(ts, i + 1);
      if r.At? {
        ExprRestStrict(ts, r.next, Bin(ExprOp(ts[i]).value, left, r.e), env);
      }
    }
  }

  /** The loop test of a term, and the operator its next round applies. */
  predicate TermContinues(ts: seq<Token>, i: nat) {
    IsImplicit(ts, i) || (i < |ts| && TermOp(ts[i]).Some?)
  }

  function NextTermOp(ts: seq<Token>, i: nat): BinOp
    requires TermContinues(ts, i)
  {
    if IsImplicit(ts, i) then Mul else TermOp(ts[i]).value
  }

  /** The product of 2..n, as the loop of the calculator computes it. */
  method Factorial(v: real) returns (r: Option<real>)
    ensures r == FactorialOf(v)
  {
    if v != v.Floor as real || v < 0.0 || v > 170.0 {
      return None;
    }
    var n := v.Floor;
    var value, i := 1, 2;
    assert FactorialNat(1) == FactorialNat(0) == 1;
    while i <= n
      invariant 2 <= i <= n + 2 && (n >= 1 ==> i <= n + 1)
      invariant value == FactorialNat(i - 1)
    {
      value := value * i;
      i := i + 1;
    }
    return Some(value as real);
  }

  class Evaluator {
    const tokens: seq<Token>
    const env: Env
    var pos: nat

    constructor (tokens: seq<Token>, env: Env)
      ensures this.tokens == tokens && this.env == env && pos == 0
    {
      this.tokens, this.env, this.pos := tokens, env, 0;
    }

    predicate Peek(t: Token)
      reads this
    {
      Sees(tokens, pos, t)
    }

    /** One optional `!`, then one optional percent sign, applied to a computed value. */
    method FinishValue(v: Option<real>, ghost e: Expr) returns (r: Option<real>)
      requires pos <= |tokens| && v == Eval(e, env)
      modifies this`pos
      ensures pos <= |tokens| && Fused(r, pos, Finish(tokens, e, old(pos)), env)
    {
      r := v;
      if r.None? {
        FinishStrict(tokens, e, pos, env);
        return;
      }
      ghost var tree := e;
      if Peek(Bang) {
        pos := pos + 1;
        r := Factorial(r.value);
        tree := Fact(e);
        assert r == Eval(tree, env);
      }
      assert Finish(tokens, e, old(pos)) == FinishPercent(tokens, tree, pos);
      assert r.None? ==> Eval(Pct(tree), env).None?;
      if r.Some? && Peek(Percent) && !IsModulo(tokens, pos) {
        pos := pos + 1;
        r := Some(r.value / 100.0);
      }
    }

    function ApplyFunc(f: Func, v: real): Option<real> {
      env.fn(f, v)
    }

    /** A named function applied to a parenthesised expression or to a unary operand. */
    method ParseCallValue(f: Func) returns (v: Option<real>)
      requires pos < |tokens| && tokens[pos] == Name(FuncName(f))
      modifies this`pos
      ensures pos <= |tokens| && Fused(v, pos, ParsePrimary(tokens, old(pos)), env)
      decreases |tokens| - pos, 0
    {
      ghost var start := pos;
      pos := pos + 1;
      if Peek(LParen) {
        pos := pos + 1;
        ghost var r := ParseExpr(tokens, pos);
        v := ParseExpressionValue();
        if v.None? || !Peek(RParen) {
          if r.At? && v.None? && Sees(tokens, r.next, RParen) {
            FinishStrict(tokens, Call(f, r.e), r.next + 1, env);
          }
          return None;
        }
        pos := pos + 1;
        assert ParsePrimary(tokens, start) == Finish(tokens, Call(f, r.e), pos);
        v := FinishValue(ApplyFunc(f, v.value), Call(f, r.e));
      } else {
        ghost var r := ParseUnary(tokens, pos);
        v := ParseUnaryValue();
        if v.None? {
          if r.At? {
            FinishStrict(tokens, Call(f, r.e), r.next, env);
          }
          return None;
        }
        assert ParsePrimary(tokens, start) == Finish(tokens, Call(f, r.e), pos);
        v := FinishValue(ApplyFunc(f, v.value), Call(f, r.e));
      }
    }

    method ParsePrimaryValue() returns (v: Option<real>)
      requires pos <= |tokens|
      modifies this`pos
      ensures pos <= |tokens| && Fused(v, pos, ParsePrimary(tokens, old(pos)), env)
      decreases |tokens| - pos, 1
    {
      if pos == |tokens| {
        return None;
      }
      ghost var start := pos;
      match tokens[pos]
      case LParen =>
        pos := pos + 1;
        v := ParseExpressionValue();
        ghost var r := ParseExpr(tokens, start + 1);
        if v.None? || !Peek(RParen) {
          if r.At? && v.None? && Sees(tokens, r.next, RParen) {
            FinishStrict(tokens, r.e, r.next + 1, env);
          }
          return None;
        }
        pos := pos + 1;
        assert ParsePrimary(tokens, start) == Finish(tokens, r.e, pos);
        v := FinishValue(v, r.e);
      case Name(FuncName(f)) =>
        v := ParseCallValue(f);
      case Name(PiName) =>
        pos := pos + 1;
        v := FinishValue(Some(env.pi), Pi);
      case Name(EName) =>
        pos := pos + 1;
        v := FinishValue(Some(env.e), E);
      case Num(n) =>
        pos := pos + 1;
        v := FinishValue(Some(n), Lit(n));
      case _ =>
        v := None;
    }

    method ParsePowerValue() returns (v: Option<real>)
      requires pos <= |tokens|
      modifies this`pos
      ensures pos <= |tokens| && Fused(v, pos, ParsePower(tokens, old(pos)), env)
      decreases |tokens| - pos, 2
    {
      v := ParsePrimaryValue();
      if v.None? || !Peek(Caret) {
        return;
      }
      pos := pos + 1;
      var exp := ParseUnaryValue();
      v := if exp.None? then None else env.pow(v.value, exp.value);
    }

    method ParseUnaryValue() returns (v: Option<real>)
      requires pos <= |tokens|
      modifies this`pos
      ensures pos <= |tokens| && Fused(v, pos, ParseUnary(tokens, old(pos)), env)
      decreases |tokens| - pos, 3
    {
      if Peek(Minus) {
        pos := pos + 1;
        v := ParseUnaryValue();
        v := if v.None? then None else Some(-v.value);
      } else if Peek(Plus) {
        pos := pos + 1;
        v := ParseUnaryValue();
      } else {
        v := ParsePowerValue();
      }
    }

    method ParseTermValue() returns (v: Option<real>)
      requires pos <= |tokens|
      modifies this`pos
      ensures pos <= |tokens| && Fused(v, pos, ParseTerm(tokens, old(pos)), env)
      decreases |tokens| - pos, 4
    {
      ghost var goal := ParseTerm(tokens, pos);
      ghost var first := ParseUnary(tokens, pos);
      v := ParseUnaryValue();
      if v.None? {
        if first.At? {
          TermRestStrict(tokens, first.next, first.e, env);
        }
        return;
      }
      ghost var tree := first.e;
      while TermContinues(tokens, pos)
        invariant old(pos) < pos <= |tokens| && v.Some? && v == Eval(tree, env)
        invariant goal == TermRest(tokens, pos, tree)
        decreases |tokens| - pos
      {
        var op := NextTermOp(tokens, pos);
        if !IsImplicit(tokens, pos) {
          pos := pos + 1;
        }
        ghost var r := ParseUnary(tokens, pos);
        var right := ParseUnaryValue();
        var combined := if right.None? then None else Apply(op, v.value, right.value);
        if r.At? {
          tree := Bin(op, tree, r.e);
          if combined.None? {
            TermRestStrict(tokens, r.next, tree, env);
          }
        }
        v := combined;
        if v.None? {
          return;
        }
      }
    }

    method ParseExpressionValue() returns (v: Option<real>)
      requires pos <= |tokens|
      modifies this`pos
      ensures pos <= |tokens| && Fused(v, pos, ParseExpr(tokens, old(pos)), env)
      decreases |tokens| - pos, 6
    {
      ghost var goal := ParseExpr(tokens, pos);
      ghost var first := ParseTerm(tokens, pos);
      v := ParseTermValue();
      if v.None? {
        if first.At? {
          ExprRestStrict(tokens, first.next, first.e, env);
        }
        return;
      }
      ghost var tree := first.e;
      while Peek(Plus) || Peek(Minus)
        invariant old(pos) < pos <= |tokens| && v.Some? && v == Eval(tree, env)
        invariant goal == ExprRest(tokens, pos, tree)
        decreases |tokens| - pos
      {
        var plus := Peek(Plus);
        pos := pos + 1;
        ghost var r := ParseTerm(tokens, pos);
        var right := ParseTermValue();
        if r.At? {
          tree := Bin(if plus then Add else Sub, tree, r.e);
          if right.None? {
            ExprRestStrict(tokens, r.next, tree, env);
          }
        }
        if right.None? {
          return None;
        }
        v := Some(if plus then v.value + right.value else v.value - right.value);
      }
    }
  }

  /** The whole calculator on a token list: the value of its tree, or nothing. */
  method EvaluateArithmetic(tokens: seq<Token>, env: Env) returns (r: Option<real>)
    ensures r == Evaluate(tokens, env)
  {
    var ev := new Evaluator(tokens, env);
    r := ev.ParseExpressionValue();
    if ev.pos != |tokens| {
      r := None;
    }
  }
}
