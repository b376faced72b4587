/** Parser and printer undo each other, and the printable trees are exactly the parseable ones. */
module CalculatorRoundTrip {
  import opened Prelude
  import opened Calculator

  /** The tokens `s` stand at position `i`. */
  ghost predicate Occurs(ts: seq<Token>, i: nat, s: seq<Token>) {
    i + |s| <= |ts| && forall k :: 0 <= k < |s| ==> s[k] == ts[i + k]
  }

  /** Nothing at `j` would be taken as a postfix of what ends there. */
  predicate Clean(ts: seq<Token>, j: nat, endsPct: bool) {
    && !Sees(ts, j, Bang) && !SeesNum(ts, j)
    && (Sees(ts, j, Percent) && !IsModulo(ts, j) ==> endsPct)
  }

  /** Nothing at `j` would continue a product. */
  predicate TermStops(ts: seq<Token>, j: nat) {
    !IsImplicit(ts, j) && (j < |ts| ==> TermOp(ts[j]).None? && ts[j] != Caret)
  }

  lemma OccursSplit(ts: seq<Token>, i: nat, a: seq<Token>, b: seq<Token>)
    requires Occurs(ts, i, a + b)
    ensures Occurs(ts, i, a) && Occurs(ts, i + |a|, b)
  {
    assert forall k :: 0 <= k < |a| ==> a[k] == (a + b)[k];
    assert forall k :: 0 <= k < |b| ==> b[k] == (a + b)[|a| + k];
  }

  lemma OccursHead(ts: seq<Token>, i: nat, s: seq<Token>)
    requires Occurs(ts, i, s) && |s| > 0
    ensures ts[i] == s[0] && ts[i + |s| - 1] == s[|s| - 1]
  {
  }

  /** A tree stronger than a sign never prints a sign first. */
  lemma {:induction false} NoLeadingSign(e: Expr, k: nat)
    requires k >= 3
    ensures Print(e, k)[0] != Minus && Print(e, k)[0] != Plus
    decreases e
  {
    if Level(e) >= k {
      match e
      case Pow(b, _) => NoLeadingSign(b, 4);
      case Fact(a) => NoLeadingSign(a, 6);
      case Pct(a) => NoLeadingSign(a, 5);
      case _ =>
    }
  }

  /** The printing of `e` at strength `k` stands exactly on positions `i` to `j`. */
  ghost predicate Spans(e: Expr, k: nat, ts: seq<Token>, i: nat, j: nat) {
    Occurs(ts, i, Print(e, k)) && j == i + |Print(e, k)|
  }

  lemma PrintSame(e: Expr, k: nat, k': nat)
    requires k <= Level(e) && k' <= Level(e)
    ensures Print(e, k) == Print(e, k') && EndsPct(e, k) == EndsPct(e, k')
  {
  }

  lemma EndsPctBin(e: Expr)
    requires e.Bin?
    ensures EndsPct(e, Level(e)) == EndsPct(e.right, Level(e) + 1)
  {
    var l, r := Print(e.left, Level(e)), Print(e.right, Level(e) + 1);
    assert Body(e) == l + [OpToken(e.op)] + r;
  }

  lemma EndsPctPow(e: Expr, k: nat)
    requires e.Pow? && k <= 3
    ensures EndsPct(e, k) == EndsPct(e.exp, 2)
  {
    assert Body(e) == Print(e.base, 4) + [Caret] + Print(e.exp, 2);
  }

  lemma EndsPctNeg(e: Expr, k: nat)
    requires e.Neg? && k <= 2
    ensures EndsPct(e, k) == EndsPct(e.arg, 2)
  {
    assert Body(e) == [Minus] + Print(e.arg, 2);
  }

  /** Only a percentage, or what ends in one, prints a percent sign last. */
  lemma EndsPctOther(e: Expr, k: nat)
    requires k >= 4 && !e.Pct?
    ensures !EndsPct(e, k)
  {
    var s, b := Print(e, k), Body(e);
    if Level(e) < k {
      assert s == [LParen] + b + [RParen];
    } else if e.Fact? {
      assert b == Print(e.arg, 6) + [Bang];
    } else if e.Call? {
      assert b == [Name(FuncName(e.f)), LParen] + Print(e.arg, 0) + [RParen];
    } else {
      assert b == (match e case Lit(v) => [Num(v)] case Pi => [Name(PiName)] case _ => [Name(EName)]);
    }
  }

  lemma PrintOther(e: Expr, k: nat)
    requires Level(e) != k
    ensures Print(e, k) == Print(e, k + 1) && EndsPct(e, k) == EndsPct(e, k + 1)
  {
  }

  lemma ExprEnds(ts: seq<Token>, i: nat, e: Expr)
    requires Sees(ts, i, RParen)
    ensures ExprRest(ts, i, e) == At(e, i)
  {
  }

  lemma PrimaryOfParens(ts: seq<Token>, i: nat, e: Expr, j: nat)
    requires Sees(ts, i, LParen) && ParseExpr(ts, i + 1) == At(e, j) && Sees(ts, j, RParen)
    ensures ParsePrimary(ts, i) == Finish(ts, e, j + 1)
  {
  }

  lemma PrimaryOfCall(ts: seq<Token>, i: nat, f: Func, a: Expr, j: nat)
    requires Sees(ts, i, Name(FuncName(f))) && Sees(ts, i + 1, LParen)
    requires ParseExpr(ts, i + 2) == At(a, j) && Sees(ts, j, RParen)
    ensures ParsePrimary(ts, i) == Finish(ts, Call(f, a), j + 1)
  {
  }

  lemma TermEnds(ts: seq<Token>, i: nat, e: Expr)
    requires i <= |ts| && TermStops(ts, i)
    ensures TermRest(ts, i, e) == At(e, i)
  {
  }

  lemma TermStep(ts: seq<Token>, i: nat, op: BinOp, l: Expr, r: Expr, j: nat)
    requires !op.Add? && !op.Sub? && Sees(ts, i, OpToken(op)) && ParseUnary(ts, i + 1) == At(r, j)
    ensures TermRest(ts, i, l) == TermRest(ts, j, Bin(op, l, r))
  {
  }

  lemma ExprOf(ts: seq<Token>, i: nat, e: Expr, j: nat)
    requires ParseTerm(ts, i) == At(e, j)
    ensures ParseExpr(ts, i) == ExprRest(ts, j, e)
  {
  }

  lemma ExprStep(ts: seq<Token>, i: nat, op: BinOp, l: Expr, r: Expr, j: nat)
    requires (op.Add? || op.Sub?) && Sees(ts, i, OpToken(op)) && ParseTerm(ts, i + 1) == At(r, j)
    ensures ExprRest(ts, i, l) == ExprRest(ts, j, Bin(op, l, r))
  {
  }

  lemma PowerIsUnary(ts: seq<Token>, i: nat)
    requires !Sees(ts, i, Minus) && !Sees(ts, i, Plus)
    ensures ParseUnary(ts, i) == ParsePower(ts, i)
  {
  }

  lemma PowerOf(ts: seq<Token>, i: nat, b: Expr, m: nat, x: Expr, j: nat)
    requires ParsePrimary(ts, i) == At(b, m) && Sees(ts, m, Caret) && ParseUnary(ts, m + 1) == At(x, j)
    ensures ParsePower(ts, i) == At(Pow(b, x), j)
  {
  }

  lemma OccursParens(s: seq<Token>, ts: seq<Token>, i: nat)
    requires Occurs(ts, i, [LParen] + s + [RParen])
    ensures Sees(ts, i, LParen) && Occurs(ts, i + 1, s) && Sees(ts, i + 1 + |s|, RParen)
  {
    assert [LParen] + s + [RParen] == [LParen] + (s + [RParen]);
    OccursSplit(ts, i, [LParen], s + [RParen]);
    OccursHead(ts, i, [LParen]);
    OccursSplit(ts, i + 1, s, [RParen]);
    OccursHead(ts, i + 1 + |s|, [RParen]);
  }

  lemma SpansParen(e: Expr, k: nat, ts: seq<Token>, i: nat, j: nat) returns (m: nat)
    requires Level(e) < k && Spans(e, k, ts, i, j)
    ensures i < m && j == m + 1 && Sees(ts, i, LParen) && Spans(e, 0, ts, i + 1, m) && Sees(ts, m, RParen)
  {
    m := j - 1;
    PrintSame(e, 0, Level(e));
    OccursParens(Body(e), ts, i);
  }

  lemma SpansCall(e: Expr, k: nat, ts: seq<Token>, i: nat, j: nat) returns (m: nat)
    requires e.Call? && k <= 6 && Spans(e, k, ts, i, j)
    ensures Sees(ts, i, Name(FuncName(e.f))) && Sees(ts, i + 1, LParen)
    ensures i + 1 < m && j == m + 1 && Spans(e.arg, 0, ts, i + 2, m) && Sees(ts, m, RParen)
  {
    m := j - 1;
    var h, a := [Name(FuncName(e.f)), LParen], Print(e.arg, 0);
    assert Body(e) == h + (a + [RParen]);
    OccursSplit(ts, i, h, a + [RParen]);
    OccursHead(ts, i, h);
    OccursSplit(ts, i + 2, a, [RParen]);
    OccursHead(ts, j - 1, [RParen]);
  }

  lemma SpansPostfix(e: Expr, k: nat, ts: seq<Token>, i: nat, j: nat) returns (m: nat)
    requires (e.Fact? && k <= 5) || (e.Pct? && k <= 4)
    requires Spans(e, k, ts, i, j)
    ensures i < m && j == m + 1 && Spans(e.arg, if e.Fact? then 6 else 5, ts, i, m)
    ensures Sees(ts, m, if e.Fact? then Bang else Percent)
  {
    m := j - 1;
    var a, t := Print(e.arg, if e.Fact? then 6 else 5), if e.Fact? then Bang else Percent;
    assert Body(e) == a + [t];
    OccursSplit(ts, i, a, [t]);
    OccursHead(ts, j - 1, [t]);
  }

  lemma SpansNeg(e: Expr, k: nat, ts: seq<Token>, i: nat, j: nat)
    requires e.Neg? && k <= 2 && Spans(e, k, ts, i, j)
    ensures Sees(ts, i, Minus) && Spans(e.arg, 2, ts, i + 1, j)
  {
    assert Body(e) == [Minus] + Print(e.arg, 2);
    OccursSplit(ts, i, [Minus], Print(e.arg, 2));
    OccursHead(ts, i, [Minus]);
  }

  lemma SpansInfix(a: seq<Token>, t: Token, b: seq<Token>, ts: seq<Token>, i: nat)
    requires Occurs(ts, i, a + [t] + b)
    ensures Occurs(ts, i, a) && Sees(ts, i + |a|, t) && Occurs(ts, i + |a| + 1, b)
  {
    assert a + [t] + b == a + ([t] + b);
    OccursSplit(ts, i, a, [t] + b);
    OccursSplit(ts, i + |a|, [t], b);
    OccursHead(ts, i + |a|, [t]);
  }

  lemma SpansPow(e: Expr, k: nat, ts: seq<Token>, i: nat, j: nat) returns (m: nat)
    requires e.Pow? && k <= 3 && Spans(e, k, ts, i, j)
    ensures m < j && Spans(e.base, 4, ts, i, m) && Sees(ts, m, Caret) && Spans(e.exp, 2, ts, m + 1, j)
  {
    assert Body(e) == Print(e.base, 4) + [Caret] + Print(e.exp, 2);
    SpansInfix(Print(e.base, 4), Caret, Print(e.exp, 2), ts, i);
    m := i + |Print(e.base, 4)|;
  }

  lemma SpansBin(e: Expr, ts: seq<Token>, i: nat, j: nat) returns (m: nat)
    requires e.Bin? && Spans(e, Level(e), ts, i, j)
    ensures m < j && Spans(e.left, Level(e), ts, i, m) && Sees(ts, m, OpToken(e.op))
    ensures Spans(e.right, Level(e) + 1, ts, m + 1, j)
    ensures ts[m + 1] == Print(e.right, Level(e) + 1)[0]
  {
    var l, r := Print(e.left, Level(e)), Print(e.right, Level(e) + 1);
    assert Body(e) == l + [OpToken(e.op)] + r;
    SpansInfix(l, OpToken(e.op), r, ts, i);
    m := i + |l|;
    OccursHead(ts, m + 1, r);
  }

  // ------------------------------------------------- print, then parse

  lemma ParenStops(ts: seq<Token>, m: nat, endsPct: bool)
    requires Sees(ts, m, RParen)
    ensures Clean(ts, m, endsPct) && TermStops(ts, m)
  {
  }

  /** A whole expression before a closing parenthesis reads back. */
  lemma {:induction false} ReadInner(e: Expr, ts: seq<Token>, i: nat, m: nat)
    requires Representable(e) && Spans(e, 0, ts, i, m) && Sees(ts, m, RParen)
    ensures ParseExpr(ts, i) == At(e, m)
    decreases e, 8
  {
    ParenStops(ts, m, EndsPct(e, 0));
    ReadSum(e, ts, i, m);
    ExprEnds(ts, m, e);
  }

  /** A tree in parentheses reads back, and then whatever postfix follows is taken. */
  lemma {:induction false} ReadParens(e: Expr, ts: seq<Token>, i: nat, m: nat)
    requires Representable(e) && Sees(ts, i, LParen) && Spans(e, 0, ts, i + 1, m) && Sees(ts, m, RParen)
    ensures ParsePrimary(ts, i) == Finish(ts, e, m + 1)
    decreases e, 19, 0
  {
    ReadInner(e, ts, i + 1, m);
    PrimaryOfParens(ts, i, e, m);
  }

  lemma {:induction false} ReadWrapped(e: Expr, ts: seq<Token>, i: nat, j: nat)
    requires Representable(e) && Level(e) < 6 && Spans(e, 6, ts, i, j)
    ensures ParsePrimary(ts, i) == Finish(ts, e, j)
    decreases e, 19, 1
  {
    var m := SpansParen(e, 6, ts, i, j);
    ReadParens(e, ts, i, m);
  }

  lemma {:induction false} ReadCall(e: Expr, ts: seq<Token>, i: nat, j: nat)
    requires Representable(e) && e.Call? && Spans(e, 6, ts, i, j)
    ensures ParsePrimary(ts, i) == Finish(ts, e, j)
    decreases e, 0
  {
    var m := SpansCall(e, 6, ts, i, j);
    ReadInner(e.arg, ts, i + 2, m);
    PrimaryOfCall(ts, i, e.f, e.arg, m);
  }

  lemma ReadLeaf(e: Expr, ts: seq<Token>, i: nat, j: nat)
    requires Level(e) == 6 && !e.Call? && Spans(e, 6, ts, i, j)
    ensures ParsePrimary(ts, i) == Finish(ts, e, j)
  {
    assert Print(e, 6) == Body(e) && |Body(e)| == 1;
    OccursHead(ts, i, Body(e));
  }

  /** An atom reads back. */
  lemma {:induction false} ReadAtom(e: Expr, ts: seq<Token>, i: nat, j: nat)
    requires Representable(e) && Spans(e, 6, ts, i, j)
    ensures ParsePrimary(ts, i) == Finish(ts, e, j)
    decreases e, if Level(e) < 6 then 20 else 1
  {
    if Level(e) < 6 {
      ReadWrapped(e, ts, i, j);
    } else if e.Call? {
      ReadCall(e, ts, i, j);
    } else {
      ReadLeaf(e, ts, i, j);
    }
  }

  lemma {:induction false} ReadFactorial(e: Expr, ts: seq<Token>, i: nat, j: nat)
    requires Representable(e) && Spans(e, 5, ts, i, j) && !Sees(ts, j, Bang)
    ensures ParsePrimary(ts, i) == FinishPercent(ts, e, j)
    decreases e, if Level(e) < 5 then 21 else 2
  {
    if e.Fact? {
      var m := SpansPostfix(e, 5, ts, i, j);
      ReadAtom(e.arg, ts, i, m);
    } else {
      PrintOther(e, 5);
      ReadAtom(e, ts, i, j);
      assert Finish(ts, e, j) == FinishPercent(ts, e, j);
    }
  }

  lemma {:induction false} ReadPct(e: Expr, ts: seq<Token>, i: nat, j: nat)
    requires Representable(e) && e.Pct? && Spans(e, 4, ts, i, j) && !SeesNum(ts, j)
    ensures ParsePrimary(ts, i) == At(e, j)
    decreases e, 0
  {
    var m := SpansPostfix(e, 4, ts, i, j);
    ReadFactorial(e.arg, ts, i, m);
    PercentTaken(ts, e.arg, m);
  }

  lemma PercentTaken(ts: seq<Token>, a: Expr, m: nat)
    requires Sees(ts, m, Percent) && !SeesNum(ts, m + 1)
    ensures FinishPercent(ts, a, m) == At(Pct(a), m + 1)
  {
  }

  lemma NoPercent(ts: seq<Token>, e: Expr, j: nat)
    requires j <= |ts| && Clean(ts, j, false)
    ensures FinishPercent(ts, e, j) == At(e, j)
  {
  }

  lemma {:induction false} ReadPercent(e: Expr, ts: seq<Token>, i: nat, j: nat)
    requires Representable(e) && Spans(e, 4, ts, i, j) && Clean(ts, j, EndsPct(e, 4))
    ensures ParsePrimary(ts, i) == At(e, j)
    decreases e, if Level(e) < 4 then 22 else 3
  {
    if e.Pct? {
      ReadPct(e, ts, i, j);
    } else {
      EndsPctOther(e, 4);
      PrintOther(e, 4);
      ReadFactorial(e, ts, i, j);
      NoPercent(ts, e, j);
    }
  }

  lemma {:induction false} ReadPow(e: Expr, ts: seq<Token>, i: nat, j: nat)
    requires Representable(e) && e.Pow? && Spans(e, 3, ts, i, j) && Clean(ts, j, EndsPct(e, 3)) && !Sees(ts, j, Caret)
    ensures ParsePower(ts, i) == At(e, j)
    decreases e, 0
  {
    var m := SpansPow(e, 3, ts, i, j);
    EndsPctPow(e, 3);
    ReadPercent(e.base, ts, i, m);
    ReadSign(e.exp, ts, m + 1, j);
    PowerOf(ts, i, e.base, m, e.exp, j);
  }

  lemma {:induction false} ReadPower(e: Expr, ts: seq<Token>, i: nat, j: nat)
    requires Representable(e) && Spans(e, 3, ts, i, j) && Clean(ts, j, EndsPct(e, 3)) && !Sees(ts, j, Caret)
    ensures ParseUnary(ts, i) == At(e, j)
    decreases e, if Level(e) < 3 then 23 else 4
  {
    NoLeadingSign(e, 3);
    OccursHead(ts, i, Print(e, 3));
    PowerIsUnary(ts, i);
    if e.Pow? {
      ReadPow(e, ts, i, j);
    } else {
      PrintOther(e, 3);
      ReadPercent(e, ts, i, j);
      PowerIsPrimary(ts, i, e, j);
    }
  }

  lemma PowerIsPrimary(ts: seq<Token>, i: nat, e: Expr, j: nat)
    requires ParsePrimary(ts, i) == At(e, j) && !Sees(ts, j, Caret)
    ensures ParsePower(ts, i) == At(e, j)
  {
  }

  lemma {:induction false} ReadSign(e: Expr, ts: seq<Token>, i: nat, j: nat)
    requires Representable(e) && Spans(e, 2, ts, i, j) && Clean(ts, j, EndsPct(e, 2)) && !Sees(ts, j, Caret)
    ensures ParseUnary(ts, i) == At(e, j)
    decreases e, if Level(e) < 2 then 24 else 5
  {
    if e.Neg? {
      SpansNeg(e, 2, ts, i, j);
      EndsPctNeg(e, 2);
      ReadSign(e.arg, ts, i + 1, j);
    } else {
      PrintOther(e, 2);
      ReadPower(e, ts, i, j);
    }
  }

  /** What stands between the factors of a representable product is no postfix of the left one. */
  lemma FactorIsClean(e: Expr, ts: seq<Token>, m: nat)
    requires Representable(e) && e.Bin? && Level(e) == 1
    requires Sees(ts, m, OpToken(e.op)) && m + 1 < |ts| && ts[m + 1] == Print(e.right, 2)[0]
    ensures Clean(ts, m, EndsPct(e.left, 1)) && !Sees(ts, m, Caret)
  {
  }

  lemma {:induction false} ReadProduct(e: Expr, ts: seq<Token>, i: nat, j: nat)
    requires Representable(e) && Spans(e, 1, ts, i, j) && Clean(ts, j, EndsPct(e, 1)) && !Sees(ts, j, Caret)
    ensures ParseTerm(ts, i) == TermRest(ts, j, e)
    decreases e, if Level(e) < 1 then 25 else 6
  {
    if Level(e) == 1 {
      var m := SpansBin(e, ts, i, j);
      EndsPctBin(e);
      FactorIsClean(e, ts, m);
      ReadProduct(e.left, ts, i, m);
      ReadSign(e.right, ts, m + 1, j);
      TermStep(ts, m, e.op, e.left, e.right, j);
    } else {
      PrintOther(e, 1);
      ReadSign(e, ts, i, j);
    }
  }

  lemma {:induction false} ReadSum(e: Expr, ts: seq<Token>, i: nat, j: nat)
    requires Representable(e) && Spans(e, 0, ts, i, j) && Clean(ts, j, EndsPct(e, 0)) && TermStops(ts, j)
    ensures ParseExpr(ts, i) == ExprRest(ts, j, e)
    decreases e, 7
  {
    if Level(e) == 0 {
      var m := SpansBin(e, ts, i, j);
      EndsPctBin(e);
      ReadSum(e.left, ts, i, m);
      ReadProduct(e.right, ts, m + 1, j);
      TermEnds(ts, j, e.right);
      ExprStep(ts, m, e.op, e.left, e.right, j);
    } else {
      PrintOther(e, 0);
      ReadProduct(e, ts, i, j);
      TermEnds(ts, j, e);
      ExprOf(ts, i, e, j);
    }
  }

  /** Printing a representable tree and parsing the tokens gives the tree back. */
  lemma ParsePrint(e: Expr)
    requires Representable(e)
    ensures ParseAll(Print(e, 0)) == Some(e)
  {
    var ts := Print(e, 0);
    ReadSum(e, ts, 0, |ts|);
  }

  // ------------------------------------------------- parse, then print

  /** A percent sign left over after `e` can only be a second one. */
  ghost predicate LeftoverPercent(ts: seq<Token>, p: nat, e: Expr, k: nat) {
    Sees(ts, p, Percent) && !IsModulo(ts, p) ==> EndsPct(e, k)
  }

  lemma FinishAny(ts: seq<Token>, e: Expr, i: nat)
    requires i <= |ts| && Representable(e)
    ensures var p := Finish(ts, e, i); Representable(p.e) && LeftoverPercent(ts, p.next, p.e, 4)
  {
    PercentEndsPct(e);
    PercentEndsPct(Fact(e));
    var b, k := if Sees(ts, i, Bang) then Fact(e) else e, if Sees(ts, i, Bang) then i + 1 else i;
    assert Finish(ts, e, i) == FinishPercent(ts, b, k);
    if Sees(ts, k, Percent) && !IsModulo(ts, k) {
      assert Finish(ts, e, i).e == Pct(b);
    } else {
      assert Finish(ts, e, i) == At(b, k);
    }
  }

  lemma PercentEndsPct(a: Expr)
    ensures EndsPct(Pct(a), 4)
  {
    assert Body(Pct(a)) == Print(a, 5) + [Percent];
  }

  lemma NumberStarts(v: real, k: nat)
    requires k <= 6
    ensures StartsNum(Lit(v), k)
  {
    assert Body(Lit(v)) == [Num(v)];
  }

  lemma FactStarts(a: Expr, k: nat)
    requires k <= 5
    ensures StartsNum(Fact(a), k) == StartsNum(a, 6)
  {
    assert Body(Fact(a)) == Print(a, 6) + [Bang];
  }

  lemma PctStarts(a: Expr)
    ensures StartsNum(Pct(a), 4) == StartsNum(a, 5)
  {
    assert Body(Pct(a)) == Print(a, 5) + [Percent];
  }

  lemma FinishNumber(ts: seq<Token>, v: real, i: nat)
    requires i <= |ts|
    ensures var p := Finish(ts, Lit(v), i); StartsNum(p.e, 4)
  {
    var lit := Lit(v);
    NumberStarts(v, 4);
    NumberStarts(v, 5);
    NumberStarts(v, 6);
    FactStarts(lit, 4);
    FactStarts(lit, 5);
    PctStarts(lit);
    PctStarts(Fact(lit));
    assert Finish(ts, lit, i).e in {lit, Fact(lit), Pct(lit), Pct(Fact(lit))};
  }

  lemma {:induction false} PrimaryShape(ts: seq<Token>, i: nat)
    requires ParsePrimary(ts, i).At?
    ensures var p := ParsePrimary(ts, i);
            && Representable(p.e)
            && LeftoverPercent(ts, p.next, p.e, 4)
            && (SeesNum(ts, i) ==> StartsNum(p.e, 4))
    decreases |ts| - i, 0
  {
    match ts[i]
    case LParen =>
      ExprShape(ts, i + 1);
      var r := ParseExpr(ts, i + 1);
      FinishAny(ts, r.e, r.next + 1);
    case Name(FuncName(f)) =>
      if Sees(ts, i + 1, LParen) {
        ExprShape(ts, i + 2);
        var r := ParseExpr(ts, i + 2);
        FinishAny(ts, Call(f, r.e), r.next + 1);
      } else {
        UnaryShape(ts, i + 1);
        var r := ParseUnary(ts, i + 1);
        FinishAny(ts, Call(f, r.e), r.next);
      }
    case Name(PiName) => FinishAny(ts, Pi, i + 1);
    case Name(EName) => FinishAny(ts, E, i + 1);
    case Num(v) =>
      FinishAny(ts, Lit(v), i + 1);
      FinishNumber(ts, v, i + 1);
    case _ =>
  }

  lemma StartsPow(b: Expr, x: Expr)
    ensures StartsNum(Pow(b, x), 2) == StartsNum(b, 4)
  {
    assert Body(Pow(b, x)) == Print(b, 4) + [Caret] + Print(x, 2);
  }

  lemma SameAbove(e: Expr)
    ensures EndsPct(e, 4) ==> EndsPct(e, 2)
    ensures StartsNum(e, 4) ==> StartsNum(e, 2)
  {
    if Level(e) < 4 {
      EndsPctOther(e, 4);
      assert Print(e, 4) == [LParen] + Body(e) + [RParen];
    }
  }

  lemma PrimaryIsPower(ts: seq<Token>, i: nat)
    requires ParsePrimary(ts, i).At? ==> !Sees(ts, ParsePrimary(ts, i).next, Caret)
    ensures ParsePower(ts, i) == ParsePrimary(ts, i)
  {
  }

  lemma {:induction false} PowerShape(ts: seq<Token>, i: nat)
    requires ParsePower(ts, i).At?
    ensures var p := ParsePower(ts, i);
            && Representable(p.e)
            && LeftoverPercent(ts, p.next, p.e, 2)
            && (SeesNum(ts, i) ==> StartsNum(p.e, 2))
    decreases |ts| - i, 1
  {
    PrimaryShape(ts, i);
    var b := ParsePrimary(ts, i);
    if Sees(ts, b.next, Caret) {
      UnaryShape(ts, b.next + 1);
      var x := ParseUnary(ts, b.next + 1);
      PowerOf(ts, i, b.e, b.next, x.e, x.next);
      EndsPctPow(Pow(b.e, x.e), 2);
      StartsPow(b.e, x.e);
    } else {
      PrimaryIsPower(ts, i);
      SameAbove(b.e);
    }
  }

  lemma {:induction false} UnaryShape(ts: seq<Token>, i: nat)
    requires ParseUnary(ts, i).At?
    ensures var p := ParseUnary(ts, i);
            && Representable(p.e)
            && LeftoverPercent(ts, p.next, p.e, 2)
            && (SeesNum(ts, i) ==> StartsNum(p.e, 2))
    decreases |ts| - i, 2
  {
    if Sees(ts, i, Minus) || Sees(ts, i, Plus) {
      UnaryShape(ts, i + 1);
      if Sees(ts, i, Minus) {
        EndsPctNeg(ParseUnary(ts, i).e, 2);
      }
    } else {
      PowerShape(ts, i);
    }
  }

  lemma {:induction false} TermRestShape(ts: seq<Token>, i: nat, left: Expr)
    requires i <= |ts| && Representable(left) && LeftoverPercent(ts, i, left, 1)
    requires TermRest(ts, i, left).At?
    ensures Representable(TermRest(ts, i, left).e)
    decreases |ts| - i, 3
  {
    if IsImplicit(ts, i) {
      UnaryShape(ts, i);
      var r := ParseUnary(ts, i);
      EndsPctBin(Bin(Mul, left, r.e));
      TermRestShape(ts, r.next, Bin(Mul, left, r.e));
    } else if i < |ts| && TermOp(ts[i]).Some? {
      UnaryShape(ts, i + 1);
      var r := ParseUnary(ts, i + 1);
      EndsPctBin(Bin(TermOp(ts[i]).value, left, r.e));
      TermRestShape(ts, r.next, Bin(TermOp(ts[i]).value, left, r.e));
    }
  }

  /** What a sign leaves over, a product leaves over. */
  lemma LeftoverBelow(ts: seq<Token>, p: nat, e: Expr)
    requires LeftoverPercent(ts, p, e, 2)
    ensures LeftoverPercent(ts, p, e, 1)
  {
    if Level(e) < 2 {
      assert Print(e, 2) == [LParen] + Body(e) + [RParen];
    }
  }

  lemma {:induction false} TermShape(ts: seq<Token>, i: nat)
    requires ParseTerm(ts, i).At?
    ensures Representable(ParseTerm(ts, i).e)
    decreases |ts| - i, 4
  {
    UnaryShape(ts, i);
    var r := ParseUnary(ts, i);
    LeftoverBelow(ts, r.next, r.e);
    TermRestShape(ts, r.next, r.e);
  }

  lemma {:induction false} ExprRestShape(ts: seq<Token>, i: nat, left: Expr)
    requires i <= |ts| && Representable(left) && ExprRest(ts, i, left).At?
    ensures Representable(ExprRest(ts, i, left).e)
    decreases |ts| - i, 5
  {
    if i < |ts| && ExprOp(ts[i]).Some? {
      TermShape(ts, i + 1);
      var r := ParseTerm(ts, i + 1);
      ExprRestShape(ts, r.next, Bin(ExprOp(ts[i]).value, left, r.e));
    }
  }

  lemma {:induction false} ExprShape(ts: seq<Token>, i: nat)
    requires ParseExpr(ts, i).At?
    ensures Representable(ParseExpr(ts, i).e)
    decreases |ts| - i, 6
  {
    TermShape(ts, i);
    var r := ParseTerm(ts, i);
    ExprRestShape(ts, r.next, r.e);
  }

  /** A tree is the parse of some token list exactly when it is representable. */
  lemma ParseableIffRepresentable(e: Expr)
    ensures Representable(e) <==> exists ts :: ParseAll(ts) == Some(e)
  {
    if Representable(e) {
      ParsePrint(e);
    }
    forall ts | ParseAll(ts) == Some(e) ensures Representable(e) {
      ExprShape(ts, 0);
    }
  }

  /** Re-printing what was parsed is a fixed point: it parses to the same tree and prints the same. */
  lemma PrintParsed(ts: seq<Token>)
    requires ParseAll(ts).Some?
    ensures ParseAll(Print(ParseAll(ts).value, 0)) == ParseAll(ts)
  {
    ExprShape(ts, 0);
    ParsePrint(ParseAll(ts).value);
  }

  /** Evaluating the printed tokens of a representable tree gives the value of the tree. */
  lemma EvaluatePrint(e: Expr, env: Env)
    requires Representable(e)
    ensures Evaluate(Print(e, 0), env) == Eval(e, env)
  {
    ParsePrint(e);
  }

  /** The smallest unrepresentable tree: `5 mod -3` prints as `5 % - 3`, which reads as `5% - 3`. */
  lemma ModuloOfSignMisreads()
    ensures var e := Bin(Mod, Lit(5.0), Neg(Lit(3.0)));
            && !Representable(e)
            && ParseAll(Print(e, 0)) == Some(Bin(Sub, Pct(Lit(5.0)), Lit(3.0)))
  {
    var e := Bin(Mod, Lit(5.0), Neg(Lit(3.0)));
    var ts := [Num(5.0), Percent, Minus, Num(3.0)];
    assert Print(e, 0) == ts;
    assert ParsePrimary(ts, 3) == At(Lit(3.0), 4);
    assert ParseTerm(ts, 3) == At(Lit(3.0), 4);
    assert ParsePrimary(ts, 0) == At(Pct(Lit(5.0)), 2);
    assert ParseTerm(ts, 0) == At(Pct(Lit(5.0)), 2);
    assert ExprRest(ts, 2, Pct(Lit(5.0))) == ExprRest(ts, 4, Bin(Sub, Pct(Lit(5.0)), Lit(3.0)));
  }
}
