/** The forms the printer never prints: implicit products, unary plus, and functions without parentheses. */
module CalculatorNotation {
  import opened Prelude
  import opened Calculator
  import opened CalculatorRoundTrip

  // ------------------------------------------------- one more token

  /** `ts` with the token `t` written in at position `i`. */
  function With(ts: seq<Token>, i: nat, t: Token): (r: seq<Token>)
    requires i <= |ts|
    ensures |r| == |ts| + 1 && r[i] == t
    ensures forall k {:trigger r[k]} :: 0 <= k < i ==> r[k] == ts[k]
    ensures forall k {:trigger r[k]} :: i < k < |r| ==> r[k] == ts[k - 1]
  {
    ts[..i] + [t] + ts[i..]
  }

  /** Where an operand that started at `j` starts now. */
  function Start(j: nat, i: nat): nat {
    if j < i then j else j + 1
  }

  /** Where what ended at `j` ends now. */
  function End(j: nat, i: nat): nat {
    if j <= i then j else j + 1
  }

  function Moved(p: Parse, i: nat): Parse {
    if p.At? then At(p.e, End(p.next, i)) else Fail
  }

  /** The tokens an operand can end with. */
  predicate EndsOperand(t: Token) {
    t.Num? || t == Name(PiName) || t == Name(EName) || t == RParen || t == Bang || t == Percent
  }

  /** A token that continues a product by itself follows the end of an operand. */
  predicate ImplicitAt(ts: seq<Token>, i: nat) {
    && 0 < i && IsImplicit(ts, i) && EndsOperand(ts[i - 1])
    && (ts[i - 1] == Percent ==> 2 <= i && ts[i - 2] != Percent)
  }

  /** An operand is expected: at the start, after an operator, a parenthesis or another sign. */
  predicate SignAt(ts: seq<Token>, i: nat) {
    i <= |ts| &&
    (i == 0 ||
     match ts[i - 1]
     case LParen => true
     case Caret => true
     case Plus => true
     case Minus => true
     case Star => true
     case Slash => true
     case Name(FuncName(_)) => !Sees(ts, i, LParen)
     case _ => false)
  }

  predicate Seam(ts: seq<Token>, i: nat, t: Token) {
    i <= |ts| && ((t == Star && IsImplicit(ts, i)) || (t == Plus && SignAt(ts, i)))
  }

  /** What is read from `j` on is certain to be read as before. */
  predicate Exact(ts: seq<Token>, i: nat, t: Token, j: nat) {
    t == Plus || ImplicitAt(ts, i) || j >= i
  }

  /** The longer list parses to the same tree, or maybe not at all. */
  predicate Follows(longer: Parse, p: Parse, i: nat, exact: bool) {
    longer == Moved(p, i) || (!exact && longer == Fail)
  }

  // ------------------------------------------------- where operands end

  /** An operand may have ended before `n`: a percent sign at `n` is then an operator, or a second one. */
  predicate Ended(ts: seq<Token>, n: nat) {
    && 0 < n <= |ts| && EndsOperand(ts[n - 1])
    && (Sees(ts, n, Percent) && !IsModulo(ts, n) ==> ts[n - 1] == Percent)
  }

  lemma {:induction false} FinishEnds(ts: seq<Token>, e: Expr, i: nat)
    requires 0 < i <= |ts| && EndsOperand(ts[i - 1])
    ensures Ended(ts, Finish(ts, e, i).next)
  {
  }

  lemma {:induction false} PrimaryEnds(ts: seq<Token>, i: nat)
    requires ParsePrimary(ts, i).At?
    ensures Ended(ts, ParsePrimary(ts, i).next)
    decreases |ts| - i, 0
  {
    match ts[i]
    case LParen =>
      var r := ParseExpr(ts, i + 1);
      FinishEnds(ts, r.e, r.next + 1);
    case Name(FuncName(f)) =>
      if Sees(ts, i + 1, LParen) {
        var r := ParseExpr(ts, i + 2);
        FinishEnds(ts, Call(f, r.e), r.next + 1);
      } else {
        UnaryEnds(ts, i + 1);
        var r := ParseUnary(ts, i + 1);
        FinishEnds(ts, Call(f, r.e), r.next);
      }
    case Name(PiName) => FinishEnds(ts, Pi, i + 1);
    case Name(EName) => FinishEnds(ts, E, i + 1);
    case Num(v) => FinishEnds(ts, Lit(v), i + 1);
    case _ =>
  }

  lemma {:induction false} PowerEnds(ts: seq<Token>, i: nat)
    requires ParsePower(ts, i).At?
    ensures Ended(ts, ParsePower(ts, i).next)
    decreases |ts| - i, 1
  {
    PrimaryEnds(ts, i);
    var b := ParsePrimary(ts, i);
    if Sees(ts, b.next, Caret) {
      UnaryEnds(ts, b.next + 1);
    }
  }

  lemma {:induction false} UnaryEnds(ts: seq<Token>, i: nat)
    requires ParseUnary(ts, i).At?
    ensures Ended(ts, ParseUnary(ts, i).next)
    decreases |ts| - i, 2
  {
    if Sees(ts, i, Minus) || Sees(ts, i, Plus) {
      UnaryEnds(ts, i + 1);
    } else {
      PowerEnds(ts, i);
    }
  }

  lemma {:induction false} TermRestEnds(ts: seq<Token>, i: nat, left: Expr)
    requires Ended(ts, i) && TermRest(ts, i, left).At?
    ensures Ended(ts, TermRest(ts, i, left).next)
    decreases |ts| - i
  {
    if IsImplicit(ts, i) {
      UnaryEnds(ts, i);
      var r := ParseUnary(ts, i);
      TermRestEnds(ts, r.next, Bin(Mul, left, r.e));
    } else if i < |ts| && TermOp(ts[i]).Some? {
      UnaryEnds(ts, i + 1);
      var r := ParseUnary(ts, i + 1);
      TermRestEnds(ts, r.next, Bin(TermOp(ts[i]).value, left, r.e));
    }
  }

  lemma {:induction false} TermEndsWell(ts: seq<Token>, i: nat)
    requires ParseTerm(ts, i).At?
    ensures Ended(ts, ParseTerm(ts, i).next)
  {
    UnaryEnds(ts, i);
    var r := ParseUnary(ts, i);
    TermRestEnds(ts, r.next, r.e);
  }

  lemma {:induction false} ExprRestEnds(ts: seq<Token>, i: nat, left: Expr)
    requires Ended(ts, i) && ExprRest(ts, i, left).At?
    ensures Ended(ts, ExprRest(ts, i, left).next)
    decreases |ts| - i
  {
    if i < |ts| && ExprOp(ts[i]).Some? {
      TermEndsWell(ts, i + 1);
      var r := ParseTerm(ts, i + 1);
      ExprRestEnds(ts, r.next, Bin(ExprOp(ts[i]).value, left, r.e));
    }
  }

  lemma {:induction false} ExprEndsWell(ts: seq<Token>, i: nat)
    requires ParseExpr(ts, i).At?
    ensures Ended(ts, ParseExpr(ts, i).next)
  {
    TermEndsWell(ts, i);
    var r := ParseTerm(ts, i);
    ExprRestEnds(ts, r.next, r.e);
  }

  // ------------------------------------------------- parsing both lists side by side

  /** Nothing starts with a star, and a plus in front of an operand changes nothing. */
  lemma {:induction false} AtSeam(ts: seq<Token>, i: nat, t: Token)
    requires Seam(ts, i, t)
    ensures
      var w := With(ts, i, t);
      if t == Star then ParseUnary(w, i) == ParseTerm(w, i) == ParseExpr(w, i) == Fail
      else
        && ParseUnary(w, i) == ParseUnary(w, i + 1) && ParseTerm(w, i) == ParseTerm(w, i + 1)
        && ParseExpr(w, i) == ParseExpr(w, i + 1)
  {
    var w := With(ts, i, t);
    assert ParsePrimary(w, i) == Fail;
  }

  /** After an operator an operand is read at the new token itself, if that is where it stands. */
  predicate AfterOperator(ts: seq<Token>, i: nat, t: Token, m: nat) {
    m == i && t == Star ==> !ImplicitAt(ts, i)
  }

  lemma {:induction false} UnaryAfter(ts: seq<Token>, i: nat, t: Token, m: nat)
    requires 0 < m && Seam(ts, i, t) && AfterOperator(ts, i, t, m)
    requires Follows(ParseUnary(With(ts, i, t), Start(m, i)), ParseUnary(ts, m), i, Exact(ts, i, t, m))
    ensures Follows(ParseUnary(With(ts, i, t), End(m, i)), ParseUnary(ts, m), i, Exact(ts, i, t, m - 1))
  {
    AtSeam(ts, i, t);
  }

  lemma {:induction false} TermAfter(ts: seq<Token>, i: nat, t: Token, m: nat)
    requires 0 < m && Seam(ts, i, t) && AfterOperator(ts, i, t, m)
    requires Follows(ParseTerm(With(ts, i, t), Start(m, i)), ParseTerm(ts, m), i, Exact(ts, i, t, m))
    ensures Follows(ParseTerm(With(ts, i, t), End(m, i)), ParseTerm(ts, m), i, Exact(ts, i, t, m - 1))
  {
    AtSeam(ts, i, t);
  }

  lemma {:induction false} ExprAfter(ts: seq<Token>, i: nat, t: Token, m: nat)
    requires 0 < m && Seam(ts, i, t) && AfterOperator(ts, i, t, m)
    requires Follows(ParseExpr(With(ts, i, t), Start(m, i)), ParseExpr(ts, m), i, Exact(ts, i, t, m))
    ensures Follows(ParseExpr(With(ts, i, t), End(m, i)), ParseExpr(ts, m), i, Exact(ts, i, t, m - 1))
  {
    AtSeam(ts, i, t);
  }

  lemma {:induction false} FinishMoves(ts: seq<Token>, i: nat, t: Token, e: Expr, k: nat)
    requires Seam(ts, i, t) && 0 < k <= |ts| && EndsOperand(ts[k - 1])
    ensures Finish(With(ts, i, t), e, End(k, i)) == Moved(Finish(ts, e, k), i)
  {
    var w := With(ts, i, t);
    assert Sees(w, End(k, i), Bang) <==> Sees(ts, k, Bang);
    if Sees(ts, k, Bang) {
      PercentMoves(ts, i, t, Fact(e), k + 1);
    } else {
      PercentMoves(ts, i, t, e, k);
    }
  }

  lemma {:induction false} PercentMoves(ts: seq<Token>, i: nat, t: Token, e: Expr, k: nat)
    requires Seam(ts, i, t) && 0 < k <= |ts| && EndsOperand(ts[k - 1])
    ensures FinishPercent(With(ts, i, t), e, End(k, i)) == Moved(FinishPercent(ts, e, k), i)
  {
    var w := With(ts, i, t);
    assert Sees(w, End(k, i), Percent) <==> Sees(ts, k, Percent);
    assert IsModulo(w, End(k, i)) <==> IsModulo(ts, k);
  }

  lemma {:induction false} TokenMoves(ts: seq<Token>, i: nat, t: Token, j: nat)
    requires i <= |ts| && j < |ts|
    ensures Start(j, i) < |With(ts, i, t)| && With(ts, i, t)[Start(j, i)] == ts[j] && End(j + 1, i) == Start(j, i) + 1
  {
  }

  lemma {:induction false} SeesMoved(ts: seq<Token>, i: nat, t: Token, k: nat, x: Token)
    requires Seam(ts, i, t) && Ended(ts, k) && (x == RParen || x == Caret)
    ensures Sees(With(ts, i, t), End(k, i), x) <==> Sees(ts, k, x)
    ensures Sees(ts, k, x) ==> k != i
  {
  }

  /** A parenthesis is open and `p` is what was read after it; `f` says for which function. */
  function Closed(ts: seq<Token>, f: Option<Func>, p: Parse): Parse
    requires p.At? ==> p.next <= |ts|
  {
    if p.At? && Sees(ts, p.next, RParen) then
      Finish(ts, if f.Some? then Call(f.value, p.e) else p.e, p.next + 1)
    else Fail
  }

  lemma {:induction false} ClosedMoved(ts: seq<Token>, i: nat, t: Token, f: Option<Func>, p: Parse)
    requires Seam(ts, i, t) && p.At? && Ended(ts, p.next)
    ensures Closed(With(ts, i, t), f, Moved(p, i)) == Moved(Closed(ts, f, p), i)
  {
    SeesMoved(ts, i, t, p.next, RParen);
    if Sees(ts, p.next, RParen) {
      assert End(p.next + 1, i) == End(p.next, i) + 1;
      FinishMoves(ts, i, t, if f.Some? then Call(f.value, p.e) else p.e, p.next + 1);
    }
  }

  lemma {:induction false} ClosedMoves(ts: seq<Token>, i: nat, t: Token, f: Option<Func>, longer: Parse, p: Parse, exact: bool)
    requires Seam(ts, i, t) && (p.At? ==> Ended(ts, p.next))
    requires Follows(longer, p, i, exact)
    ensures Follows(Closed(With(ts, i, t), f, longer), Closed(ts, f, p), i, exact)
  {
    if p.At? && longer.At? {
      ClosedMoved(ts, i, t, f, p);
    }
  }

  lemma {:induction false} PrimaryIsClosed(ts: seq<Token>, j: nat)
    requires Sees(ts, j, LParen)
    ensures ParsePrimary(ts, j) == Closed(ts, None, ParseExpr(ts, j + 1))
  {
  }

  lemma {:induction false} CallIsClosed(ts: seq<Token>, j: nat, f: Func)
    requires Sees(ts, j, Name(FuncName(f))) && Sees(ts, j + 1, LParen)
    ensures ParsePrimary(ts, j) == Closed(ts, Some(f), ParseExpr(ts, j + 2))
  {
  }

  /** A function without parentheses, `p` being what was read after its name. */
  function Bare(ts: seq<Token>, f: Func, p: Parse): Parse
    requires p.At? ==> p.next <= |ts|
  {
    if p.At? then Finish(ts, Call(f, p.e), p.next) else Fail
  }

  lemma {:induction false} BareMoves(ts: seq<Token>, i: nat, t: Token, f: Func, longer: Parse, p: Parse, exact: bool)
    requires Seam(ts, i, t) && (p.At? ==> Ended(ts, p.next))
    requires Follows(longer, p, i, exact)
    ensures Follows(Bare(With(ts, i, t), f, longer), Bare(ts, f, p), i, exact)
  {
    if p.At? {
      FinishMoves(ts, i, t, Call(f, p.e), p.next);
    }
  }

  lemma {:induction false} PrimaryIsBare(ts: seq<Token>, j: nat, f: Func)
    requires Sees(ts, j, Name(FuncName(f))) && !Sees(ts, j + 1, LParen)
    ensures ParsePrimary(ts, j) == Bare(ts, f, ParseUnary(ts, j + 1))
  {
  }

  /** The operands of one token. */
  function Leaf(x: Token): Option<Expr> {
    match x
    case Num(v) => Some(Lit(v))
    case Name(PiName) => Some(Pi)
    case Name(EName) => Some(E)
    case _ => None
  }

  lemma {:induction false} PrimaryIsLeaf(ts: seq<Token>, j: nat, e: Expr)
    requires j < |ts| && Leaf(ts[j]) == Some(e)
    ensures ParsePrimary(ts, j) == Finish(ts, e, j + 1) && EndsOperand(ts[j])
  {
  }

  lemma {:induction false} LeafMoved(ts: seq<Token>, i: nat, t: Token, j: nat, e: Expr, longer: Parse, p: Parse)
    requires Seam(ts, i, t) && j < |ts| && EndsOperand(ts[j]) && Start(j, i) + 1 <= |With(ts, i, t)|
    requires longer == Finish(With(ts, i, t), e, Start(j, i) + 1) && p == Finish(ts, e, j + 1)
    ensures longer == Moved(p, i)
  {
    FinishMoves(ts, i, t, e, j + 1);
  }

  lemma {:induction false} LeafMoves(ts: seq<Token>, i: nat, t: Token, j: nat, e: Expr)
    requires Seam(ts, i, t) && j < |ts| && Leaf(ts[j]) == Some(e)
    ensures ParsePrimary(With(ts, i, t), Start(j, i)) == Moved(ParsePrimary(ts, j), i)
  {
    var w, k := With(ts, i, t), Start(j, i);
    TokenMoves(ts, i, t, j);
    PrimaryIsLeaf(ts, j, e);
    PrimaryIsLeaf(w, k, e);
    LeafMoved(ts, i, t, j, e, ParsePrimary(w, k), ParsePrimary(ts, j));
  }

  /** No operand starts at `j`. */
  predicate NoOperand(ts: seq<Token>, j: nat) {
    j < |ts| ==> ts[j] != LParen && Leaf(ts[j]).None? && !(ts[j].Name? && ts[j].id.FuncName?)
  }

  lemma {:induction false} PrimaryIsNone(ts: seq<Token>, j: nat)
    requires NoOperand(ts, j)
    ensures ParsePrimary(ts, j) == Fail
  {
  }

  lemma {:induction false} PrimaryMoves(ts: seq<Token>, i: nat, t: Token, j: nat)
    requires Seam(ts, i, t)
    ensures Follows(ParsePrimary(With(ts, i, t), Start(j, i)), ParsePrimary(ts, j), i, Exact(ts, i, t, j))
    decreases |ts| - j, 1
  {
    if NoOperand(ts, j) {
      PrimaryIsNone(ts, j);
      PrimaryIsNone(With(ts, i, t), Start(j, i));
    } else if ts[j] == LParen {
      ParensMove(ts, i, t, j);
    } else if Leaf(ts[j]).Some? {
      LeafMoves(ts, i, t, j, Leaf(ts[j]).value);
    } else {
      CallMoves(ts, i, t, j, ts[j].id.f);
    }
  }

  lemma {:induction false} ExprEnded(ts: seq<Token>, j: nat)
    ensures ParseExpr(ts, j).At? ==> Ended(ts, ParseExpr(ts, j).next)
  {
    if ParseExpr(ts, j).At? {
      ExprEndsWell(ts, j);
    }
  }

  lemma {:induction false} UnaryEnded(ts: seq<Token>, j: nat)
    ensures ParseUnary(ts, j).At? ==> Ended(ts, ParseUnary(ts, j).next)
  {
    if ParseUnary(ts, j).At? {
      UnaryEnds(ts, j);
    }
  }

  /** What is read after a token that ends no operand. */
  lemma {:induction false} ExprMovesAfter(ts: seq<Token>, i: nat, t: Token, m: nat)
    requires Seam(ts, i, t) && 0 < m <= |ts| && !EndsOperand(ts[m - 1])
    ensures Follows(ParseExpr(With(ts, i, t), End(m, i)), ParseExpr(ts, m), i, Exact(ts, i, t, m - 1))
    decreases |ts| - m, 9
  {
    ExprMoves(ts, i, t, m);
    ExprAfter(ts, i, t, m);
  }

  lemma {:induction false} UnaryMovesAfter(ts: seq<Token>, i: nat, t: Token, m: nat)
    requires Seam(ts, i, t) && 0 < m <= |ts| && !EndsOperand(ts[m - 1])
    ensures Follows(ParseUnary(With(ts, i, t), End(m, i)), ParseUnary(ts, m), i, Exact(ts, i, t, m - 1))
    decreases |ts| - m, 9
  {
    UnaryMoves(ts, i, t, m);
    UnaryAfter(ts, i, t, m);
  }

  lemma {:induction false} ParensMove(ts: seq<Token>, i: nat, t: Token, j: nat)
    requires Seam(ts, i, t) && Sees(ts, j, LParen)
    ensures Follows(ParsePrimary(With(ts, i, t), Start(j, i)), ParsePrimary(ts, j), i, Exact(ts, i, t, j))
    decreases |ts| - j, 0
  {
    var w, k := With(ts, i, t), Start(j, i);
    ExprMovesAfter(ts, i, t, j + 1);
    ExprEnded(ts, j + 1);
    ClosedMoves(ts, i, t, None, ParseExpr(w, k + 1), ParseExpr(ts, j + 1), Exact(ts, i, t, j));
    PrimaryIsClosed(ts, j);
    PrimaryIsClosed(w, k);
  }

  lemma {:induction false} CallMoves(ts: seq<Token>, i: nat, t: Token, j: nat, f: Func)
    requires Seam(ts, i, t) && Sees(ts, j, Name(FuncName(f)))
    ensures Follows(ParsePrimary(With(ts, i, t), Start(j, i)), ParsePrimary(ts, j), i, Exact(ts, i, t, j))
    decreases |ts| - j, 0
  {
    if j + 1 == i && t == Star {
      AtSeam(ts, i, t);
      PrimaryIsBare(With(ts, i, t), j, f);
    } else if Sees(ts, j + 1, LParen) {
      CallParensMove(ts, i, t, j, f);
    } else {
      BareCallMoves(ts, i, t, j, f);
    }
  }

  lemma {:induction false} CallParensMove(ts: seq<Token>, i: nat, t: Token, j: nat, f: Func)
    requires Seam(ts, i, t) && Sees(ts, j, Name(FuncName(f))) && Sees(ts, j + 1, LParen) && j + 1 != i
    ensures Follows(ParsePrimary(With(ts, i, t), Start(j, i)), ParsePrimary(ts, j), i, Exact(ts, i, t, j))
    decreases |ts| - j - 1
  {
    var w, k := With(ts, i, t), Start(j, i);
    ExprMovesAfter(ts, i, t, j + 2);
    ExprEnded(ts, j + 2);
    ClosedMoves(ts, i, t, Some(f), ParseExpr(w, k + 2), ParseExpr(ts, j + 2), Exact(ts, i, t, j));
    CallIsClosed(ts, j, f);
    CallIsClosed(w, k, f);
  }

  lemma {:induction false} BareCallMoves(ts: seq<Token>, i: nat, t: Token, j: nat, f: Func)
    requires Seam(ts, i, t) && Sees(ts, j, Name(FuncName(f))) && !Sees(ts, j + 1, LParen)
    requires !(j + 1 == i && t == Star)
    ensures Follows(ParsePrimary(With(ts, i, t), Start(j, i)), ParsePrimary(ts, j), i, Exact(ts, i, t, j))
    decreases |ts| - j - 1
  {
    var w, k := With(ts, i, t), Start(j, i);
    UnaryMovesAfter(ts, i, t, j + 1);
    UnaryEnded(ts, j + 1);
    BareMoves(ts, i, t, f, ParseUnary(w, k + 1), ParseUnary(ts, j + 1), Exact(ts, i, t, j));
    PrimaryIsBare(ts, j, f);
    PrimaryIsBare(w, k, f);
  }

  /** A power: `b` is its base and `x` what was read after the caret. */
  function Raised(b: Expr, x: Parse): Parse {
    if x.At? then At(Pow(b, x.e), x.next) else Fail
  }

  /** What becomes of a primary: a power, if a caret follows. */
  function PowerOn(ts: seq<Token>, b: Parse): Parse {
    if b.At? && Sees(ts, b.next, Caret) then Raised(b.e, ParseUnary(ts, b.next + 1)) else b
  }

  lemma {:induction false} PowerIsOn(ts: seq<Token>, j: nat)
    ensures ParsePower(ts, j) == PowerOn(ts, ParsePrimary(ts, j))
  {
  }

  /** What follows a base, in both lists. */
  lemma {:induction false} CaretMoves(ts: seq<Token>, i: nat, t: Token, b: Expr, m: nat)
    requires Seam(ts, i, t) && Ended(ts, m) && Sees(ts, m, Caret)
    ensures Sees(With(ts, i, t), End(m, i), Caret)
    ensures
      Follows(Raised(b, ParseUnary(With(ts, i, t), End(m, i) + 1)), Raised(b, ParseUnary(ts, m + 1)), i, Exact(ts, i, t, m))
    decreases |ts| - m - 1, 10
  {
    SeesMoved(ts, i, t, m, Caret);
    UnaryMovesAfter(ts, i, t, m + 1);
  }

  lemma {:induction false} PowerOnMoves(ts: seq<Token>, i: nat, t: Token, longer: Parse, b: Parse, j: nat)
    requires Seam(ts, i, t) && b.At? && j < b.next && Ended(ts, b.next)
    requires Follows(longer, b, i, Exact(ts, i, t, j))
    ensures Follows(PowerOn(With(ts, i, t), longer), PowerOn(ts, b), i, Exact(ts, i, t, j))
    decreases |ts| - j - 1, 11
  {
    if Sees(ts, b.next, Caret) {
      CaretMoves(ts, i, t, b.e, b.next);
    } else {
      SeesMoved(ts, i, t, b.next, Caret);
    }
  }

  lemma {:induction false} PowerMoves(ts: seq<Token>, i: nat, t: Token, j: nat)
    requires Seam(ts, i, t)
    ensures Follows(ParsePower(With(ts, i, t), Start(j, i)), ParsePower(ts, j), i, Exact(ts, i, t, j))
    decreases |ts| - j, 2
  {
    var w, k := With(ts, i, t), Start(j, i);
    PrimaryMoves(ts, i, t, j);
    if ParsePrimary(ts, j).At? {
      PrimaryEnds(ts, j);
      PowerOnMoves(ts, i, t, ParsePrimary(w, k), ParsePrimary(ts, j), j);
    }
    PowerIsOn(ts, j);
    PowerIsOn(w, k);
  }

  function Negated(p: Parse): Parse {
    if p.At? then At(Neg(p.e), p.next) else Fail
  }

  lemma {:induction false} UnaryIs(ts: seq<Token>, j: nat)
    ensures ParseUnary(ts, j) ==
      if Sees(ts, j, Minus) then Negated(ParseUnary(ts, j + 1))
      else if Sees(ts, j, Plus) then ParseUnary(ts, j + 1)
      else ParsePower(ts, j)
  {
  }

  lemma {:induction false} NegatedMoves(longer: Parse, p: Parse, i: nat, exact: bool)
    requires Follows(longer, p, i, exact)
    ensures Follows(Negated(longer), Negated(p), i, exact)
  {
  }

  lemma {:induction false} SignMoves(ts: seq<Token>, i: nat, t: Token, j: nat)
    requires Seam(ts, i, t) && (Sees(ts, j, Minus) || Sees(ts, j, Plus))
    ensures Follows(ParseUnary(With(ts, i, t), Start(j, i)), ParseUnary(ts, j), i, Exact(ts, i, t, j))
    decreases |ts| - j, 0
  {
    var w, k := With(ts, i, t), Start(j, i);
    TokenMoves(ts, i, t, j);
    UnaryMovesAfter(ts, i, t, j + 1);
    UnaryIs(ts, j);
    UnaryIs(w, k);
    NegatedMoves(ParseUnary(w, k + 1), ParseUnary(ts, j + 1), i, Exact(ts, i, t, j));
  }

  lemma {:induction false} UnaryMoves(ts: seq<Token>, i: nat, t: Token, j: nat)
    requires Seam(ts, i, t)
    ensures Follows(ParseUnary(With(ts, i, t), Start(j, i)), ParseUnary(ts, j), i, Exact(ts, i, t, j))
    decreases |ts| - j, 3
  {
    if Sees(ts, j, Minus) || Sees(ts, j, Plus) {
      SignMoves(ts, i, t, j);
    } else {
      UnaryIs(ts, j);
      UnaryIs(With(ts, i, t), Start(j, i));
      PowerMoves(ts, i, t, j);
    }
  }

  /** The operator the next round of a term applies, and where its operand starts. */
  function NextFactor(ts: seq<Token>, k: nat): Option<(BinOp, nat)> {
    if IsImplicit(ts, k) then Some((Mul, k))
    else if k < |ts| && TermOp(ts[k]).Some? then Some((TermOp(ts[k]).value, k + 1))
    else None
  }

  lemma {:induction false} TermRestIsFactor(ts: seq<Token>, k: nat, left: Expr)
    requires k <= |ts|
    ensures NextFactor(ts, k).None? ==> TermRest(ts, k, left) == At(left, k)
    ensures NextFactor(ts, k).Some? ==>
      var r := ParseUnary(ts, NextFactor(ts, k).value.1);
      TermRest(ts, k, left) == if r.At? then TermRest(ts, r.next, Bin(NextFactor(ts, k).value.0, left, r.e)) else Fail
  {
  }

  /** The longer list goes through the same rounds: before `i` a star is read as the product it was. */
  lemma {:induction false} NextFactorMoves(ts: seq<Token>, i: nat, t: Token, k: nat)
    requires Seam(ts, i, t) && Ended(ts, k)
    ensures NextFactor(With(ts, i, t), End(k, i)).Some? <==> NextFactor(ts, k).Some?
    ensures NextFactor(ts, k).Some? ==>
      && NextFactor(With(ts, i, t), End(k, i)).value.0 == NextFactor(ts, k).value.0
      && NextFactor(With(ts, i, t), End(k, i)).value.1 ==
           (if IsImplicit(ts, k) then Start(k, i) else End(k + 1, i))
    ensures NextFactor(ts, k).Some? && !IsImplicit(ts, k) ==> AfterOperator(ts, i, t, k + 1)
  {
  }

  lemma {:induction false} FactorMoves(ts: seq<Token>, i: nat, t: Token, k: nat)
    requires Seam(ts, i, t) && Ended(ts, k) && NextFactor(ts, k).Some?
    ensures NextFactor(With(ts, i, t), End(k, i)).Some?
    ensures
      Follows(ParseUnary(With(ts, i, t), NextFactor(With(ts, i, t), End(k, i)).value.1),
              ParseUnary(ts, NextFactor(ts, k).value.1), i, Exact(ts, i, t, k))
    decreases |ts| - k, 4
  {
    NextFactorMoves(ts, i, t, k);
    if IsImplicit(ts, k) {
      UnaryMoves(ts, i, t, k);
    } else {
      UnaryMoves(ts, i, t, k + 1);
      UnaryAfter(ts, i, t, k + 1);
    }
  }

  lemma {:induction false} TermRestMoves(ts: seq<Token>, i: nat, t: Token, k: nat, left: Expr)
    requires Seam(ts, i, t) && Ended(ts, k)
    ensures Follows(TermRest(With(ts, i, t), End(k, i), left), TermRest(ts, k, left), i, Exact(ts, i, t, k))
    decreases |ts| - k, 5
  {
    NextFactorMoves(ts, i, t, k);
    TermRestIsFactor(ts, k, left);
    TermRestIsFactor(With(ts, i, t), End(k, i), left);
    if NextFactor(ts, k).Some? {
      FactorMoves(ts, i, t, k);
      var r := ParseUnary(ts, NextFactor(ts, k).value.1);
      if r.At? {
        UnaryEnds(ts, NextFactor(ts, k).value.1);
        TermRestMoves(ts, i, t, r.next, Bin(NextFactor(ts, k).value.0, left, r.e));
      }
    }
  }

  lemma {:induction false} TermMoves(ts: seq<Token>, i: nat, t: Token, j: nat)
    requires Seam(ts, i, t)
    ensures Follows(ParseTerm(With(ts, i, t), Start(j, i)), ParseTerm(ts, j), i, Exact(ts, i, t, j))
    decreases |ts| - j, 6
  {
    UnaryMoves(ts, i, t, j);
    var r := ParseUnary(ts, j);
    if r.At? {
      UnaryEnds(ts, j);
      TermRestMoves(ts, i, t, r.next, r.e);
    }
  }

  lemma {:induction false} ExprRestIsSummand(ts: seq<Token>, k: nat, left: Expr)
    requires k <= |ts|
    ensures !(k < |ts| && ExprOp(ts[k]).Some?) ==> ExprRest(ts, k, left) == At(left, k)
    ensures k < |ts| && ExprOp(ts[k]).Some? ==>
      var r := ParseTerm(ts, k + 1);
      ExprRest(ts, k, left) == if r.At? then ExprRest(ts, r.next, Bin(ExprOp(ts[k]).value, left, r.e)) else Fail
  {
  }

  /** No sum goes on at the new token: a plus is not written after an operand. */
  lemma {:induction false} SumMoves(ts: seq<Token>, i: nat, t: Token, k: nat)
    requires Seam(ts, i, t) && Ended(ts, k) && !IsImplicit(ts, k)
    ensures
      var w := With(ts, i, t);
      (if End(k, i) < |w| then ExprOp(w[End(k, i)]) else None) == (if k < |ts| then ExprOp(ts[k]) else None)
    ensures k < |ts| && ExprOp(ts[k]).Some? ==> End(k + 1, i) == End(k, i) + 1 && AfterOperator(ts, i, t, k + 1)
  {
  }

  lemma {:induction false} SummandMoves(ts: seq<Token>, i: nat, t: Token, k: nat)
    requires Seam(ts, i, t) && Ended(ts, k) && !IsImplicit(ts, k) && k < |ts| && ExprOp(ts[k]).Some?
    ensures Follows(ParseTerm(With(ts, i, t), End(k, i) + 1), ParseTerm(ts, k + 1), i, Exact(ts, i, t, k))
    ensures ParseTerm(ts, k + 1).At? ==>
      Ended(ts, ParseTerm(ts, k + 1).next) && !IsImplicit(ts, ParseTerm(ts, k + 1).next)
    decreases |ts| - k - 1, 8
  {
    SumMoves(ts, i, t, k);
    TermMoves(ts, i, t, k + 1);
    TermAfter(ts, i, t, k + 1);
    if ParseTerm(ts, k + 1).At? {
      TermEndsWell(ts, k + 1);
      TermLeavesNoFactor(ts, k + 1);
    }
  }

  lemma {:induction false} ExprRestMoves(ts: seq<Token>, i: nat, t: Token, k: nat, left: Expr)
    requires Seam(ts, i, t) && Ended(ts, k) && !IsImplicit(ts, k)
    ensures Follows(ExprRest(With(ts, i, t), End(k, i), left), ExprRest(ts, k, left), i, Exact(ts, i, t, k))
    decreases |ts| - k, 7
  {
    SumMoves(ts, i, t, k);
    ExprRestIsSummand(ts, k, left);
    ExprRestIsSummand(With(ts, i, t), End(k, i), left);
    if k < |ts| && ExprOp(ts[k]).Some? {
      SummandMoves(ts, i, t, k);
      var r := ParseTerm(ts, k + 1);
      if r.At? {
        ExprRestMoves(ts, i, t, r.next, Bin(ExprOp(ts[k]).value, left, r.e));
      }
    }
  }

  lemma {:induction false} TermRestLeavesNoFactor(ts: seq<Token>, k: nat, left: Expr)
    requires k <= |ts| && TermRest(ts, k, left).At?
    ensures !IsImplicit(ts, TermRest(ts, k, left).next)
    decreases |ts| - k
  {
    if IsImplicit(ts, k) {
      var r := ParseUnary(ts, k);
      TermRestLeavesNoFactor(ts, r.next, Bin(Mul, left, r.e));
    } else if k < |ts| && TermOp(ts[k]).Some? {
      var r := ParseUnary(ts, k + 1);
      TermRestLeavesNoFactor(ts, r.next, Bin(TermOp(ts[k]).value, left, r.e));
    }
  }

  lemma {:induction false} TermLeavesNoFactor(ts: seq<Token>, i: nat)
    requires ParseTerm(ts, i).At?
    ensures !IsImplicit(ts, ParseTerm(ts, i).next)
  {
    var r := ParseUnary(ts, i);
    TermRestLeavesNoFactor(ts, r.next, r.e);
  }

  lemma {:induction false} ExprMoves(ts: seq<Token>, i: nat, t: Token, j: nat)
    requires Seam(ts, i, t)
    ensures Follows(ParseExpr(With(ts, i, t), Start(j, i)), ParseExpr(ts, j), i, Exact(ts, i, t, j))
    decreases |ts| - j, 8
  {
    TermMoves(ts, i, t, j);
    var r := ParseTerm(ts, j);
    if r.At? {
      TermEndsWell(ts, j);
      TermLeavesNoFactor(ts, j);
      ExprRestMoves(ts, i, t, r.next, r.e);
    }
  }

  lemma {:induction false} AllMoves(ts: seq<Token>, i: nat, t: Token)
    requires Seam(ts, i, t)
    ensures ParseAll(With(ts, i, t)) == ParseAll(ts)
         || (t == Star && !ImplicitAt(ts, i) && ParseAll(With(ts, i, t)) == None)
  {
    ExprMoves(ts, i, t, 0);
    AtSeam(ts, i, t);
    ExprEnded(ts, 0);
  }

  // ------------------------------------------------- what the forms mean

  /** An implicit product is a product: a star written before a parenthesis, a function or pi that
      follows an operand changes nothing, whatever the rest of the list. */
  lemma {:induction false} ImplicitIsProduct(ts: seq<Token>, i: nat)
    requires ImplicitAt(ts, i)
    ensures ParseAll(ts[..i] + [Star] + ts[i..]) == ParseAll(ts)
  {
    AllMoves(ts, i, Star);
  }

  /** Wherever the loop of a term meets such a token, it goes on as if a star stood before it. */
  lemma {:induction false} ImplicitInTerm(ts: seq<Token>, i: nat, left: Expr)
    requires Ended(ts, i) && IsImplicit(ts, i)
    ensures TermRest(ts[..i] + [Star] + ts[i..], i, left) == Moved(TermRest(ts, i, left), i)
  {
    TermRestMoves(ts, i, Star, i, left);
  }

  /** Anywhere else a star before such a token leaves the tree as it was or is a syntax error. */
  lemma {:induction false} StarIsProductOrError(ts: seq<Token>, i: nat)
    requires IsImplicit(ts, i)
    ensures ParseAll(ts[..i] + [Star] + ts[i..]) in {None, ParseAll(ts)}
  {
    AllMoves(ts, i, Star);
  }

  /** A plus sign before an operand changes nothing. */
  lemma {:induction false} PlusIsNothing(ts: seq<Token>, i: nat)
    requires SignAt(ts, i)
    ensures ParseAll(ts[..i] + [Plus] + ts[i..]) == ParseAll(ts)
  {
    AllMoves(ts, i, Plus);
  }

  lemma {:induction false} ImplicitStep(ts: seq<Token>, m: nat, l: Expr, r: Expr, j: nat)
    requires IsImplicit(ts, m) && ParseUnary(ts, m) == At(r, j) && TermStops(ts, j)
    ensures TermRest(ts, m, l) == At(Bin(Mul, l, r), j)
  {
    TermEnds(ts, j, Bin(Mul, l, r));
  }

  lemma {:induction false} ImplicitTerm(ts: seq<Token>, i: nat, m: nat, l: Expr, r: Expr, j: nat)
    requires IsImplicit(ts, m) && ParseTerm(ts, i) == TermRest(ts, m, l)
    requires ParseUnary(ts, m) == At(r, j) && TermStops(ts, j)
    ensures ParseTerm(ts, i) == At(Bin(Mul, l, r), j)
  {
    ImplicitStep(ts, m, l, r, j);
  }

  lemma {:induction false} ReadLeft(l: Expr, ts: seq<Token>, i: nat, m: nat)
    requires Representable(l) && Spans(l, 1, ts, i, m) && Sees(ts, m, LParen)
    ensures ParseTerm(ts, i) == TermRest(ts, m, l)
  {
    ParenIsClean(ts, m, EndsPct(l, 1));
    ReadProduct(l, ts, i, m);
  }

  lemma {:induction false} ParenIsClean(ts: seq<Token>, m: nat, endsPct: bool)
    requires Sees(ts, m, LParen)
    ensures Clean(ts, m, endsPct) && IsImplicit(ts, m) && !Sees(ts, m, Caret) && !Sees(ts, m, Minus) && !Sees(ts, m, Plus)
  {
  }

  lemma {:induction false} NothingToFinish(ts: seq<Token>, e: Expr, j: nat)
    requires j <= |ts| && Clean(ts, j, false)
    ensures Finish(ts, e, j) == At(e, j)
  {
  }

  lemma {:induction false} UnaryIsPrimary(ts: seq<Token>, m: nat, e: Expr, j: nat)
    requires ParsePrimary(ts, m) == At(e, j)
    requires !Sees(ts, m, Minus) && !Sees(ts, m, Plus) && !Sees(ts, j, Caret)
    ensures ParseUnary(ts, m) == At(e, j)
  {
    PowerIsPrimary(ts, m, e, j);
    PowerIsUnary(ts, m);
  }

  lemma {:induction false} PrimaryAlone(ts: seq<Token>, m: nat, e: Expr, j: nat)
    requires j <= |ts| && ParsePrimary(ts, m) == Finish(ts, e, j) && Clean(ts, j, false)
    requires !Sees(ts, m, Minus) && !Sees(ts, m, Plus) && !Sees(ts, j, Caret)
    ensures ParseUnary(ts, m) == At(e, j)
  {
    NothingToFinish(ts, e, j);
    UnaryIsPrimary(ts, m, e, j);
  }

  lemma {:induction false} ParensAlone(ts: seq<Token>, m: nat, e: Expr, j: nat)
    requires j <= |ts| && ParsePrimary(ts, m) == Finish(ts, e, j) && Sees(ts, m, LParen)
    requires Clean(ts, j, false) && !Sees(ts, j, Caret)
    ensures ParseUnary(ts, m) == At(e, j)
  {
    PrimaryAlone(ts, m, e, j);
  }

  lemma {:induction false} ReadParensAlone(r: Expr, ts: seq<Token>, m: nat, n: nat)
    requires n + 1 <= |ts| && Representable(r) && Sees(ts, m, LParen) && Spans(r, 0, ts, m + 1, n) && Sees(ts, n, RParen)
    requires Clean(ts, n + 1, false) && !Sees(ts, n + 1, Caret)
    ensures ParseUnary(ts, m) == At(r, n + 1)
  {
    ReadParens(r, ts, m, n);
    ParensAlone(ts, m, r, n + 1);
  }

  /** A printed product followed by a parenthesised tree is the product of the two, in any list that
      goes on with nothing a product takes up. */
  lemma {:induction false} ReadImplicitProduct(l: Expr, r: Expr, ts: seq<Token>, i: nat, m: nat, n: nat)
    requires Representable(l) && Representable(r)
    requires Spans(l, 1, ts, i, m) && Sees(ts, m, LParen) && Spans(r, 0, ts, m + 1, n) && Sees(ts, n, RParen)
    requires Clean(ts, n + 1, false) && TermStops(ts, n + 1)
    ensures ParseTerm(ts, i) == At(Bin(Mul, l, r), n + 1)
  {
    ReadLeft(l, ts, i, m);
    ReadParensAlone(r, ts, m, n);
    ParenIsClean(ts, m, false);
    ImplicitTerm(ts, i, m, l, r, n + 1);
  }

  lemma {:induction false} SpansImplicit(l: Expr, r: Expr, ts: seq<Token>)
    requires ts == Print(l, 1) + ([LParen] + Print(r, 0) + [RParen])
    ensures
      var m := |Print(l, 1)|;
      Spans(l, 1, ts, 0, m) && Sees(ts, m, LParen) && Spans(r, 0, ts, m + 1, |ts| - 1) && Sees(ts, |ts| - 1, RParen)
  {
    OccursImplicit(Print(l, 1), Print(r, 0), ts);
  }

  lemma {:induction false} OccursImplicit(left: seq<Token>, right: seq<Token>, ts: seq<Token>)
    requires ts == left + ([LParen] + right + [RParen])
    ensures Occurs(ts, 0, left) && Sees(ts, |left|, LParen)
    ensures Occurs(ts, |left| + 1, right) && |left| + 1 + |right| == |ts| - 1 && Sees(ts, |ts| - 1, RParen)
  {
    assert Occurs(ts, 0, left + ([LParen] + right + [RParen]));
    OccursSplit(ts, 0, left, [LParen] + right + [RParen]);
    OccursParens(right, ts, |left|);
  }

  lemma {:induction false} ImplicitProductParses(l: Expr, r: Expr)
    requires Representable(l) && Representable(r)
    ensures ParseAll(Print(l, 1) + ([LParen] + Print(r, 0) + [RParen])) == Some(Bin(Mul, l, r))
  {
    var ts := Print(l, 1) + ([LParen] + Print(r, 0) + [RParen]);
    SpansImplicit(l, r, ts);
    ReadImplicitProduct(l, r, ts, 0, |Print(l, 1)|, |ts| - 1);
    ExprOf(ts, 0, Bin(Mul, l, r), |ts|);
    NothingLeft(ts, Bin(Mul, l, r));
  }

  lemma {:induction false} EvalMul(l: Expr, r: Expr, env: Env)
    ensures Eval(Bin(Mul, l, r), env).Some? <==> Eval(l, env).Some? && Eval(r, env).Some?
    ensures Eval(Bin(Mul, l, r), env).Some? ==>
      Eval(Bin(Mul, l, r), env).value == Eval(l, env).value * Eval(r, env).value
  {
  }

  /** `2(3)` is the product of 2 and 3. */
  lemma {:induction false} EvaluateImplicitProduct(l: Expr, r: Expr, env: Env)
    requires Representable(l) && Representable(r)
    ensures
      var v := Evaluate(Print(l, 1) + ([LParen] + Print(r, 0) + [RParen]), env);
      && (v.Some? <==> Eval(l, env).Some? && Eval(r, env).Some?)
      && (v.Some? ==> v.value == Eval(l, env).value * Eval(r, env).value)
  {
    ImplicitProductParses(l, r);
    EvalMul(l, r, env);
  }

  lemma {:induction false} NothingLeft(ts: seq<Token>, e: Expr)
    ensures ExprRest(ts, |ts|, e) == At(e, |ts|)
  {
  }

  /** A function name takes the operand after it: a sign, a power or less, with its postfixes. */
  lemma {:induction false} ReadBareCall(f: Func, a: Expr, ts: seq<Token>, i: nat, j: nat)
    requires Representable(a) && Sees(ts, i, Name(FuncName(f))) && !Sees(ts, i + 1, LParen)
    requires Spans(a, 2, ts, i + 1, j) && Clean(ts, j, EndsPct(a, 2)) && !Sees(ts, j, Caret)
    ensures ParsePrimary(ts, i) == Finish(ts, Call(f, a), j)
  {
    ReadSign(a, ts, i + 1, j);
    PrimaryIsBare(ts, i, f);
  }

  lemma {:induction false} OccursBare(f: Func, a: seq<Token>, ts: seq<Token>)
    requires ts == [Name(FuncName(f))] + a && a != [] && a[0] != LParen
    ensures Sees(ts, 0, Name(FuncName(f))) && !Sees(ts, 1, LParen) && Occurs(ts, 1, a) && |ts| == 1 + |a|
  {
    assert Occurs(ts, 0, [Name(FuncName(f))] + a);
    OccursSplit(ts, 0, [Name(FuncName(f))], a);
    OccursHead(ts, 1, a);
  }

  lemma {:induction false} AllIsUnary(ts: seq<Token>, e: Expr)
    requires ParseUnary(ts, 0) == At(e, |ts|)
    ensures ParseAll(ts) == Some(e)
  {
    TermEnds(ts, |ts|, e);
    ExprOf(ts, 0, e, |ts|);
    NothingLeft(ts, e);
  }

  lemma {:induction false} EndIsClean(ts: seq<Token>)
    ensures Clean(ts, |ts|, false) && !Sees(ts, |ts|, Caret)
  {
  }

  lemma {:induction false} SpansBare(f: Func, a: Expr, ts: seq<Token>)
    requires Print(a, 2)[0] != LParen && ts == [Name(FuncName(f))] + Print(a, 2)
    ensures Sees(ts, 0, Name(FuncName(f))) && !Sees(ts, 1, LParen) && Spans(a, 2, ts, 1, |ts|)
  {
    OccursBare(f, Print(a, 2), ts);
  }

  lemma {:induction false} CleanAnyway(ts: seq<Token>, j: nat, endsPct: bool)
    requires Clean(ts, j, false)
    ensures Clean(ts, j, endsPct)
  {
  }

  lemma {:induction false} ReadBareAlone(f: Func, a: Expr, ts: seq<Token>, i: nat, j: nat)
    requires Representable(a) && Sees(ts, i, Name(FuncName(f))) && !Sees(ts, i + 1, LParen)
    requires Spans(a, 2, ts, i + 1, j) && Clean(ts, j, false) && !Sees(ts, j, Caret)
    ensures ParseUnary(ts, i) == At(Call(f, a), j)
  {
    CleanAnyway(ts, j, EndsPct(a, 2));
    ReadBareCall(f, a, ts, i, j);
    PrimaryAlone(ts, i, Call(f, a), j);
  }

  lemma {:induction false} BareCallParses(f: Func, a: Expr)
    requires Representable(a) && Print(a, 2)[0] != LParen
    ensures ParseAll([Name(FuncName(f))] + Print(a, 2)) == Some(Call(f, a))
  {
    var ts := [Name(FuncName(f))] + Print(a, 2);
    SpansBare(f, a, ts);
    EndIsClean(ts);
    ReadBareAlone(f, a, ts, 0, |ts|);
    AllIsUnary(ts, Call(f, a));
  }

  /** `sqrt 4` is the root of 4, and `sqrt -x^2` that of `-x^2`. */
  lemma {:induction false} EvaluateBareCall(f: Func, a: Expr, env: Env)
    requires Representable(a) && Print(a, 2)[0] != LParen
    ensures
      var v := Evaluate([Name(FuncName(f))] + Print(a, 2), env);
      v == if Eval(a, env).Some? then env.fn(f, Eval(a, env).value) else None
  {
    BareCallParses(f, a);
  }
}
