/** Precedence climbing has exactly one possible answer: a grouping of
    units and operators is determined by what it reads back as, once it
    groups equal precedence to the left and tighter operators below looser
    ones. */
module Grouping {
  import opened Vocabulary
  import opened Tokens
  import opened Lexing
  import opened Syntax
  import opened ParseSpec
  import opened Climbing

  /** Every operator among `ys` binds at least as tightly as `m`. */
  predicate OpsAtLeast(ys: seq<Item>, m: int)
  {
    forall i :: 0 <= i < |ys| && ys[i].Operator? ==> GetOpPrecedence(ys[i].op) >= m
  }

  /** No operator in a well-grouped tree binds less tightly than its root. */
  lemma {:induction false} YieldOps(e: Shape)
    requires IsFlat(e) && WellGrouped(e)
    ensures OpsAtLeast(Yield(e), TopPrecedence(e))
  {
    if e.Node? {
      YieldOps(e.lhs);
      YieldOps(e.rhs);
      var yl, yr := Yield(e.lhs), Yield(e.rhs);
      var y := Yield(e);
      forall i | 0 <= i < |y| && y[i].Operator?
        ensures GetOpPrecedence(y[i].op) >= TopPrecedence(e)
      {
        if i < |yl| {
          assert y[i] == yl[i];
        } else if i > |yl| {
          assert y[i] == yr[i - |yl| - 1];
        }
      }
    }
  }

  /** A unit reads back as one item, an operator node as at least three. */
  lemma {:induction false} YieldLength(e: Shape)
    ensures e.Node? ==> |Yield(e)| >= 3
    ensures e.Leaf? ==> |Yield(e)| == 1
  {
    if e.Node? {
      YieldLength(e.lhs);
      YieldLength(e.rhs);
    }
  }

  /** An operator left of a root binds at least as tightly as the root. */
  lemma LeftOperator(e: Shape, i: nat)
    requires IsFlat(e) && WellGrouped(e) && e.Node?
    requires i < |Yield(e.lhs)|
    ensures Yield(e)[i].Operator? ==> GetOpPrecedence(Yield(e)[i].op) >= GetOpPrecedence(e.op)
  {
    YieldOps(e.lhs);
    assert Yield(e)[i] == Yield(e.lhs)[i];
  }

  /** An operator right of a root binds strictly more tightly than the root. */
  lemma RightOperator(e: Shape, i: nat)
    requires IsFlat(e) && WellGrouped(e) && e.Node?
    requires |Yield(e.lhs)| < i < |Yield(e)|
    ensures Yield(e)[i].Operator? ==> GetOpPrecedence(Yield(e)[i].op) > GetOpPrecedence(e.op)
  {
    YieldOps(e.rhs);
    assert Yield(e)[i] == Yield(e.rhs)[i - |Yield(e.lhs)| - 1];
  }

  /** The root operator sits right after the items of the left operand. */
  lemma RootToken(e: Shape)
    requires e.Node?
    ensures |Yield(e.lhs)| < |Yield(e)| && Yield(e)[|Yield(e.lhs)|] == Operator(e.op)
  {
  }

  /** The items in front of a root operator cannot end beyond another
      grouping's root: the two roots would each bind more tightly than the
      other. */
  lemma RootsAlign(a: Shape, b: Shape)
    requires IsFlat(a) && WellGrouped(a) && a.Node?
    requires IsFlat(b) && WellGrouped(b) && b.Node?
    requires Yield(a) == Yield(b)
    ensures |Yield(a.lhs)| >= |Yield(b.lhs)|
  {
    if |Yield(a.lhs)| < |Yield(b.lhs)| {
      RootToken(a);
      RootToken(b);
      LeftOperator(b, |Yield(a.lhs)|);
      RightOperator(a, |Yield(b.lhs)|);
      assert false;
    }
  }

  /** Two well-grouped groupings that read back as the same units and
      operators are the same grouping. */
  lemma {:induction false} GroupingUnique(a: Shape, b: Shape)
    requires IsFlat(a) && WellGrouped(a) && IsFlat(b) && WellGrouped(b)
    requires Yield(a) == Yield(b)
    ensures a == b
    decreases a
  {
    YieldLength(a);
    YieldLength(b);
    if a.Node? && b.Node? {
      RootsAlign(a, b);
      RootsAlign(b, a);
      var y, n := Yield(a), |Yield(a.lhs)|;
      assert Yield(a.lhs) == y[..n] == Yield(b.lhs);
      assert Operator(a.op) == y[n] == Operator(b.op);
      assert Yield(a.rhs) == y[n + 1..] == Yield(b.rhs);
      GroupingUnique(a.lhs, b.lhs);
      GroupingUnique(a.rhs, b.rhs);
    } else if a.Leaf? && b.Leaf? {
      assert Yield(a)[0] == Yield(b)[0];
    }
  }

  /** Precedence climbing over a unit and operator-unit pairs yields the
      tree of any given well-grouped grouping that reads back as that input,
      and leaves exactly what follows. */
  lemma ClimbingParse(seg: seq<Token>, u: Ast, links: seq<Link>, tail: seq<Token>, e: Shape)
    requires GroupsUnits(e, seg, u, links) && IsTail(tail)
    ensures IsStream(seg + (LinkTokens(links) + tail))
    ensures AbstractExpression(seg + (LinkTokens(links) + tail)) == Step(Ok(Tree(e)), tail)
  {
    var s := FlatExpression(seg, u, links, tail);
    GroupingUnique(s, e);
  }
}
