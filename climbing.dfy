/** What precedence climbing computes on a unit followed by operator and
    unit pairs, where a unit is anything the parser reads as one operand: a
    number, a name, a call or a parenthesised group. The result is the only
    tree over those units that reads back as the input and groups equal
    precedence to the left, tighter operators below looser ones. */
module Climbing {
  import opened Vocabulary
  import opened Tokens
  import opened Lexing
  import opened Syntax
  import opened ParseSpec

  /** Tokens that the parser reads as the unit `u`, consuming exactly them,
      whatever stream not starting with `(` comes after them. */
  ghost predicate IsUnit(seg: seq<Token>, u: Ast)
  {
    forall rest {:trigger SingleUnit(seg + rest)} :: IsStream(rest) && rest[0] != TokSymbol('(') ==> SingleUnit(seg + rest) == Step(Ok(u), rest)
  }

  lemma UnitStep(seg: seq<Token>, u: Ast, rest: seq<Token>)
    requires IsUnit(seg, u) && IsStream(rest) && rest[0] != TokSymbol('(')
    ensures IsStream(seg + rest) && SingleUnit(seg + rest) == Step(Ok(u), rest)
  {
  }

  /** A token that parses as an operand on its own. */
  predicate IsAtom(t: Token)
  {
    t.TokNumber? || t.TokIdentifier?
  }

  function AtomExpr(t: Token): (e: Ast)
    requires IsAtom(t)
    ensures IsExpr(e)
  {
    if t.TokNumber? then NumberExpr(t.numeral) else VariableExpr(t.name)
  }

  /** An operand not followed by `(` is a unit of its own. */
  lemma AtomUnit(atom: Token, rest: seq<Token>)
    requires IsAtom(atom) && IsStream(rest) && rest[0] != TokSymbol('(')
    ensures IsStream([atom] + rest)
    ensures SingleUnit([atom] + rest) == Step(Ok(AtomExpr(atom)), rest)
  {
    var ts := [atom] + rest;
    assert ts[1..] == rest;
    assert StreamPop(ts) == rest;
  }

  /** A number or a name is a unit. */
  lemma AtomIsUnit(atom: Token)
    requires IsAtom(atom)
    ensures IsUnit([atom], AtomExpr(atom))
  {
    forall rest | IsStream(rest) && rest[0] != TokSymbol('(')
      ensures SingleUnit([atom] + rest) == Step(Ok(AtomExpr(atom)), rest)
    {
      AtomUnit(atom, rest);
    }
  }

  /** How an expression groups its units: a unit, or an operator node over
      two groupings. A unit may itself be an operator tree (a parenthesised
      group), which is why the grouping is kept apart from the tree. */
  datatype Shape = Leaf(unit: Ast) | Node(op: char, lhs: Shape, rhs: Shape)

  /** The tree a grouping builds. */
  function Tree(s: Shape): Ast
  {
    match s
    case Leaf(u) => u
    case Node(op, l, r) => BinaryExpr(op, Tree(l), Tree(r))
  }

  /** What a grouping reads back as: its units and operators from left to
      right. */
  datatype Item = Operand(unit: Ast) | Operator(op: char)

  function Yield(s: Shape): seq<Item>
  {
    match s
    case Leaf(u) => [Operand(u)]
    case Node(op, l, r) => Yield(l) + [Operator(op)] + Yield(r)
  }

  /** Every node of the grouping is a binary operator. */
  predicate IsFlat(s: Shape)
  {
    match s
    case Leaf(_) => true
    case Node(op, l, r) => op in SymbolOpChars && IsFlat(l) && IsFlat(r)
  }

  /** Binds tighter than every operator. */
  const Tightest := 100

  function TopPrecedence(s: Shape): int
  {
    if s.Node? then GetOpPrecedence(s.op) else Tightest
  }

  /** A left operand binds at least as tightly as its operator, a right
      operand strictly more tightly. */
  predicate WellGrouped(s: Shape)
  {
    match s
    case Node(op, l, r) =>
      WellGrouped(l) && WellGrouped(r) &&
      TopPrecedence(l) >= GetOpPrecedence(op) && TopPrecedence(r) > GetOpPrecedence(op)
    case _ => true
  }

  /** An operator and the tokens of the unit after it. */
  datatype Link = Link(op: char, seg: seq<Token>, unit: Ast)

  /** Every operator is a binary operator and every segment a unit. */
  ghost predicate IsLinks(links: seq<Link>)
  {
    |links| == 0 ||
    (links[0].op in SymbolOpChars && IsUnit(links[0].seg, links[0].unit) && IsLinks(links[1..]))
  }

  /** `e` is a well-grouped grouping, with binary operators at its nodes,
      of the unit `u` that `seg` holds followed by the operator-unit pairs
      of `links`. */
  ghost predicate GroupsUnits(e: Shape, seg: seq<Token>, u: Ast, links: seq<Link>)
  {
    IsUnit(seg, u) && IsLinks(links) && IsFlat(e) && WellGrouped(e) && Yield(e) == [Operand(u)] + LinkItems(links)
  }

  /** Links whose units are numbers and names. */
  predicate AtomLinks(links: seq<Link>)
  {
    forall i :: 0 <= i < |links| ==>
      links[i].op in SymbolOpChars && |links[i].seg| == 1 && IsAtom(links[i].seg[0]) &&
      links[i].unit == AtomExpr(links[i].seg[0])
  }

  lemma {:induction false} AtomLinksAreLinks(links: seq<Link>)
    requires AtomLinks(links)
    ensures IsLinks(links)
  {
    if |links| > 0 {
      assert links[0].seg == [links[0].seg[0]];
      AtomIsUnit(links[0].seg[0]);
      assert forall i :: 0 <= i < |links| - 1 ==> links[1..][i] == links[i + 1];
      AtomLinksAreLinks(links[1..]);
    }
  }

  /** A link in front of others. */
  lemma LinksCons(l: Link, links: seq<Link>)
    requires l.op in SymbolOpChars && IsUnit(l.seg, l.unit) && IsLinks(links)
    ensures IsLinks([l] + links)
  {
    assert ([l] + links)[1..] == links;
  }

  /** A number or a name, then links of numbers and names, grouped by `e`. */
  lemma AtomGroups(e: Shape, atom: Token, links: seq<Link>)
    requires IsAtom(atom) && AtomLinks(links)
    requires IsFlat(e) && WellGrouped(e) && Yield(e) == [Operand(AtomExpr(atom))] + LinkItems(links)
    ensures GroupsUnits(e, [atom], AtomExpr(atom), links)
  {
    AtomIsUnit(atom);
    AtomLinksAreLinks(links);
  }

  /** A number or a name, then one link of any unit and links of numbers
      and names, grouped by `e`. */
  lemma UnitLinkGroups(e: Shape, atom: Token, l: Link, links: seq<Link>)
    requires IsAtom(atom) && l.op in SymbolOpChars && IsUnit(l.seg, l.unit) && AtomLinks(links)
    requires IsFlat(e) && WellGrouped(e) && Yield(e) == [Operand(AtomExpr(atom))] + LinkItems([l] + links)
    ensures GroupsUnits(e, [atom], AtomExpr(atom), [l] + links)
  {
    AtomIsUnit(atom);
    AtomLinksAreLinks(links);
    LinksCons(l, links);
  }

  function LinkTokens(links: seq<Link>): seq<Token>
  {
    if |links| == 0 then [] else [TokSymbol(links[0].op)] + (links[0].seg + LinkTokens(links[1..]))
  }

  function LinkItems(links: seq<Link>): seq<Item>
  {
    if |links| == 0 then [] else [Operator(links[0].op), Operand(links[0].unit)] + LinkItems(links[1..])
  }

  /** What may follow an expression without extending it: neither an
      operator nor `(`. */
  predicate IsTail(tail: seq<Token>)
  {
    IsStream(tail) && tail[0] != TokSymbol('(') && GetTokenPrecedence(tail[0]) < 0
  }

  /** Index of the first link whose operator binds less tightly than `m`. */
  function FirstBelow(links: seq<Link>, m: int): (k: nat)
    ensures k <= |links|
    ensures k < |links| ==> GetOpPrecedence(links[k].op) < m
  {
    if |links| == 0 || GetOpPrecedence(links[0].op) < m then 0 else 1 + FirstBelow(links[1..], m)
  }

  /** Every link before that index binds at least as tightly as `m`. */
  lemma {:induction false} FirstBelowAtLeast(links: seq<Link>, m: int)
    ensures forall i :: 0 <= i < FirstBelow(links, m) ==> GetOpPrecedence(links[i].op) >= m
  {
    if |links| > 0 && GetOpPrecedence(links[0].op) >= m {
      FirstBelowAtLeast(links[1..], m);
      forall i | 0 < i < FirstBelow(links, m)
        ensures GetOpPrecedence(links[i].op) >= m
      {
        assert links[i] == links[1..][i - 1];
      }
    }
  }

  lemma {:induction false} FirstBelowUnique(links: seq<Link>, m: int, k: nat)
    requires k <= |links|
    requires forall i :: 0 <= i < k ==> GetOpPrecedence(links[i].op) >= m
    requires k < |links| ==> GetOpPrecedence(links[k].op) < m
    ensures FirstBelow(links, m) == k
  {
    if k > 0 {
      assert forall i :: 0 <= i < k - 1 ==> links[1..][i] == links[i + 1];
      FirstBelowUnique(links[1..], m, k - 1);
    }
  }

  lemma {:induction false} LinkItemsAppend(a: seq<Link>, b: seq<Link>)
    ensures LinkItems(a + b) == LinkItems(a) + LinkItems(b)
  {
    if |a| > 0 {
      assert (a + b)[1..] == a[1..] + b;
      LinkItemsAppend(a[1..], b);
    } else {
      assert a + b == b;
    }
  }

  /** The tokens after the first link, and the first token of the rest. */
  lemma LinkTokensCons(links: seq<Link>, tail: seq<Token>)
    requires IsLinks(links) && IsTail(tail)
    ensures IsStream(LinkTokens(links) + tail)
    ensures |links| == 0 ==> LinkTokens(links) + tail == tail
    ensures |links| > 0 ==>
              LinkTokens(links) + tail ==
                [TokSymbol(links[0].op)] + (links[0].seg + (LinkTokens(links[1..]) + tail))
    ensures var ts := LinkTokens(links) + tail;
            ts[0] != TokSymbol('(') &&
            (|links| > 0 ==> ts[0] == TokSymbol(links[0].op) && links[0].op in SymbolOpChars) &&
            (|links| == 0 ==> ts[0] == tail[0])
  {
    LinkTokensSplit(links, tail);
  }

  lemma LinkTokensSplit(links: seq<Link>, tail: seq<Token>)
    ensures |links| == 0 ==> LinkTokens(links) + tail == tail
    ensures |links| > 0 ==>
              LinkTokens(links) + tail ==
                [TokSymbol(links[0].op)] + (links[0].seg + (LinkTokens(links[1..]) + tail))
  {
    if |links| == 0 {
      assert LinkTokens(links) + tail == tail;
    } else {
      var l := links[0];
      assert LinkTokens(links) + tail == [TokSymbol(l.op)] + (l.seg + (LinkTokens(links[1..]) + tail));
    }
  }

  /** The first token before a non-empty list of links is its operator. */
  lemma LinkHead(links: seq<Link>, tail: seq<Token>)
    requires |links| > 0
    ensures (LinkTokens(links) + tail)[0] == TokSymbol(links[0].op)
  {
  }

  /** `r` succeeded with the tree of the grouping `s`, consumed the first `k`
      of `links`, left the others and `tail` unread, and `s` is a
      well-grouped grouping that reads back as `base` followed by the
      consumed links. */
  predicate Consumed(r: Step<Ast>, s: Shape, base: Shape, links: seq<Link>, k: nat, tail: seq<Token>)
  {
    k <= |links| && r == Step(Ok(Tree(s)), LinkTokens(links[k..]) + tail) &&
    Yield(s) == Yield(base) + LinkItems(links[..k]) &&
    WellGrouped(s) && IsFlat(s)
  }

  /** The outer climbing loop takes every link up to the first operator that
      binds less tightly than `minPrecedence`. */
  lemma {:induction false} FlatOpAndRhs(lhs: Shape, minPrecedence: int, links: seq<Link>, tail: seq<Token>)
      returns (s: Shape)
    requires IsLinks(links) && IsTail(tail) && minPrecedence >= 0
    requires WellGrouped(lhs) && IsFlat(lhs)
    requires |links| > 0 && GetOpPrecedence(links[0].op) >= minPrecedence ==>
               GetOpPrecedence(links[0].op) <= TopPrecedence(lhs)
    ensures IsStream(LinkTokens(links) + tail)
    ensures Consumed(OpAndRhs(Tree(lhs), minPrecedence, LinkTokens(links) + tail), s, lhs, links,
                     FirstBelow(links, minPrecedence), tail)
    ensures s == lhs || TopPrecedence(s) >= minPrecedence
    decreases |links|, 2
  {
    LinkTokensCons(links, tail);
    var ts := LinkTokens(links) + tail;
    if |links| > 0 && GetOpPrecedence(links[0].op) >= minPrecedence {
      s := ClimbStep(lhs, minPrecedence, links, tail);
    } else {
      OpAndRhsStop(Tree(lhs), minPrecedence, ts);
      assert FirstBelow(links, minPrecedence) == 0;
      NoneConsumed(lhs, links, tail);
      s := lhs;
    }
  }

  /** One turn of the outer loop: the first operator, the right operand that
      the inner loop builds from the unit after it, and the rest. */
  lemma {:induction false} ClimbStep(lhs: Shape, minPrecedence: int, links: seq<Link>, tail: seq<Token>)
      returns (s: Shape)
    requires IsLinks(links) && IsTail(tail) && minPrecedence >= 0
    requires WellGrouped(lhs) && IsFlat(lhs)
    requires |links| > 0 && GetOpPrecedence(links[0].op) >= minPrecedence
    requires GetOpPrecedence(links[0].op) <= TopPrecedence(lhs)
    ensures IsStream(LinkTokens(links) + tail)
    ensures Consumed(OpAndRhs(Tree(lhs), minPrecedence, LinkTokens(links) + tail), s, lhs, links,
                     FirstBelow(links, minPrecedence), tail)
    ensures s == lhs || TopPrecedence(s) >= minPrecedence
    decreases |links|, 1
  {
    var sr := InnerOperand(links, tail);
    ClimbFirst(lhs, minPrecedence, links, tail);
    s := ClimbRest(lhs, minPrecedence, links, tail,
                   RhsLoop(links[0].unit, GetOpPrecedence(links[0].op), LinkTokens(links[1..]) + tail), sr);
  }

  /** The right operand of the first operator: the inner loop started on the
      unit after it. */
  lemma {:induction false} InnerOperand(links: seq<Link>, tail: seq<Token>) returns (sr: Shape)
    requires IsLinks(links) && IsTail(tail) && |links| > 0
    ensures IsStream(LinkTokens(links[1..]) + tail)
    ensures var p := GetOpPrecedence(links[0].op);
            Consumed(RhsLoop(links[0].unit, p, LinkTokens(links[1..]) + tail), sr, Leaf(links[0].unit), links[1..],
                     FirstBelow(links[1..], p + 1), tail) &&
            (sr == Leaf(links[0].unit) || TopPrecedence(sr) > p)
    decreases |links|, 0
  {
    LinksSuffix(links, 1);
    LinkOperator(links);
    sr := UnitRhs(links[0].unit, GetOpPrecedence(links[0].op), links[1..], tail);
  }

  /** The inner loop started on a unit. */
  lemma {:induction false} UnitRhs(u: Ast, p: int, rest: seq<Link>, tail: seq<Token>) returns (sr: Shape)
    requires IsLinks(rest) && IsTail(tail) && p >= 0
    ensures IsStream(LinkTokens(rest) + tail)
    ensures Consumed(RhsLoop(u, p, LinkTokens(rest) + tail), sr, Leaf(u), rest, FirstBelow(rest, p + 1), tail) &&
            (sr == Leaf(u) || TopPrecedence(sr) > p)
    decreases |rest|, 5
  {
    sr := FlatRhsLoop(Leaf(u), p, rest, tail);
  }

  lemma LinkOperator(links: seq<Link>)
    requires IsLinks(links) && |links| > 0
    ensures GetOpPrecedence(links[0].op) >= 0
  {
  }

  /** The rest of the turn, once the inner loop has built the right operand
      `rr`, of grouping `sr`, from the links after the first. */
  lemma {:induction false} ClimbRest(lhs: Shape, minPrecedence: int, links: seq<Link>, tail: seq<Token>,
                                     rr: Step<Ast>, sr: Shape) returns (s: Shape)
    requires IsLinks(links) && IsTail(tail) && minPrecedence >= 0
    requires WellGrouped(lhs) && IsFlat(lhs)
    requires |links| > 0 && GetOpPrecedence(links[0].op) >= minPrecedence
    requires GetOpPrecedence(links[0].op) <= TopPrecedence(lhs)
    requires Consumed(rr, sr, Leaf(links[0].unit), links[1..],
                      FirstBelow(links[1..], GetOpPrecedence(links[0].op) + 1), tail)
    requires sr == Leaf(links[0].unit) || TopPrecedence(sr) > GetOpPrecedence(links[0].op)
    ensures IsStream(rr.rest)
    ensures Consumed(OpAndRhs(BinaryExpr(links[0].op, Tree(lhs), rr.out.value), minPrecedence, rr.rest), s, lhs, links,
                     FirstBelow(links, minPrecedence), tail)
    ensures s == lhs || TopPrecedence(s) >= minPrecedence
    decreases |links|, 0
  {
    var j := FirstBelow(links[1..], GetOpPrecedence(links[0].op) + 1);
    var next := Node(links[0].op, lhs, sr);
    NextOperand(lhs, links, j, rr, sr, tail);
    s := FlatOpAndRhs(next, minPrecedence, links[1 + j..], tail);
    var k := FirstBelow(links[1 + j..], minPrecedence);
    var fin := OpAndRhs(Tree(next), minPrecedence, LinkTokens(links[1 + j..]) + tail);
    assert OpAndRhs(BinaryExpr(links[0].op, Tree(lhs), rr.out.value), minPrecedence, rr.rest) == fin;
    Compose(lhs, minPrecedence, links, j, k, rr, sr, fin, s, tail);
  }

  /** After the inner loop: the new left operand and where the outer loop
      resumes. */
  lemma NextOperand(lhs: Shape, links: seq<Link>, j: nat, rr: Step<Ast>, sr: Shape, tail: seq<Token>)
    requires IsLinks(links) && |links| > 0
    requires WellGrouped(lhs) && IsFlat(lhs)
    requires GetOpPrecedence(links[0].op) <= TopPrecedence(lhs)
    requires j == FirstBelow(links[1..], GetOpPrecedence(links[0].op) + 1)
    requires Consumed(rr, sr, Leaf(links[0].unit), links[1..], j, tail)
    requires sr == Leaf(links[0].unit) || TopPrecedence(sr) > GetOpPrecedence(links[0].op)
    ensures var next := Node(links[0].op, lhs, sr);
            WellGrouped(next) && IsFlat(next) && TopPrecedence(next) == GetOpPrecedence(links[0].op) &&
            rr.rest == LinkTokens(links[1 + j..]) + tail && IsLinks(links[1 + j..]) &&
            (|links[1 + j..]| > 0 ==> GetOpPrecedence(links[1 + j..][0].op) <= GetOpPrecedence(links[0].op))
  {
    assert links[1..][j..] == links[1 + j..];
    LinksSuffix(links, 1 + j);
    if 1 + j < |links| {
      assert links[1 + j..][0] == links[1..][j];
    }
  }

  /** The consumed links of the first step, the inner loop and the rest of
      the outer loop add up. */
  lemma Compose(lhs: Shape, minPrecedence: int, links: seq<Link>, j: nat, k: nat,
                rr: Step<Ast>, sr: Shape, fin: Step<Ast>, s: Shape, tail: seq<Token>)
    requires IsLinks(links) && |links| > 0
    requires GetOpPrecedence(links[0].op) >= minPrecedence
    requires j == FirstBelow(links[1..], GetOpPrecedence(links[0].op) + 1)
    requires k == FirstBelow(links[1 + j..], minPrecedence)
    requires Consumed(rr, sr, Leaf(links[0].unit), links[1..], j, tail)
    requires Consumed(fin, s, Node(links[0].op, lhs, sr), links[1 + j..], k, tail)
    requires s == Node(links[0].op, lhs, sr) || TopPrecedence(s) >= minPrecedence
    ensures Consumed(fin, s, lhs, links, FirstBelow(links, minPrecedence), tail)
    ensures s == lhs || TopPrecedence(s) >= minPrecedence
  {
    SkipBelow(links, minPrecedence, GetOpPrecedence(links[0].op), j, k);
    JoinYield(lhs, links[0].op, links[0].unit, sr, links, j, k, FirstBelow(links, minPrecedence));
  }

  lemma {:induction false} LinksSuffix(links: seq<Link>, n: nat)
    requires IsLinks(links) && n <= |links|
    ensures IsLinks(links[n..])
  {
    if n > 0 {
      LinksSuffix(links[1..], n - 1);
      assert links[1..][n - 1..] == links[n..];
    }
  }

  /** Unfolding the first climbing step down to the recursive call. */
  lemma ClimbFirst(lhs: Shape, minPrecedence: int, links: seq<Link>, tail: seq<Token>)
    requires IsLinks(links) && IsTail(tail)
    requires |links| > 0 && GetOpPrecedence(links[0].op) >= minPrecedence
    ensures IsStream(LinkTokens(links) + tail) && IsStream(LinkTokens(links[1..]) + tail)
    ensures var rr := RhsLoop(links[0].unit, GetOpPrecedence(links[0].op), LinkTokens(links[1..]) + tail);
            rr.out.Ok? ==>
              OpAndRhs(Tree(lhs), minPrecedence, LinkTokens(links) + tail) ==
              OpAndRhs(BinaryExpr(links[0].op, Tree(lhs), rr.out.value), minPrecedence, rr.rest)
  {
    var l := links[0];
    var rest := LinkTokens(links[1..]) + tail;
    var ts := LinkTokens(links) + tail;
    LinkTokensCons(links, tail);
    LinksSuffix(links, 1);
    LinkTokensCons(links[1..], tail);
    assert StreamPop(ts) == l.seg + rest by {
      assert ts[1..] == l.seg + rest;
    }
    UnitStep(l.seg, l.unit, rest);
    OpAndRhsClimb(Tree(lhs), minPrecedence, ts);
  }

  lemma SkipBelow(links: seq<Link>, m: int, p: int, j: nat, k: nat)
    requires |links| > 0 && GetOpPrecedence(links[0].op) >= m && m <= p
    requires j == FirstBelow(links[1..], p + 1)
    requires k == FirstBelow(links[1 + j..], m)
    ensures FirstBelow(links, m) == 1 + j + k
    ensures links[1 + j..][k..] == links[FirstBelow(links, m)..]
  {
    var n := 1 + j + k;
    FirstBelowAtLeast(links[1..], p + 1);
    FirstBelowAtLeast(links[1 + j..], m);
    forall i | 0 <= i < n
      ensures GetOpPrecedence(links[i].op) >= m
    {
      if 0 < i <= j {
        assert links[i] == links[1..][i - 1];
      } else if i > j {
        assert links[i] == links[1 + j..][i - 1 - j];
      }
    }
    if n < |links| {
      assert links[n] == links[1 + j..][k];
    }
    FirstBelowUnique(links, m, n);
  }

  lemma JoinYield(lhs: Shape, op: char, u: Ast, rhs: Shape, links: seq<Link>, j: nat, k: nat, n: nat)
    requires |links| > 0 && links[0].op == op && links[0].unit == u
    requires n == 1 + j + k <= |links|
    requires Yield(rhs) == Yield(Leaf(u)) + LinkItems(links[1..][..j])
    ensures Yield(Node(op, lhs, rhs)) + LinkItems(links[1 + j..][..k]) ==
            Yield(lhs) + LinkItems(links[..n])
  {
    var front := links[..1 + j];
    var back := links[1 + j..][..k];
    assert links[..n] == front + back;
    LinkItemsAppend(front, back);
    assert front[1..] == links[1..][..j];
    var inner := LinkItems(links[1..][..j]);
    assert LinkItems(front) == [Operator(op), Operand(u)] + inner;
    AppendAssoc(Yield(lhs), [Operator(op), Operand(u)], inner, LinkItems(back));
  }

  lemma AppendAssoc(a: seq<Item>, b: seq<Item>, c: seq<Item>, d: seq<Item>)
    requires |b| == 2
    ensures a + [b[0]] + ([b[1]] + c) + d == a + (b + c + d)
  {
    assert [b[0]] + ([b[1]] + c) == b + c;
  }

  /** The inner loop: the right operand absorbs the links that bind more
      tightly than `precedence`. */
  lemma {:induction false} FlatRhsLoop(rhs: Shape, precedence: int, links: seq<Link>, tail: seq<Token>)
      returns (s: Shape)
    requires IsLinks(links) && IsTail(tail) && precedence >= 0
    requires WellGrouped(rhs) && IsFlat(rhs)
    requires |links| > 0 && GetOpPrecedence(links[0].op) > precedence ==>
               GetOpPrecedence(links[0].op) <= TopPrecedence(rhs)
    ensures IsStream(LinkTokens(links) + tail)
    ensures Consumed(RhsLoop(Tree(rhs), precedence, LinkTokens(links) + tail), s, rhs, links,
                     FirstBelow(links, precedence + 1), tail)
    ensures s == rhs || TopPrecedence(s) > precedence
    decreases |links|, 4
  {
    LinkTokensCons(links, tail);
    var ts := LinkTokens(links) + tail;
    if |links| > 0 && GetOpPrecedence(links[0].op) > precedence {
      s := RhsClimbStep(rhs, precedence, links, tail);
    } else {
      RhsLoopStop(Tree(rhs), precedence, ts);
      assert FirstBelow(links, precedence + 1) == 0;
      NoneConsumed(rhs, links, tail);
      s := rhs;
    }
  }

  /** One turn of the inner loop climbs above `precedence` and then stops. */
  lemma {:induction false} RhsClimbStep(rhs: Shape, precedence: int, links: seq<Link>, tail: seq<Token>)
      returns (s: Shape)
    requires IsLinks(links) && IsTail(tail) && precedence >= 0
    requires WellGrouped(rhs) && IsFlat(rhs)
    requires |links| > 0 && GetOpPrecedence(links[0].op) > precedence
    requires GetOpPrecedence(links[0].op) <= TopPrecedence(rhs)
    ensures IsStream(LinkTokens(links) + tail)
    ensures Consumed(RhsLoop(Tree(rhs), precedence, LinkTokens(links) + tail), s, rhs, links,
                     FirstBelow(links, precedence + 1), tail)
    ensures s == rhs || TopPrecedence(s) > precedence
    decreases |links|, 3
  {
    s := FlatOpAndRhs(rhs, precedence + 1, links, tail);
    var ts := LinkTokens(links) + tail;
    LinkHead(links, tail);
    RhsLoopClimb(Tree(rhs), precedence, ts);
    RhsLoopDone(rhs, precedence, links, tail, OpAndRhs(Tree(rhs), precedence + 1, ts), s);
  }

  /** Once the climb above `precedence` has stopped, the inner loop stops as
      well. */
  lemma RhsLoopDone(rhs: Shape, precedence: int, links: seq<Link>, tail: seq<Token>, r: Step<Ast>, s: Shape)
    requires IsLinks(links) && IsTail(tail) && precedence >= 0
    requires Consumed(r, s, rhs, links, FirstBelow(links, precedence + 1), tail)
    ensures IsStream(r.rest)
    ensures RhsLoop(Tree(s), precedence, r.rest) == r
  {
    var k := FirstBelow(links, precedence + 1);
    LinksSuffix(links, k);
    LinkTokensCons(links[k..], tail);
    if k < |links| {
      assert links[k..][0] == links[k];
    }
    RhsLoopStop(Tree(s), precedence, r.rest);
  }

  /** A unit not followed by `(` starts an expression that climbs from it. */
  lemma UnitExpression(seg: seq<Token>, u: Ast, rest: seq<Token>)
    requires IsUnit(seg, u) && IsStream(rest) && rest[0] != TokSymbol('(')
    ensures IsStream(seg + rest)
    ensures AbstractExpression(seg + rest) == OpAndRhs(u, 0, rest)
  {
    UnitStep(seg, u, rest);
  }

  /** An operand not followed by `(` starts an expression that climbs from
      it. */
  lemma AtomExpression(atom: Token, rest: seq<Token>)
    requires IsAtom(atom) && IsStream(rest) && rest[0] != TokSymbol('(')
    ensures IsStream([atom] + rest)
    ensures AbstractExpression([atom] + rest) == OpAndRhs(AtomExpr(atom), 0, rest)
  {
    AtomUnit(atom, rest);
  }

  /** Stopping at once consumes none of the links. */
  lemma NoneConsumed(e: Shape, links: seq<Link>, tail: seq<Token>)
    requires WellGrouped(e) && IsFlat(e)
    ensures Consumed(Step(Ok(Tree(e)), LinkTokens(links) + tail), e, e, links, 0, tail)
  {
    assert links[0..] == links && links[..0] == [];
  }

  /** Consuming all the links leaves exactly the tail. */
  lemma AllConsumed(r: Step<Ast>, s: Shape, e: Shape, links: seq<Link>, tail: seq<Token>)
    requires IsLinks(links)
    requires Consumed(r, s, e, links, FirstBelow(links, 0), tail)
    ensures r == Step(Ok(Tree(s)), tail) && Yield(s) == Yield(e) + LinkItems(links)
  {
    FirstBelowZero(links);
    assert links[|links|..] == [] && links[..|links|] == links;
  }

  /** What follows the first unit is a stream that does not start with `(`. */
  lemma TailStart(links: seq<Link>, tail: seq<Token>)
    requires IsLinks(links) && IsTail(tail)
    ensures IsStream(LinkTokens(links) + tail) && (LinkTokens(links) + tail)[0] != TokSymbol('(')
  {
    LinkTokensCons(links, tail);
  }

  /** No operator binds less tightly than 0. */
  lemma {:induction false} FirstBelowZero(links: seq<Link>)
    requires IsLinks(links)
    ensures FirstBelow(links, 0) == |links|
  {
    if |links| > 0 {
      FirstBelowZero(links[1..]);
    }
  }

  /** No operator binds less tightly than 0, so climbing from 0 takes every
      link: a unit and its operator-unit pairs are one expression, which
      stops exactly at the tail and builds the tree of a well-grouped
      grouping that reads back as the input. */
  lemma FlatExpression(seg: seq<Token>, u: Ast, links: seq<Link>, tail: seq<Token>) returns (s: Shape)
    requires IsUnit(seg, u) && IsLinks(links) && IsTail(tail)
    ensures IsStream(seg + (LinkTokens(links) + tail))
    ensures AbstractExpression(seg + (LinkTokens(links) + tail)) == Step(Ok(Tree(s)), tail)
    ensures Yield(s) == [Operand(u)] + LinkItems(links) && WellGrouped(s) && IsFlat(s)
  {
    TailStart(links, tail);
    UnitExpression(seg, u, LinkTokens(links) + tail);
    s := FlatOpAndRhs(Leaf(u), 0, links, tail);
    AllConsumed(OpAndRhs(u, 0, LinkTokens(links) + tail), s, Leaf(u), links, tail);
  }
}
