/** The parser's test inputs, as the tokens the lexer delivers for them,
    with the statements the parser builds from those tokens. Numbers are
    carried as their lexemes, so the test value `1.0` appears here as the
    numeral "1". */
module ParseExamples {
  import opened Tokens
  import opened Lexing
  import opened Syntax
  import opened ParseSpec
  import opened Climbing
  import opened Grouping
  import opened ParseFacts

  function Id(n: string): Token { TokIdentifier(n) }
  function Sym(c: char): Token { TokSymbol(c) }
  function Var(n: string): Ast { VariableExpr(n) }
  function Num(v: string): Ast { NumberExpr(v) }

// Statements: the tokens of the test inputs and what the parser builds
  // from them.

  const Eof: seq<Token> := [TokEof]

  /** A number or a name as the unit after an operator. */
  function AtomLink(op: char, atom: Token): Link
    requires IsAtom(atom)
  {
    Link(op, [atom], AtomExpr(atom))
  }

  /** `x + 1` */
  const AddLinks := [AtomLink('+', TokNumber("1"))]
  const AddGrouping := Node('+', Leaf(Var("x")), Leaf(Num("1")))
  const AddTree := BinaryExpr('+', Var("x"), Num("1"))
  const AddTokens := [Id("x"), Sym('+'), TokNumber("1"), TokEof]

  lemma AddLayout()
    ensures AtomLinks(AddLinks) && IsFlat(AddGrouping) && WellGrouped(AddGrouping)
    ensures Yield(AddGrouping) == [Operand(Var("x"))] + LinkItems(AddLinks)
    ensures Tree(AddGrouping) == AddTree && [Id("x")] + (LinkTokens(AddLinks) + Eof) == AddTokens
  {
  }

  lemma AddParses()
    ensures IsStream(AddTokens) && NextAst(AddTokens) == Step(Ok(AddTree), Eof)
  {
    AddLayout();
    AtomGroups(AddGrouping, Id("x"), AddLinks);
    ClimbingParse([Id("x")], Var("x"), AddLinks, Eof, AddGrouping);
    ExpressionStatement(AddTokens);
  }

  /** `x + 2 -4 * q / y`: the sum and the quotient are the operands of the
      difference. */
  const ChainLinks := [AtomLink('+', TokNumber("2")), AtomLink('-', TokNumber("4")), AtomLink('*', Id("q")),
                       AtomLink('/', Id("y"))]
  const ChainGrouping := Node('-', Node('+', Leaf(Var("x")), Leaf(Num("2"))),
                                   Node('/', Node('*', Leaf(Num("4")), Leaf(Var("q"))), Leaf(Var("y"))))
  const ChainTree := BinaryExpr('-', BinaryExpr('+', Var("x"), Num("2")),
                                     BinaryExpr('/', BinaryExpr('*', Num("4"), Var("q")), Var("y")))
  const ChainTokens := [Id("x"), Sym('+'), TokNumber("2"), Sym('-'), TokNumber("4"), Sym('*'), Id("q"), Sym('/'), Id("y"), TokEof]

  lemma ChainLinksLayout()
    ensures AtomLinks(ChainLinks) && IsTail(Eof)
    ensures [Id("x")] + (LinkTokens(ChainLinks) + Eof) == ChainTokens
  {
  }

  lemma ChainLayout()
    ensures IsFlat(ChainGrouping) && WellGrouped(ChainGrouping) && Tree(ChainGrouping) == ChainTree
    ensures Yield(ChainGrouping) == [Operand(Var("x"))] + LinkItems(ChainLinks)
  {
  }

  lemma ChainParses()
    ensures IsStream(ChainTokens) && NextAst(ChainTokens) == Step(Ok(ChainTree), Eof)
  {
    ChainLinksLayout();
    ChainLayout();
    AtomGroups(ChainGrouping, Id("x"), ChainLinks);
    ClimbingParse([Id("x")], Var("x"), ChainLinks, Eof, ChainGrouping);
    ExpressionStatement(ChainTokens);
  }

  /** `x + 2 -4 * q / y + 2`: the trailing sum takes the whole difference as
      its left operand. */
  const LongLinks := [AtomLink('+', TokNumber("2")), AtomLink('-', TokNumber("4")), AtomLink('*', Id("q")),
                      AtomLink('/', Id("y")), AtomLink('+', TokNumber("2"))]
  const LongGrouping := Node('+', ChainGrouping, Leaf(Num("2")))
  const LongTree := BinaryExpr('+', ChainTree, Num("2"))
  const LongTokens := [Id("x"), Sym('+'), TokNumber("2"), Sym('-'), TokNumber("4"), Sym('*'), Id("q"), Sym('/'), Id("y"),
                       Sym('+'), TokNumber("2"), TokEof]

  lemma LongLinksLayout()
    ensures AtomLinks(LongLinks) && IsTail(Eof)
    ensures [Id("x")] + (LinkTokens(LongLinks) + Eof) == LongTokens
  {
  }

  lemma LongLayout()
    ensures IsFlat(LongGrouping) && WellGrouped(LongGrouping) && Tree(LongGrouping) == LongTree
    ensures Yield(LongGrouping) == [Operand(Var("x"))] + LinkItems(LongLinks)
  {
    ChainLayout();
    assert LongLinks == ChainLinks + [AtomLink('+', TokNumber("2"))];
    LinkItemsAppend(ChainLinks, [AtomLink('+', TokNumber("2"))]);
  }

  lemma LongParses()
    ensures IsStream(LongTokens) && NextAst(LongTokens) == Step(Ok(LongTree), Eof)
  {
    LongLinksLayout();
    LongLayout();
    AtomGroups(LongGrouping, Id("x"), LongLinks);
    ClimbingParse([Id("x")], Var("x"), LongLinks, Eof, LongGrouping);
    ExpressionStatement(LongTokens);
  }

  /** `extern atan2()` */
  const NoArgExternTokens := [TokExtern, Id("atan2"), Sym('('), Sym(')'), TokEof]

  lemma NoArgExternShape()
    ensures [TokExtern] + (PrototypeTokens("atan2", []) + Eof) == NoArgExternTokens
  {
  }

  lemma NoArgExternParses()
    ensures IsStream(NoArgExternTokens) && NextAst(NoArgExternTokens) == Step(Ok(Prototype("atan2", [])), Eof)
  {
    ExternParses("atan2", [], Eof);
    NoArgExternShape();
  }

  /** `extern atan2(arg, arg2)` */
  const MultiArgExternTokens := [TokExtern, Id("atan2"), Sym('('), Id("arg"), Sym(','), Id("arg2"), Sym(')'), TokEof]

  lemma MultiArgExternShape()
    ensures [TokExtern] + (PrototypeTokens("atan2", ["arg", "arg2"]) + Eof) == MultiArgExternTokens
  {
    assert ParamTokens(["arg", "arg2"]) == [Id("arg"), Sym(','), Id("arg2")];
  }

  lemma MultiArgExternParses()
    ensures IsStream(MultiArgExternTokens) && NextAst(MultiArgExternTokens) == Step(Ok(Prototype("atan2", ["arg", "arg2"])), Eof)
  {
    ExternParses("atan2", ["arg", "arg2"], Eof);
    MultiArgExternShape();
  }

  /** `def my_tan(arg1) arg1` */
  const SingleArgBody := [Id("arg1"), TokEof]
  const SingleArgTokens := [TokDef, Id("my_tan"), Sym('('), Id("arg1"), Sym(')'), Id("arg1"), TokEof]

  lemma SingleArgLayout()
    ensures IsTail(Eof) && [Id("arg1")] + (LinkTokens([]) + Eof) == SingleArgBody
    ensures [TokDef] + (PrototypeTokens("my_tan", ["arg1"]) + SingleArgBody) == SingleArgTokens
  {
  }

  lemma SingleArgFunctionParses()
    ensures IsStream(SingleArgTokens)
    ensures NextAst(SingleArgTokens) == Step(Ok(Function(Prototype("my_tan", ["arg1"]), Var("arg1"))), Eof)
  {
    SingleArgLayout();
    AtomGroups(Leaf(Var("arg1")), Id("arg1"), []);
    ClimbingParse([Id("arg1")], Var("arg1"), [], Eof, Leaf(Var("arg1")));
    DefinitionParses("my_tan", ["arg1"], SingleArgBody, Var("arg1"), Eof);
  }

  /** `def my_tan(arg1, arg2) arg1 + arg2` */
  const MultiArgLinks := [AtomLink('+', Id("arg2"))]
  const MultiArgGrouping := Node('+', Leaf(Var("arg1")), Leaf(Var("arg2")))
  const MultiArgTree := BinaryExpr('+', Var("arg1"), Var("arg2"))
  const MultiArgBody := [Id("arg1"), Sym('+'), Id("arg2"), TokEof]
  const MultiArgTokens := [TokDef, Id("my_tan"), Sym('('), Id("arg1"), Sym(','), Id("arg2"), Sym(')'),
                           Id("arg1"), Sym('+'), Id("arg2"), TokEof]

  lemma MultiArgBodyLayout()
    ensures AtomLinks(MultiArgLinks) && IsFlat(MultiArgGrouping) && WellGrouped(MultiArgGrouping)
    ensures Yield(MultiArgGrouping) == [Operand(Var("arg1"))] + LinkItems(MultiArgLinks)
    ensures IsTail(Eof) && Tree(MultiArgGrouping) == MultiArgTree
    ensures [Id("arg1")] + (LinkTokens(MultiArgLinks) + Eof) == MultiArgBody
  {
  }

  lemma MultiArgLayout()
    ensures [TokDef] + (PrototypeTokens("my_tan", ["arg1", "arg2"]) + MultiArgBody) == MultiArgTokens
  {
    assert ParamTokens(["arg1", "arg2"]) == [Id("arg1"), Sym(','), Id("arg2")];
  }

  lemma MultiArgFunctionParses()
    ensures IsStream(MultiArgTokens)
    ensures NextAst(MultiArgTokens) == Step(Ok(Function(Prototype("my_tan", ["arg1", "arg2"]), MultiArgTree)), Eof)
  {
    MultiArgBodyLayout();
    AtomGroups(MultiArgGrouping, Id("arg1"), MultiArgLinks);
    ClimbingParse([Id("arg1")], Var("arg1"), MultiArgLinks, Eof, MultiArgGrouping);
    MultiArgLayout();
    DefinitionParses("my_tan", ["arg1", "arg2"], MultiArgBody, MultiArgTree, Eof);
  }

  /** `x / (2 - 4 + q) / y`: the group is the divisor of the first quotient
      and brings no node of its own. */
  const ParenLinks := [AtomLink('-', TokNumber("4")), AtomLink('+', Id("q"))]
  const ParenGroupGrouping := Node('+', Node('-', Leaf(Num("2")), Leaf(Num("4"))), Leaf(Var("q")))
  const ParenGroup := BinaryExpr('+', BinaryExpr('-', Num("2"), Num("4")), Var("q"))
  const ParenGroupLink := Link('/', GroupTokens([TokNumber("2")], ParenLinks), ParenGroup)
  const ParenOuterLinks := [ParenGroupLink] + [AtomLink('/', Id("y"))]
  const ParenGrouping := Node('/', Node('/', Leaf(Var("x")), Leaf(ParenGroup)), Leaf(Var("y")))
  const ParenTree := BinaryExpr('/', BinaryExpr('/', Var("x"), ParenGroup), Var("y"))
  const ParenTokens := [Id("x"), Sym('/'), Sym('('), TokNumber("2"), Sym('-'), TokNumber("4"), Sym('+'), Id("q"), Sym(')'),
                        Sym('/'), Id("y"), TokEof]

  lemma ParenGroupLayout()
    ensures AtomLinks(ParenLinks) && IsFlat(ParenGroupGrouping) && WellGrouped(ParenGroupGrouping)
    ensures Yield(ParenGroupGrouping) == [Operand(Num("2"))] + LinkItems(ParenLinks)
    ensures Tree(ParenGroupGrouping) == ParenGroup
  {
  }

  lemma ParenLayout()
    ensures AtomLinks([AtomLink('/', Id("y"))]) && IsFlat(ParenGrouping) && WellGrouped(ParenGrouping)
    ensures Yield(ParenGrouping) == [Operand(Var("x"))] + LinkItems(ParenOuterLinks)
    ensures IsTail(Eof) && Tree(ParenGrouping) == ParenTree
    ensures [Id("x")] + (LinkTokens(ParenOuterLinks) + Eof) == ParenTokens
  {
  }

  lemma ParenParses()
    ensures IsStream(ParenTokens) && NextAst(ParenTokens) == Step(Ok(ParenTree), Eof)
  {
    ParenGroupLayout();
    AtomGroups(ParenGroupGrouping, TokNumber("2"), ParenLinks);
    GroupIsUnit([TokNumber("2")], Num("2"), ParenLinks, ParenGroupGrouping);
    ParenLayout();
    UnitLinkGroups(ParenGrouping, Id("x"), ParenGroupLink, [AtomLink('/', Id("y"))]);
    ClimbingParse([Id("x")], Var("x"), ParenOuterLinks, Eof, ParenGrouping);
    ExpressionStatement(ParenTokens);
  }

  /** `x * (z * q) / y` and then `extern atan2(arg, arg2)`: the first
      statement stops in front of `extern`, and the second statement is read
      from there. */
  const B2bLinks := [AtomLink('*', Id("q"))]
  const B2bGroupGrouping := Node('*', Leaf(Var("z")), Leaf(Var("q")))
  const B2bGroup := BinaryExpr('*', Var("z"), Var("q"))
  const B2bGroupLink := Link('*', GroupTokens([Id("z")], B2bLinks), B2bGroup)
  const B2bOuterLinks := [B2bGroupLink] + [AtomLink('/', Id("y"))]
  const B2bGrouping := Node('/', Node('*', Leaf(Var("x")), Leaf(B2bGroup)), Leaf(Var("y")))
  const B2bTree := BinaryExpr('/', BinaryExpr('*', Var("x"), B2bGroup), Var("y"))
  const B2bTokens := [Id("x"), Sym('*'), Sym('('), Id("z"), Sym('*'), Id("q"), Sym(')'), Sym('/'), Id("y"),
                      TokExtern, Id("atan2"), Sym('('), Id("arg"), Sym(','), Id("arg2"), Sym(')'), TokEof]

  /** The tokens of the first statement of the pair. */
  const B2bFirstTokens := [Id("x"), Sym('*'), Sym('('), Id("z"), Sym('*'), Id("q"), Sym(')'), Sym('/'), Id("y")]

  lemma B2bGroupLayout()
    ensures AtomLinks(B2bLinks) && IsFlat(B2bGroupGrouping) && WellGrouped(B2bGroupGrouping)
    ensures Yield(B2bGroupGrouping) == [Operand(Var("z"))] + LinkItems(B2bLinks)
    ensures Tree(B2bGroupGrouping) == B2bGroup
  {
  }

  lemma B2bLayout()
    ensures AtomLinks([AtomLink('/', Id("y"))]) && IsFlat(B2bGrouping) && WellGrouped(B2bGrouping)
    ensures Yield(B2bGrouping) == [Operand(Var("x"))] + LinkItems(B2bOuterLinks)
    ensures Tree(B2bGrouping) == B2bTree && [Id("x")] + LinkTokens(B2bOuterLinks) == B2bFirstTokens
  {
  }

  lemma B2bTokensSplit()
    ensures B2bTokens == B2bFirstTokens + MultiArgExternTokens
  {
  }

  /** The first statement stops in front of any token that is neither an
      operator nor `(`. */
  lemma B2bFirst(afterY: seq<Token>)
    requires IsStream(afterY) && !afterY[0].TokSymbol?
    ensures IsStream(B2bFirstTokens + afterY)
    ensures AbstractExpression(B2bFirstTokens + afterY) == Step(Ok(B2bTree), afterY)
  {
    B2bGroupLayout();
    AtomGroups(B2bGroupGrouping, Id("z"), B2bLinks);
    GroupIsUnit([Id("z")], Var("z"), B2bLinks, B2bGroupGrouping);
    B2bLayout();
    UnitLinkGroups(B2bGrouping, Id("x"), B2bGroupLink, [AtomLink('/', Id("y"))]);
    ClimbingParse([Id("x")], Var("x"), B2bOuterLinks, afterY, B2bGrouping);
    Regroup([Id("x")], LinkTokens(B2bOuterLinks), afterY);
  }

  lemma B2bParses()
    ensures IsStream(B2bTokens) && NextAst(B2bTokens) == Step(Ok(B2bTree), MultiArgExternTokens)
    ensures IsStream(MultiArgExternTokens) && NextAst(MultiArgExternTokens) == Step(Ok(Prototype("atan2", ["arg", "arg2"])), Eof)
  {
    MultiArgExternParses();
    B2bFirst(MultiArgExternTokens);
    B2bTokensSplit();
    ExpressionStatement(B2bTokens);
  }
}
