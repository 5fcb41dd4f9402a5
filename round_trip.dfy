/** The rendering of a tree is source text that the front end reads back as
    that tree: lexing the rendering gives the tokens of the tree, and parsing
    those tokens gives the tree again, with nothing left over. A prototype
    reads back after `extern`, and a function after `def`. */
module RoundTrip {
  import opened Vocabulary
  import opened Tokens
  import opened Lexing
  import opened LexerLemmas
  import opened SliceDisplay
  import opened Syntax
  import opened ParseSpec
  import opened Climbing
  import opened ParseFacts

  /** Expressions whose rendering reads back: numerals and names that each
      lex as one token, operator characters at the nodes, and calls with at
      least one argument (an empty call leaves its `)` unread). */
  predicate Readable(e: Ast)
  {
    match e
    case NumberExpr(n) => Lexable(TokNumber(n))
    case VariableExpr(n) => Lexable(TokIdentifier(n))
    case BinaryExpr(op, l, r) => op in SymbolOpChars && Readable(l) && Readable(r)
    case CallExpr(c, args) =>
      Lexable(TokIdentifier(c)) && |args| > 0 && forall i :: 0 <= i < |args| ==> Readable(args[i])
    case _ => false
  }

  /** Names that each lex as one identifier. */
  predicate Names(params: seq<string>)
  {
    forall i :: 0 <= i < |params| ==> Lexable(TokIdentifier(params[i]))
  }

  /** Statements whose source text reads back. */
  predicate ReadableStatement(s: Ast)
  {
    match s
    case Prototype(name, params) => Lexable(TokIdentifier(name)) && Names(params)
    case Function(p, b) =>
      p.Prototype? && Lexable(TokIdentifier(p.name)) && Names(p.params) && Readable(b)
    case _ => Readable(s)
  }

  /** The source text of a statement: its rendering, after `extern ` for a
      prototype and after `def ` for a function. */
  function Source(s: Ast): string
  {
    if s.Prototype? then "extern " + Syntax.Display(s)
    else if s.Function? then "def " + Syntax.Display(s)
    else Syntax.Display(s)
  }

  // The tokens of a rendering, as the parser reads them.

  function DisplayTokens(e: Ast): seq<Token>
    decreases e, 1
  {
    match e
    case NumberExpr(n) => [TokNumber(n)]
    case VariableExpr(n) => [TokIdentifier(n)]
    case BinaryExpr(op, l, r) => GroupTokens(DisplayTokens(l), [Link(op, DisplayTokens(r), r)])
    case CallExpr(c, args) => CallTokens(c, Arguments(args))
    case _ => []
  }

  /** Each argument with the tokens of its rendering. */
  function Arguments(args: seq<Ast>): (r: seq<Argument>)
    ensures |r| == |args|
    decreases args, 0
  {
    if |args| == 0 then [] else [Argument(DisplayTokens(args[0]), args[0])] + Arguments(args[1..])
  }

  // Parsing the tokens of a rendering.

  /** A unit is an argument of its own. */
  lemma UnitIsArgument(seg: seq<Token>, u: Ast)
    requires IsUnit(seg, u)
    ensures IsArgument(Argument(seg, u))
  {
    assert LinkItems([]) == [] && LinkTokens([]) == [];
    ExpressionIsArgument(seg, u, [], Leaf(u));
    assert seg + LinkTokens([]) == seg;
  }

  /** A unit, an operator and a unit, grouped as one node. */
  lemma SingleLinkGroups(seg: seq<Token>, u: Ast, l: Link)
    requires IsUnit(seg, u) && l.op in SymbolOpChars && IsUnit(l.seg, l.unit)
    ensures GroupsUnits(Node(l.op, Leaf(u), Leaf(l.unit)), seg, u, [l])
  {
    LinksCons(l, []);
    assert [l] + [] == [l];
    assert [l][1..] == [];
    assert LinkItems([l]) == [Operator(l.op), Operand(l.unit)];
  }

  /** An operator between two units, in parentheses, is a unit. */
  lemma OperatorGroupIsUnit(sl: seq<Token>, l: Ast, op: char, sr: seq<Token>, r: Ast)
    requires IsUnit(sl, l) && IsUnit(sr, r) && op in SymbolOpChars
    ensures IsUnit(GroupTokens(sl, [Link(op, sr, r)]), BinaryExpr(op, l, r))
  {
    var grouping := Node(op, Leaf(l), Leaf(r));
    SingleLinkGroups(sl, l, Link(op, sr, r));
    GroupIsUnit(sl, l, [Link(op, sr, r)], grouping);
    assert Tree(grouping) == BinaryExpr(op, l, r);
  }

  /** The tokens of a readable expression are a unit that parses as that
      expression. */
  lemma {:induction false} DisplayTokensUnit(e: Ast)
    requires Readable(e)
    ensures IsUnit(DisplayTokens(e), e)
    decreases e, 1
  {
    match e
    case NumberExpr(n) =>
      AtomIsUnit(TokNumber(n));
    case VariableExpr(n) =>
      AtomIsUnit(TokIdentifier(n));
    case BinaryExpr(op, l, r) =>
      DisplayTokensUnit(l);
      DisplayTokensUnit(r);
      OperatorGroupIsUnit(DisplayTokens(l), l, op, DisplayTokens(r), r);
    case CallExpr(c, args) =>
      ArgumentsRead(args);
      CallIsUnit(c, Arguments(args));
  }

  /** The tokens of readable arguments are arguments that parse as them. */
  lemma {:induction false} ArgumentsRead(args: seq<Ast>)
    requires forall i :: 0 <= i < |args| ==> Readable(args[i])
    ensures IsArguments(Arguments(args)) && Trees(Arguments(args)) == args
    decreases args, 0
  {
    if |args| > 0 {
      var all := Arguments(args);
      DisplayTokensUnit(args[0]);
      UnitIsArgument(DisplayTokens(args[0]), args[0]);
      assert forall i :: 0 <= i < |args| - 1 ==> args[1..][i] == args[i + 1];
      ArgumentsRead(args[1..]);
      assert all[0] == Argument(DisplayTokens(args[0]), args[0]);
      assert all[1..] == Arguments(args[1..]);
      assert Trees(all) == [args[0]] + args[1..] == args;
    }
  }

  /** The tokens of a readable expression start with `(`, a number or a
      name. */
  lemma DisplayTokensStart(e: Ast)
    requires Readable(e)
    ensures |DisplayTokens(e)| > 0
    ensures var t := DisplayTokens(e)[0]; t == TokSymbol('(') || t.TokNumber? || t.TokIdentifier?
  {
  }

  // Laying the rendering out as lexemes and whitespace.

  /** What follows a rendering ends its last lexeme: the end of the text, a
      gap, or a symbol. */
  predicate Breaks(k: Text)
  {
    k.Then? ==> |k.gap| > 0 || (k.token.TokSymbol? && IsSymbolChar(k.token.ch))
  }

  /** A lexeme other than a comment is ended by what `Breaks` allows. */
  lemma BreaksFollow(t: Token, k: Text)
    requires WellSpaced(k) && Breaks(k) && !t.TokComment?
    ensures FollowedBy(t, k)
  {
    match k
    case End(w) =>
      if |w| > 0 {
        AllWhitespaceAt(w);
      }
    case Then(g, u, _) =>
      if |g| > 0 {
        AllWhitespaceAt(g);
      }
  }

  /** A symbol is ended by anything. */
  lemma SymbolFollow(c: char, k: Text)
    requires WellSpaced(k)
    ensures FollowedBy(TokSymbol(c), k)
  {
  }

  /** `x` is a well-spaced layout in front of `k` that spells `g`, then `s`,
      then what `k` spells, and holds the tokens `ts`, then those of `k`. */
  predicate LaysOut(x: Text, g: string, s: string, ts: seq<Token>, k: Text)
  {
    WellSpaced(k) && WellSpaced(x) && Render(x) == g + (s + Render(k)) && TokensOf(x) == ts + TokensOf(k)
  }

  /** One lexeme in front of a layout. */
  lemma ThenLaid(g: string, t: Token, x: Text, h: string, s: string, ts: seq<Token>, k: Text)
    requires Lexable(t) && AllWhitespace(g) && FollowedBy(t, x) && LaysOut(x, h, s, ts, k)
    ensures LaysOut(Then(g, t, x), g, Lexeme(t) + (h + s), [t] + ts, k)
  {
    TextAssoc(g, Lexeme(t), h, s, Render(k));
    TokenAssoc([t], ts, TokensOf(k));
  }

  lemma TextAssoc(g: string, a: string, h: string, s: string, r: string)
    ensures g + (a + (h + (s + r))) == g + ((a + (h + s)) + r)
  {
    assert a + (h + (s + r)) == (a + (h + s)) + r;
  }

  lemma TokenAssoc(a: seq<Token>, b: seq<Token>, c: seq<Token>)
    ensures a + (b + c) == (a + b) + c
  {
  }

  /** Two layouts, one in front of the other. */
  lemma Chain(x: Text, g: string, s1: string, t1: seq<Token>, y: Text, h: string, s2: string, t2: seq<Token>, k: Text)
    requires LaysOut(x, g, s1, t1, y) && LaysOut(y, h, s2, t2, k)
    ensures LaysOut(x, g, s1 + (h + s2), t1 + t2, k)
  {
    TextAssoc(g, s1, h, s2, Render(k));
    TokenAssoc(t1, t2, TokensOf(k));
  }

  /** A closing symbol, without a gap, in front of `k`. */
  lemma SymbolLaid(c: char, k: Text)
    requires WellSpaced(k) && Lexable(TokSymbol(c))
    ensures LaysOut(Then("", TokSymbol(c), k), "", [c], [TokSymbol(c)], k)
  {
    SymbolFollow(c, k);
  }

  lemma OperatorSpaced(op: char, right: Text)
    requires op in SymbolOpChars && WellSpaced(right)
    ensures WellSpaced(Then(" ", TokSymbol(op), right))
  {
    SymbolFollow(op, right);
  }

  lemma GroupSpelling(sl: string, op: char, sr: string)
    ensures "(" + ("" + (sl + (" " + ([op] + (" " + (sr + ("" + ")"))))))) == "(" + sl + " " + [op] + " " + sr + ")"
  {
  }

  lemma GroupTokenOrder(tl: seq<Token>, op: char, tr: seq<Token>, u: Ast)
    ensures [TokSymbol('(')] + (tl + ([TokSymbol(op)] + (tr + [TokSymbol(')')]))) == GroupTokens(tl, [Link(op, tr, u)])
  {
    assert LinkTokens([Link(op, tr, u)]) == [TokSymbol(op)] + (tr + LinkTokens([]));
  }

  /** The layout of an operator between two renderings, in parentheses. */
  lemma GroupLaid(g: string, op: char, sl: string, tl: seq<Token>, sr: string, tr: seq<Token>, u: Ast,
                  inner: Text, right: Text, k: Text)
    requires op in SymbolOpChars && AllWhitespace(g)
    requires LaysOut(right, " ", sr, tr, Then("", TokSymbol(')'), k))
    requires LaysOut(inner, "", sl, tl, Then(" ", TokSymbol(op), right))
    ensures LaysOut(Then(g, TokSymbol('('), inner), g, "(" + sl + " " + [op] + " " + sr + ")",
                    GroupTokens(tl, [Link(op, tr, u)]), k)
  {
    var close := Then("", TokSymbol(')'), k);
    SymbolLaid(')', k);
    Chain(right, " ", sr, tr, close, "", ")", [TokSymbol(')')], k);
    var opText := Then(" ", TokSymbol(op), right);
    SymbolFollow(op, right);
    ThenLaid(" ", TokSymbol(op), right, " ", sr + ("" + ")"), tr + [TokSymbol(')')], k);
    var s2 := [op] + (" " + (sr + ("" + ")")));
    var t2 := [TokSymbol(op)] + (tr + [TokSymbol(')')]);
    Chain(inner, "", sl, tl, opText, " ", s2, t2, k);
    SymbolFollow('(', inner);
    ThenLaid(g, TokSymbol('('), inner, "", sl + (" " + s2), tl + t2, k);
    GroupSpelling(sl, op, sr);
    GroupTokenOrder(tl, op, tr, u);
  }

  lemma CallSpelling(c: string, sa: string)
    ensures c + ("" + ("(" + ("" + (sa + ("" + ")"))))) == c + "(" + (sa + ")")
  {
  }

  lemma CallTokenOrder(c: string, ta: seq<Token>)
    ensures [TokIdentifier(c)] + ([TokSymbol('(')] + (ta + [TokSymbol(')')])) ==
            [TokIdentifier(c), TokSymbol('(')] + ta + [TokSymbol(')')]
  {
  }

  /** The layout of a name and a list in parentheses. */
  lemma CallLaid(g: string, c: string, sa: string, ta: seq<Token>, list: Text, k: Text)
    requires Lexable(TokIdentifier(c)) && AllWhitespace(g)
    requires LaysOut(list, "", sa, ta, Then("", TokSymbol(')'), k))
    ensures LaysOut(Then(g, TokIdentifier(c), Then("", TokSymbol('('), list)), g, c + "(" + (sa + ")"),
                    [TokIdentifier(c), TokSymbol('(')] + ta + [TokSymbol(')')], k)
  {
    var close := Then("", TokSymbol(')'), k);
    SymbolLaid(')', k);
    Chain(list, "", sa, ta, close, "", ")", [TokSymbol(')')], k);
    var open := Then("", TokSymbol('('), list);
    SymbolFollow('(', list);
    ThenLaid("", TokSymbol('('), list, "", sa + ("" + ")"), ta + [TokSymbol(')')], k);
    BreaksFollow(TokIdentifier(c), open);
    ThenLaid(g, TokIdentifier(c), open, "", "(" + ("" + (sa + ("" + ")"))), [TokSymbol('(')] + (ta + [TokSymbol(')')]), k);
    CallSpelling(c, sa);
    CallTokenOrder(c, ta);
  }

  lemma CommaSpaced(rest: Text)
    requires WellSpaced(rest)
    ensures WellSpaced(Then("", TokSymbol(','), rest)) && Breaks(Then("", TokSymbol(','), rest))
  {
    SymbolFollow(',', rest);
  }

  lemma ListSpelling(s0: string, sj: string)
    ensures s0 + ("" + ("," + (" " + sj))) == s0 + ", " + sj
  {
  }

  /** The layout of a first item, a comma and the rest of a list. */
  lemma ListLaid(x: Text, g: string, s0: string, t0: seq<Token>, rest: Text, sj: string, tj: seq<Token>, k: Text)
    requires LaysOut(rest, " ", sj, tj, k) && LaysOut(x, g, s0, t0, Then("", TokSymbol(','), rest))
    ensures LaysOut(x, g, s0 + ", " + sj, t0 + ([TokSymbol(',')] + tj), k)
  {
    var comma := Then("", TokSymbol(','), rest);
    SymbolFollow(',', rest);
    ThenLaid("", TokSymbol(','), rest, " ", sj, tj, k);
    Chain(x, g, s0, t0, comma, "", "," + (" " + sj), [TokSymbol(',')] + tj, k);
    ListSpelling(s0, sj);
  }

  /** The rendering of `e` after the whitespace `g`, in front of `k`. */
  function DisplayText(g: string, e: Ast, k: Text): Text
    decreases e, 1
  {
    match e
    case NumberExpr(n) => Then(g, TokNumber(n), k)
    case VariableExpr(n) => Then(g, TokIdentifier(n), k)
    case BinaryExpr(op, l, r) =>
      Then(g, TokSymbol('('),
        DisplayText("", l, Then(" ", TokSymbol(op), DisplayText(" ", r, Then("", TokSymbol(')'), k)))))
    case CallExpr(c, args) =>
      Then(g, TokIdentifier(c), Then("", TokSymbol('('), ArgsText("", args, Then("", TokSymbol(')'), k))))
    case _ => k
  }

  /** The renderings of `args` separated by `", "`, the first after `g`. */
  function ArgsText(g: string, args: seq<Ast>, k: Text): Text
    decreases args, 0
  {
    if |args| == 0 then k
    else if |args| == 1 then DisplayText(g, args[0], k)
    else DisplayText(g, args[0], Then("", TokSymbol(','), ArgsText(" ", args[1..], k)))
  }

  /** The names `params` separated by `", "`, the first after `g`. */
  function ParamsText(g: string, params: seq<string>, k: Text): Text
    decreases params
  {
    if |params| == 0 then k
    else if |params| == 1 then Then(g, TokIdentifier(params[0]), k)
    else Then(g, TokIdentifier(params[0]), Then("", TokSymbol(','), ParamsText(" ", params[1..], k)))
  }

  /** The layout of a readable expression spells its rendering and holds its
      tokens. */
  lemma {:induction false} DisplayLaid(g: string, e: Ast, k: Text)
    requires Readable(e) && AllWhitespace(g) && WellSpaced(k) && Breaks(k)
    ensures LaysOut(DisplayText(g, e, k), g, Syntax.Display(e), DisplayTokens(e), k)
    decreases e, 1
  {
    match e
    case NumberExpr(n) =>
      BreaksFollow(TokNumber(n), k);
    case VariableExpr(n) =>
      BreaksFollow(TokIdentifier(n), k);
    case BinaryExpr(op, l, r) =>
      var close := Then("", TokSymbol(')'), k);
      SymbolFollow(')', k);
      DisplayLaid(" ", r, close);
      var right := DisplayText(" ", r, close);
      var opText := Then(" ", TokSymbol(op), right);
      OperatorSpaced(op, right);
      DisplayLaid("", l, opText);
      GroupLaid(g, op, Syntax.Display(l), DisplayTokens(l), Syntax.Display(r), DisplayTokens(r), r,
                DisplayText("", l, opText), right, k);
    case CallExpr(c, args) =>
      var close := Then("", TokSymbol(')'), k);
      SymbolFollow(')', k);
      ArgsLaid("", args, close);
      CallLaid(g, c, Join(DisplayAll(args)), ArgTokens(Arguments(args)), ArgsText("", args, close), k);
  }

  /** The layout of readable arguments spells their joined renderings and
      holds their tokens with commas between them. */
  lemma {:induction false} ArgsLaid(g: string, args: seq<Ast>, k: Text)
    requires |args| > 0 && (forall i :: 0 <= i < |args| ==> Readable(args[i]))
    requires AllWhitespace(g) && WellSpaced(k) && Breaks(k)
    ensures LaysOut(ArgsText(g, args, k), g, Join(DisplayAll(args)), ArgTokens(Arguments(args)), k)
    decreases args, 0
  {
    if |args| == 1 {
      DisplayLaid(g, args[0], k);
      assert DisplayAll(args) == [Syntax.Display(args[0])];
    } else {
      assert forall i :: 0 <= i < |args| - 1 ==> args[1..][i] == args[i + 1];
      ArgsLaid(" ", args[1..], k);
      var rest := ArgsText(" ", args[1..], k);
      CommaSpaced(rest);
      DisplayLaid(g, args[0], Then("", TokSymbol(','), rest));
      ArgsStep(g, args, k);
    }
  }

  /** The first of several arguments, a comma, and the layout of the rest. */
  lemma ArgsStep(g: string, args: seq<Ast>, k: Text)
    requires |args| > 1
    requires LaysOut(ArgsText(" ", args[1..], k), " ", Join(DisplayAll(args[1..])), ArgTokens(Arguments(args[1..])), k)
    requires LaysOut(DisplayText(g, args[0], Then("", TokSymbol(','), ArgsText(" ", args[1..], k))), g,
                     Syntax.Display(args[0]), DisplayTokens(args[0]), Then("", TokSymbol(','), ArgsText(" ", args[1..], k)))
    ensures LaysOut(ArgsText(g, args, k), g, Join(DisplayAll(args)), ArgTokens(Arguments(args)), k)
  {
    var rest := ArgsText(" ", args[1..], k);
    ListLaid(DisplayText(g, args[0], Then("", TokSymbol(','), rest)), g,
             Syntax.Display(args[0]), DisplayTokens(args[0]),
             rest, Join(DisplayAll(args[1..])), ArgTokens(Arguments(args[1..])), k);
    assert DisplayAll(args) == [Syntax.Display(args[0])] + DisplayAll(args[1..]);
    JoinCons(Syntax.Display(args[0]), DisplayAll(args[1..]));
    assert Arguments(args)[1..] == Arguments(args[1..]);
  }

  /** The layout of a parameter list spells the joined names and holds the
      names' tokens with commas between them. */
  lemma {:induction false} ParamsLaid(g: string, params: seq<string>, k: Text)
    requires Names(params) && (|params| > 0 || g == "")
    requires AllWhitespace(g) && WellSpaced(k) && Breaks(k)
    ensures LaysOut(ParamsText(g, params, k), g, Join(params), ParamTokens(params), k)
    decreases params
  {
    if |params| == 0 {
      assert g + (Join(params) + Render(k)) == Render(k);
    } else if |params| == 1 {
      BreaksFollow(TokIdentifier(params[0]), k);
    } else {
      assert forall i :: 0 <= i < |params| - 1 ==> params[1..][i] == params[i + 1];
      ParamsLaid(" ", params[1..], k);
      ParamsStep(g, params, k);
    }
  }

  /** A name and what follows it. */
  lemma NameLaid(g: string, n: string, k: Text)
    requires Lexable(TokIdentifier(n)) && AllWhitespace(g) && WellSpaced(k) && Breaks(k)
    ensures LaysOut(Then(g, TokIdentifier(n), k), g, n, [TokIdentifier(n)], k)
  {
    BreaksFollow(TokIdentifier(n), k);
  }

  /** The first of several names, a comma, and the layout of the rest. */
  lemma ParamsStep(g: string, params: seq<string>, k: Text)
    requires |params| > 1 && Lexable(TokIdentifier(params[0])) && AllWhitespace(g)
    requires LaysOut(ParamsText(" ", params[1..], k), " ", Join(params[1..]), ParamTokens(params[1..]), k)
    ensures LaysOut(ParamsText(g, params, k), g, Join(params), ParamTokens(params), k)
  {
    var rest := ParamsText(" ", params[1..], k);
    CommaSpaced(rest);
    var comma := Then("", TokSymbol(','), rest);
    NameLaid(g, params[0], comma);
    ListLaid(Then(g, TokIdentifier(params[0]), comma), g, params[0], [TokIdentifier(params[0])],
             rest, Join(params[1..]), ParamTokens(params[1..]), k);
    ParamsJoin(params);
    assert ParamsText(g, params, k) == Then(g, TokIdentifier(params[0]), comma);
  }

  /** The names and tokens of several parameters, split after the first. */
  lemma ParamsJoin(params: seq<string>)
    requires |params| > 1
    ensures Join(params) == params[0] + ", " + Join(params[1..])
    ensures ParamTokens(params) == [TokIdentifier(params[0])] + ([TokSymbol(',')] + ParamTokens(params[1..]))
  {
    JoinFront(params);
    ParamTokensFront(params);
  }

  lemma JoinFront(items: seq<string>)
    requires |items| > 1
    ensures Join(items) == items[0] + ", " + Join(items[1..])
  {
    assert items == [items[0]] + items[1..];
    JoinCons(items[0], items[1..]);
  }

  lemma ParamTokensFront(params: seq<string>)
    requires |params| > 1
    ensures ParamTokens(params) == [TokIdentifier(params[0])] + ([TokSymbol(',')] + ParamTokens(params[1..]))
  {
    assert [TokIdentifier(params[0]), TokSymbol(',')] == [TokIdentifier(params[0])] + [TokSymbol(',')];
    TokenAssoc([TokIdentifier(params[0])], [TokSymbol(',')], ParamTokens(params[1..]));
  }

  // Reading renderings back.

  /** Whatever a layout spells lexes to the tokens it holds. */
  lemma LexesAs(x: Text, s: string, ts: seq<Token>, w: string, text: string)
    requires LaysOut(x, "", s, ts, End(w)) && text == s + w
    ensures WellLexed(text) && Tokenize(text) == ts + [TokEof]
  {
    TokenizeLayout(x);
    assert Render(x) == text;
    assert TokensOf(x) == ts;
  }

  /** A readable expression is an expression that stops at the end of input. */
  lemma ExpressionReadsBack(e: Ast)
    requires Readable(e)
    ensures IsStream(DisplayTokens(e) + [TokEof])
    ensures AbstractExpression(DisplayTokens(e) + [TokEof]) == Step(Ok(e), [TokEof])
  {
    DisplayTokensUnit(e);
    UnitExpression(DisplayTokens(e), e, [TokEof]);
    OpAndRhsStop(e, 0, [TokEof]);
  }

  /** Lexing and parsing the rendering of a readable expression gives the
      expression back, and nothing but the end of input is left. */
  lemma DisplayReadsBack(e: Ast)
    requires Readable(e)
    ensures WellLexed(Syntax.Display(e))
    ensures NextAst(Tokenize(Syntax.Display(e))) == Step(Ok(e), [TokEof])
  {
    DisplayLaid("", e, End(""));
    assert Syntax.Display(e) + "" == Syntax.Display(e);
    LexesAs(DisplayText("", e, End("")), Syntax.Display(e), DisplayTokens(e), "", Syntax.Display(e));
    ExpressionReadsBack(e);
    DisplayTokensStart(e);
    ExpressionStatement(DisplayTokens(e) + [TokEof]);
  }

  /** The layout of a prototype's name and parameters, in front of `k`. */
  lemma PrototypeLaid(g: string, name: string, params: seq<string>, k: Text)
    requires Lexable(TokIdentifier(name)) && Names(params) && AllWhitespace(g) && WellSpaced(k)
    ensures LaysOut(Then(g, TokIdentifier(name), Then("", TokSymbol('('),
                      ParamsText("", params, Then("", TokSymbol(')'), k)))),
                    g, Syntax.Display(Prototype(name, params)), PrototypeTokens(name, params), k)
  {
    var close := Then("", TokSymbol(')'), k);
    SymbolFollow(')', k);
    ParamsLaid("", params, close);
    CallLaid(g, name, Join(params), ParamTokens(params), ParamsText("", params, close), k);
    PrototypeSpelling(name, params);
  }

  lemma PrototypeSpelling(name: string, params: seq<string>)
    ensures Syntax.Display(Prototype(name, params)) == name + "(" + (Join(params) + ")")
    ensures PrototypeTokens(name, params) == [TokIdentifier(name), TokSymbol('(')] + ParamTokens(params) + [TokSymbol(')')]
  {
  }

  /** A keyword in front of a gap. */
  lemma KeywordLaid(t: Token, y: Text, s: string, ts: seq<Token>, k: Text)
    requires t == TokDef || t == TokExtern
    requires y.Then? && y.gap == " " && LaysOut(y, " ", s, ts, k)
    ensures LaysOut(Then("", t, y), "", Lexeme(t) + (" " + s), [t] + ts, k)
  {
    BreaksFollow(t, y);
    ThenLaid("", t, y, " ", s, ts, k);
  }

  /** `def` or `extern`, then a prototype, in front of `k`. */
  function HeaderText(t: Token, name: string, params: seq<string>, k: Text): Text
  {
    Then("", t, Then(" ", TokIdentifier(name), Then("", TokSymbol('('),
      ParamsText("", params, Then("", TokSymbol(')'), k)))))
  }

  /** The layout of a keyword and a prototype. */
  lemma HeaderLaid(t: Token, name: string, params: seq<string>, k: Text)
    requires t == TokDef || t == TokExtern
    requires Lexable(TokIdentifier(name)) && Names(params) && WellSpaced(k)
    ensures LaysOut(HeaderText(t, name, params, k), "", Lexeme(t) + (" " + Syntax.Display(Prototype(name, params))),
                    [t] + PrototypeTokens(name, params), k)
  {
    PrototypeLaid(" ", name, params, k);
    var y := Then(" ", TokIdentifier(name), Then("", TokSymbol('('),
               ParamsText("", params, Then("", TokSymbol(')'), k))));
    KeywordLaid(t, y, Syntax.Display(Prototype(name, params)), PrototypeTokens(name, params), k);
  }

  /** `extern` and the rendering of a prototype lex to `extern` and the
      prototype's tokens. */
  lemma ExternLexes(name: string, params: seq<string>)
    requires Lexable(TokIdentifier(name)) && Names(params)
    ensures WellLexed(Source(Prototype(name, params)))
    ensures Tokenize(Source(Prototype(name, params))) == [TokExtern] + PrototypeTokens(name, params) + [TokEof]
  {
    var sp := Syntax.Display(Prototype(name, params));
    HeaderLaid(TokExtern, name, params, End(""));
    ExternSpelling(sp);
    LexesAs(HeaderText(TokExtern, name, params, End("")), Lexeme(TokExtern) + (" " + sp),
            [TokExtern] + PrototypeTokens(name, params), "", Source(Prototype(name, params)));
  }

  lemma ExternSpelling(sp: string)
    ensures Lexeme(TokExtern) + (" " + sp) + "" == "extern " + sp
  {
  }

  /** Lexing and parsing `extern` and the rendering of a prototype gives the
      prototype back. */
  lemma ExternReadsBack(name: string, params: seq<string>)
    requires Lexable(TokIdentifier(name)) && Names(params)
    ensures WellLexed(Source(Prototype(name, params)))
    ensures NextAst(Tokenize(Source(Prototype(name, params)))) == Step(Ok(Prototype(name, params)), [TokEof])
  {
    var tp := PrototypeTokens(name, params);
    ExternLexes(name, params);
    TokenAssoc([TokExtern], tp, [TokEof]);
    ExternParses(name, params, [TokEof]);
    ReadsAs(Source(Prototype(name, params)), [TokExtern] + (tp + [TokEof]), Step(Ok(Prototype(name, params)), [TokEof]));
  }

  /** Text that lexes to `ts` parses as `ts` does. */
  lemma ReadsAs(text: string, ts: seq<Token>, r: Step<Ast>)
    requires IsStream(ts) && WellLexed(text) && Tokenize(text) == ts && NextAst(ts) == r
    ensures WellLexed(text) && NextAst(Tokenize(text)) == r
  {
  }

  lemma DefinitionSpelling(sp: string, sb: string)
    ensures Lexeme(TokDef) + (" " + sp) + ("\n" + sb) + "\n" == "def " + (sp + "\n" + sb + "\n")
  {
  }

  /** The body of a function, on a line of its own. */
  lemma BodyLaid(body: Ast)
    requires Readable(body)
    ensures LaysOut(DisplayText("\n", body, End("\n")), "\n", Syntax.Display(body), DisplayTokens(body), End("\n"))
  {
    assert AllWhitespace("\n");
    DisplayLaid("\n", body, End("\n"));
  }

  /** `def` and the rendering of a function lex to `def`, the prototype's
      tokens and the body's tokens. */
  lemma DefinitionLexes(name: string, params: seq<string>, body: Ast)
    requires Lexable(TokIdentifier(name)) && Names(params) && Readable(body)
    ensures WellLexed(Source(Function(Prototype(name, params), body)))
    ensures Tokenize(Source(Function(Prototype(name, params), body))) ==
            [TokDef] + PrototypeTokens(name, params) + DisplayTokens(body) + [TokEof]
  {
    var sp, tp := Syntax.Display(Prototype(name, params)), PrototypeTokens(name, params);
    var sb, tb := Syntax.Display(body), DisplayTokens(body);
    BodyLaid(body);
    var bodyText := DisplayText("\n", body, End("\n"));
    HeaderLaid(TokDef, name, params, bodyText);
    var x := HeaderText(TokDef, name, params, bodyText);
    Chain(x, "", Lexeme(TokDef) + (" " + sp), [TokDef] + tp, bodyText, "\n", sb, tb, End("\n"));
    DefinitionSpelling(sp, sb);
    DefinitionSource(name, params, body);
    LexesAs(x, Lexeme(TokDef) + (" " + sp) + ("\n" + sb), [TokDef] + tp + tb, "\n",
            Source(Function(Prototype(name, params), body)));
  }

  lemma DefinitionSource(name: string, params: seq<string>, body: Ast)
    ensures Source(Function(Prototype(name, params), body)) ==
            "def " + (Syntax.Display(Prototype(name, params)) + "\n" + Syntax.Display(body) + "\n")
  {
  }

  lemma TokensRegroup(a: seq<Token>, b: seq<Token>, c: seq<Token>, d: seq<Token>)
    ensures a + b + c + d == a + (b + (c + d))
  {
  }

  /** Lexing and parsing `def` and the rendering of a function gives the
      function back. */
  lemma DefinitionReadsBack(name: string, params: seq<string>, body: Ast)
    requires Lexable(TokIdentifier(name)) && Names(params) && Readable(body)
    ensures WellLexed(Source(Function(Prototype(name, params), body)))
    ensures NextAst(Tokenize(Source(Function(Prototype(name, params), body)))) ==
            Step(Ok(Function(Prototype(name, params), body)), [TokEof])
  {
    var tp, tb := PrototypeTokens(name, params), DisplayTokens(body);
    DefinitionLexes(name, params, body);
    TokensRegroup([TokDef], tp, tb, [TokEof]);
    ExpressionReadsBack(body);
    DefinitionParses(name, params, tb + [TokEof], body, [TokEof]);
    ReadsAs(Source(Function(Prototype(name, params), body)), [TokDef] + (tp + (tb + [TokEof])),
            Step(Ok(Function(Prototype(name, params), body)), [TokEof]));
  }

  /** The source text of every readable statement lexes and parses back to
      that statement, and nothing but the end of input is left. */
  lemma SourceReadsBack(s: Ast)
    requires ReadableStatement(s)
    ensures WellLexed(Source(s))
    ensures NextAst(Tokenize(Source(s))) == Step(Ok(s), [TokEof])
  {
    match s
    case Prototype(name, params) =>
      ExternReadsBack(name, params);
    case Function(p, b) =>
      DefinitionReadsBack(p.name, p.params, b);
    case _ =>
      DisplayReadsBack(s);
  }
}
