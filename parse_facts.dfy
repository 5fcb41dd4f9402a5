/** What the parser does on the shapes of input that the language is made of:
    prototype parameter lists, call argument lists, definitions and externs,
    and the ways each of them fails. */
module ParseFacts {
  import opened Vocabulary
  import opened Tokens
  import opened Lexing
  import opened Syntax
  import opened ParseSpec
  import opened Climbing
  import opened Grouping

  /** Parameter names separated by commas. */
  function ParamTokens(params: seq<string>): (ts: seq<Token>)
  {
    if |params| == 0 then []
    else if |params| == 1 then [TokIdentifier(params[0])]
    else [TokIdentifier(params[0]), TokSymbol(',')] + ParamTokens(params[1..])
  }

  /** A prototype with the given name and parameters, as tokens. */
  function PrototypeTokens(name: string, params: seq<string>): seq<Token>
  {
    [TokIdentifier(name), TokSymbol('(')] + ParamTokens(params) + [TokSymbol(')')]
  }

  lemma ParamsStream(params: seq<string>, tail: seq<Token>)
    requires IsStream(tail)
    ensures IsStream(ParamTokens(params) + tail)
  {
  }

  /** A name followed by a comma is taken, and the loop goes on after the
      comma. */
  lemma ParamThenComma(p: string, more: seq<Token>, args: seq<string>)
    requires IsStream(more)
    ensures IsStream([TokIdentifier(p), TokSymbol(',')] + more)
    ensures PrototypeParams([TokIdentifier(p), TokSymbol(',')] + more, args) == PrototypeParams(more, args + [p])
  {
    var ts := [TokIdentifier(p), TokSymbol(',')] + more;
    assert StreamPop(ts) == [TokSymbol(',')] + more;
    assert StreamPop(StreamPop(ts)) == more;
    ParamsTake(ts, args);
  }

  /** A name followed by anything but a comma is the last one taken. */
  lemma ParamLast(p: string, tail: seq<Token>, args: seq<string>)
    requires IsStream(tail) && tail[0] != TokSymbol(',')
    ensures IsStream([TokIdentifier(p)] + tail)
    ensures PrototypeParams([TokIdentifier(p)] + tail, args) == (args + [p], tail)
  {
    var ts := [TokIdentifier(p)] + tail;
    assert StreamPop(ts) == tail;
    ParamsTake(ts, args);
  }

  /** Popping two tokens that are not the end of input. */
  lemma PopTwo(a: Token, b: Token, s: seq<Token>)
    requires IsStream(s) && a != TokEof && b != TokEof
    ensures IsStream([a, b] + s) && IsStream([b] + s)
    ensures StreamPop([a, b] + s) == [b] + s && StreamPop([b] + s) == s
  {
    assert ([a, b] + s)[1..] == [b] + s;
  }

  /** Popping one token that is not the end of input. */
  lemma PopOne(a: Token, s: seq<Token>)
    requires IsStream(s) && a != TokEof
    ensures IsStream([a] + s) && StreamPop([a] + s) == s
  {
    assert ([a] + s)[1..] == s;
  }

  lemma NamesCons(args: seq<string>, params: seq<string>)
    requires |params| > 0
    ensures args + [params[0]] + params[1..] == args + params
  {
    assert params == [params[0]] + params[1..];
  }

  /** The parameter loop collects the names in order and stops in front of
      the first token that is neither a name nor a comma after a name. */
  lemma {:induction false} ParamsInOrder(params: seq<string>, args: seq<string>, tail: seq<Token>)
    requires IsStream(tail) && !tail[0].TokIdentifier? && tail[0] != TokSymbol(',')
    ensures IsStream(ParamTokens(params) + tail)
    ensures PrototypeParams(ParamTokens(params) + tail, args) == (args + params, tail)
    decreases |params|
  {
    if |params| == 0 {
      assert ParamTokens(params) + tail == tail;
      assert args + params == args;
      ParamsStop(tail, args);
    } else if |params| == 1 {
      assert ParamTokens(params) == [TokIdentifier(params[0])];
      assert args + params == args + [params[0]];
      ParamLast(params[0], tail, args);
    } else {
      ParamsInOrder(params[1..], args + [params[0]], tail);
      ParamsMore(params, args, tail, tail);
    }
  }

  lemma ParamTokensCons(params: seq<string>, tail: seq<Token>)
    requires |params| > 1
    ensures ParamTokens(params) + tail == [TokIdentifier(params[0]), TokSymbol(',')] + (ParamTokens(params[1..]) + tail)
  {
  }

  /** The inductive step of the parameter loop: a name and a comma in front
      of a list that the loop reads up to `stop`. */
  lemma ParamsMore(params: seq<string>, args: seq<string>, tail: seq<Token>, stop: seq<Token>)
    requires IsStream(tail) && |params| > 1
    requires IsStream(ParamTokens(params[1..]) + tail)
    requires PrototypeParams(ParamTokens(params[1..]) + tail, args + [params[0]]) == (args + [params[0]] + params[1..], stop)
    ensures IsStream(ParamTokens(params) + tail)
    ensures PrototypeParams(ParamTokens(params) + tail, args) == (args + params, stop)
  {
    var more := ParamTokens(params[1..]) + tail;
    ParamTokensCons(params, tail);
    ParamThenComma(params[0], more, args);
    NamesCons(args, params);
  }

  lemma PrototypeSplit(name: string, params: seq<string>, rest: seq<Token>)
    ensures PrototypeTokens(name, params) + rest ==
            [TokIdentifier(name), TokSymbol('(')] + (ParamTokens(params) + ([TokSymbol(')')] + rest))
  {
  }

  /** Once the parameter loop stops at `atClose`, a prototype is complete
      exactly when the loop stopped at `)`. */
  lemma PrototypeStep(name: string, atParams: seq<Token>, params: seq<string>, atClose: seq<Token>)
    requires IsStream(atParams) && IsStream(atClose) && PrototypeParams(atParams, []) == (params, atClose)
    ensures IsStream([TokIdentifier(name), TokSymbol('(')] + atParams)
    ensures PrototypeOf([TokIdentifier(name), TokSymbol('(')] + atParams) ==
              if atClose[0] != TokSymbol(')') then Step(Err(PrototypeMissingClose), StreamPop(atClose))
              else Step(Ok(Prototype(name, params)), StreamPop(atClose))
  {
    PopTwo(TokIdentifier(name), TokSymbol('('), atParams);
    AfterOpenDone(name, atParams, params, atClose);
  }

  /** A well-formed prototype yields its name and its parameters in order,
      and consumes exactly its tokens. */
  lemma PrototypeParses(name: string, params: seq<string>, rest: seq<Token>)
    requires IsStream(rest)
    ensures IsStream(PrototypeTokens(name, params) + rest)
    ensures PrototypeOf(PrototypeTokens(name, params) + rest) == Step(Ok(Prototype(name, params)), rest)
  {
    var close := [TokSymbol(')')] + rest;
    ParamsInOrder(params, [], close);
    PrototypeSplit(name, params, rest);
    PopOne(TokSymbol(')'), rest);
    PrototypeStep(name, ParamTokens(params) + close, params, close);
  }

  /** A comma after the last parameter is accepted and changes nothing. */
  lemma TrailingCommaAccepted(name: string, params: seq<string>, rest: seq<Token>)
    requires IsStream(rest) && |params| > 0
    ensures var ts := [TokIdentifier(name), TokSymbol('(')] + (ParamTokens(params) + ([TokSymbol(',')] + ([TokSymbol(')')] + rest)));
            IsStream(ts) && PrototypeOf(ts) == Step(Ok(Prototype(name, params)), rest)
  {
    var close := [TokSymbol(')')] + rest;
    ParamsWithComma(params, [], close);
    assert [] + params == params;
    PopOne(TokSymbol(')'), rest);
    PrototypeStep(name, ParamTokens(params) + ([TokSymbol(',')] + close), params, close);
  }

  /** A name, a comma and a token that is neither: the loop takes the name,
      passes the comma and stops. */
  lemma ParamCommaLast(p: string, tail: seq<Token>, args: seq<string>)
    requires IsStream(tail) && !tail[0].TokIdentifier?
    ensures IsStream([TokIdentifier(p)] + ([TokSymbol(',')] + tail))
    ensures PrototypeParams([TokIdentifier(p)] + ([TokSymbol(',')] + tail), args) == (args + [p], tail)
  {
    assert [TokIdentifier(p)] + ([TokSymbol(',')] + tail) == [TokIdentifier(p), TokSymbol(',')] + tail;
    ParamThenComma(p, tail, args);
    ParamsStop(tail, args + [p]);
  }

  /** With a comma after the last name, the loop passes the comma and stops
      at the token after it. */
  lemma {:induction false} ParamsWithComma(params: seq<string>, args: seq<string>, tail: seq<Token>)
    requires IsStream(tail) && !tail[0].TokIdentifier? && tail[0] != TokSymbol(',') && |params| > 0
    ensures IsStream(ParamTokens(params) + ([TokSymbol(',')] + tail))
    ensures PrototypeParams(ParamTokens(params) + ([TokSymbol(',')] + tail), args) == (args + params, tail)
    decreases |params|
  {
    if |params| == 1 {
      assert ParamTokens(params) == [TokIdentifier(params[0])];
      assert args + params == args + [params[0]];
      ParamCommaLast(params[0], tail, args);
    } else {
      ParamsWithComma(params[1..], args + [params[0]], tail);
      ParamsMore(params, args, [TokSymbol(',')] + tail, tail);
    }
  }

  /** A prototype must start with a name. */
  lemma NotPrototypeRejected(ts: seq<Token>)
    requires IsStream(ts) && !ts[0].TokIdentifier?
    ensures PrototypeOf(ts) == Step(Err(NotAPrototype), StreamPop(ts))
  {
  }

  /** The name must be followed by `(`; both tokens are consumed. */
  lemma MissingOpenRejected(name: string, t: Token, rest: seq<Token>)
    requires IsStream(rest) && t != TokSymbol('(') && t != TokEof
    ensures IsStream([TokIdentifier(name), t] + rest)
    ensures PrototypeOf([TokIdentifier(name), t] + rest) == Step(Err(PrototypeMissingOpen), rest)
  {
    var ts := [TokIdentifier(name), t] + rest;
    assert StreamPop(ts) == [t] + rest;
    assert StreamPop(StreamPop(ts)) == rest;
  }

  /** After the parameters, anything but `)` is an error, and that token is
      consumed. */
  lemma MissingCloseRejected(name: string, params: seq<string>, t: Token, rest: seq<Token>)
    requires IsStream(rest) && !t.TokIdentifier? && t != TokSymbol(',') && t != TokSymbol(')') && t != TokEof
    ensures var ts := [TokIdentifier(name), TokSymbol('(')] + (ParamTokens(params) + ([t] + rest));
            IsStream(ts) && PrototypeOf(ts) == Step(Err(PrototypeMissingClose), rest)
  {
    var close := [t] + rest;
    ParamsInOrder(params, [], close);
    assert [] + params == params;
    PopOne(t, rest);
    PrototypeStep(name, ParamTokens(params) + close, params, close);
  }

  lemma DropHead(t: Token, s: seq<Token>)
    ensures ([t] + s)[1..] == s
  {
  }

  /** A statement that starts with neither `def`, `extern` nor the end of
      input is an expression. */
  lemma ExpressionStatement(ts: seq<Token>)
    requires IsStream(ts) && ts[0] != TokEof && ts[0] != TokDef && ts[0] != TokExtern
    ensures NextAst(ts) == AbstractExpression(ts)
  {
  }

  /** `extern` is skipped and the prototype after it is the statement. */
  lemma ExternStep(ts: seq<Token>)
    requires IsStream(ts) && ts[0] == TokExtern
    ensures NextAst(ts) == PrototypeOf(ts[1..])
  {
    assert NextAst(ts) == ExternPrototype(ts);
  }

  /** `extern` and a prototype: the prototype. */
  lemma ExternParses(name: string, params: seq<string>, rest: seq<Token>)
    requires IsStream(rest)
    ensures IsStream([TokExtern] + (PrototypeTokens(name, params) + rest))
    ensures NextAst([TokExtern] + (PrototypeTokens(name, params) + rest)) == Step(Ok(Prototype(name, params)), rest)
  {
    PrototypeParses(name, params, rest);
    var ts := [TokExtern] + (PrototypeTokens(name, params) + rest);
    DropHead(TokExtern, PrototypeTokens(name, params) + rest);
    ExternStep(ts);
  }

  /** `def` is skipped; a prototype and a body expression after it make the
      function definition. */
  lemma DefinitionStep(ts: seq<Token>, p: Ast, body: seq<Token>, e: Ast, rest: seq<Token>)
    requires IsStream(ts) && ts[0] == TokDef
    requires PrototypeOf(ts[1..]) == Step(Ok(p), body)
    requires IsStream(body) && AbstractExpression(body) == Step(Ok(e), rest)
    ensures NextAst(ts) == Step(Ok(Function(p, e)), rest)
  {
    assert NextAst(ts) == FunctionDefinition(ts);
  }

  /** `def`, a prototype and a body expression: the function with that
      prototype and body. */
  lemma DefinitionParses(name: string, params: seq<string>, body: seq<Token>, e: Ast, rest: seq<Token>)
    requires IsStream(body) && AbstractExpression(body) == Step(Ok(e), rest)
    ensures IsStream([TokDef] + (PrototypeTokens(name, params) + body))
    ensures NextAst([TokDef] + (PrototypeTokens(name, params) + body)) ==
            Step(Ok(Function(Prototype(name, params), e)), rest)
  {
    PrototypeParses(name, params, body);
    var ts := [TokDef] + (PrototypeTokens(name, params) + body);
    DropHead(TokDef, PrototypeTokens(name, params) + body);
    DefinitionStep(ts, Prototype(name, params), body, e, rest);
  }

  /** The tokens of one call argument and the tree they parse to. */
  datatype Argument = Argument(tokens: seq<Token>, tree: Ast)

  /** Tokens that parse as the expression `tree`, consuming exactly them,
      whatever stream starting with `,` or `)` comes after them. */
  ghost predicate IsArgument(a: Argument)
  {
    forall rest {:trigger AbstractExpression(a.tokens + rest)} :: IsStream(rest) && (rest[0] == TokSymbol(',') || rest[0] == TokSymbol(')')) ==>
      AbstractExpression(a.tokens + rest) == Step(Ok(a.tree), rest)
  }

  ghost predicate IsArguments(arguments: seq<Argument>)
  {
    |arguments| == 0 || (IsArgument(arguments[0]) && IsArguments(arguments[1..]))
  }

  /** Arguments separated by commas. */
  function ArgTokens(arguments: seq<Argument>): seq<Token>
  {
    if |arguments| == 0 then []
    else if |arguments| == 1 then arguments[0].tokens
    else arguments[0].tokens + ([TokSymbol(',')] + ArgTokens(arguments[1..]))
  }

  function Trees(arguments: seq<Argument>): (es: seq<Ast>)
    ensures |es| == |arguments|
  {
    if |arguments| == 0 then [] else [arguments[0].tree] + Trees(arguments[1..])
  }

  lemma ArgumentStep(a: Argument, rest: seq<Token>)
    requires IsArgument(a) && IsStream(rest) && (rest[0] == TokSymbol(',') || rest[0] == TokSymbol(')'))
    ensures IsStream(a.tokens + rest) && AbstractExpression(a.tokens + rest) == Step(Ok(a.tree), rest)
  {
  }

  /** An argument is not empty and does not start with `)`, since neither
      an empty argument nor `)` parses as an expression. */
  lemma ArgumentStart(a: Argument)
    requires IsArgument(a)
    ensures |a.tokens| > 0 && a.tokens[0] != TokSymbol(')')
  {
    var rest := [TokSymbol(')'), TokEof];
    var ts := a.tokens + rest;
    ArgumentStep(a, rest);
    if |a.tokens| == 0 || a.tokens[0] == TokSymbol(')') {
      assert ts[0] == TokSymbol(')');
      NotPrimaryRejected(ts);
    }
  }

  /** A number or a name is an argument of its own. */
  lemma AtomIsArgument(atom: Token)
    requires IsAtom(atom)
    ensures IsArgument(Argument([atom], AtomExpr(atom)))
  {
    forall rest | IsStream(rest) && (rest[0] == TokSymbol(',') || rest[0] == TokSymbol(')'))
      ensures AbstractExpression([atom] + rest) == Step(Ok(AtomExpr(atom)), rest)
    {
      assert GetTokenPrecedence(rest[0]) == -1;
      OpAndRhsStop(AtomExpr(atom), 0, rest);
      AtomExpression(atom, rest);
    }
  }

  /** A unit and its operator-unit pairs are an argument: the well-grouped
      tree over them. */
  lemma ExpressionIsArgument(seg: seq<Token>, u: Ast, links: seq<Link>, e: Shape)
    requires GroupsUnits(e, seg, u, links)
    ensures IsArgument(Argument(seg + LinkTokens(links), Tree(e)))
  {
    forall rest | IsStream(rest) && (rest[0] == TokSymbol(',') || rest[0] == TokSymbol(')'))
      ensures AbstractExpression(seg + LinkTokens(links) + rest) == Step(Ok(Tree(e)), rest)
    {
      ExpressionBeforeSeparator(seg, u, links, e, rest);
    }
  }

  lemma ExpressionBeforeSeparator(seg: seq<Token>, u: Ast, links: seq<Link>, e: Shape, rest: seq<Token>)
    requires GroupsUnits(e, seg, u, links)
    requires IsStream(rest) && (rest[0] == TokSymbol(',') || rest[0] == TokSymbol(')'))
    ensures IsStream(seg + LinkTokens(links) + rest)
    ensures AbstractExpression(seg + LinkTokens(links) + rest) == Step(Ok(Tree(e)), rest)
  {
    SeparatorIsTail(rest);
    ClimbingParse(seg, u, links, rest, e);
    Regroup(seg, LinkTokens(links), rest);
  }

  /** `,` and `)` end an expression. */
  lemma SeparatorIsTail(rest: seq<Token>)
    requires IsStream(rest) && (rest[0] == TokSymbol(',') || rest[0] == TokSymbol(')'))
    ensures IsTail(rest)
  {
  }

  lemma Regroup(a: seq<Token>, b: seq<Token>, c: seq<Token>)
    ensures a + b + c == a + (b + c)
  {
  }

  /** An argument and a comma: the argument is taken and the loop goes on
      after the comma. */
  lemma ArgThenComma(a: Argument, more: seq<Token>, args: seq<Ast>)
    requires IsArgument(a) && IsStream(more)
    ensures IsStream(a.tokens + ([TokSymbol(',')] + more))
    ensures CallArgs(a.tokens + ([TokSymbol(',')] + more), args) == CallArgs(more, args + [a.tree])
  {
    PopOne(TokSymbol(','), more);
    ArgumentStep(a, [TokSymbol(',')] + more);
    ArgsAfter(a.tokens + ([TokSymbol(',')] + more), args, a.tree, [TokSymbol(',')] + more);
  }

  /** An argument and `)`: the argument is the last one and the `)` is
      consumed. */
  lemma ArgThenClose(a: Argument, rest: seq<Token>, args: seq<Ast>)
    requires IsArgument(a) && IsStream(rest)
    ensures IsStream(a.tokens + ([TokSymbol(')')] + rest))
    ensures CallArgs(a.tokens + ([TokSymbol(')')] + rest), args) == Step(Ok(args + [a.tree]), rest)
  {
    PopOne(TokSymbol(')'), rest);
    ArgumentStep(a, [TokSymbol(')')] + rest);
    ArgsAfter(a.tokens + ([TokSymbol(')')] + rest), args, a.tree, [TokSymbol(')')] + rest);
  }

  lemma TreesCons(args: seq<Ast>, arguments: seq<Argument>)
    requires |arguments| > 0
    ensures args + [arguments[0].tree] + Trees(arguments[1..]) == args + Trees(arguments)
  {
    assert Trees(arguments) == [arguments[0].tree] + Trees(arguments[1..]);
  }

  lemma ArgTokensCons(arguments: seq<Argument>, tail: seq<Token>)
    requires |arguments| > 1
    ensures ArgTokens(arguments) + tail ==
            arguments[0].tokens + ([TokSymbol(',')] + (ArgTokens(arguments[1..]) + tail))
  {
  }

  /** The inductive step of the argument loop. */
  lemma ArgsMore(arguments: seq<Argument>, args: seq<Ast>, close: seq<Token>, rest: seq<Token>)
    requires |arguments| > 1 && IsArgument(arguments[0]) && IsStream(close)
    requires IsStream(ArgTokens(arguments[1..]) + close)
    requires CallArgs(ArgTokens(arguments[1..]) + close, args + [arguments[0].tree]) ==
             Step(Ok(args + [arguments[0].tree] + Trees(arguments[1..])), rest)
    ensures IsStream(ArgTokens(arguments) + close)
    ensures CallArgs(ArgTokens(arguments) + close, args) == Step(Ok(args + Trees(arguments)), rest)
  {
    var more := ArgTokens(arguments[1..]) + close;
    ArgTokensCons(arguments, close);
    ArgThenComma(arguments[0], more, args);
    TreesCons(args, arguments);
  }

  /** The argument loop collects the arguments in order and consumes the
      closing `)`. */
  lemma {:induction false} ArgsInOrder(arguments: seq<Argument>, args: seq<Ast>, rest: seq<Token>)
    requires |arguments| > 0 && IsArguments(arguments) && IsStream(rest)
    ensures IsStream(ArgTokens(arguments) + ([TokSymbol(')')] + rest))
    ensures CallArgs(ArgTokens(arguments) + ([TokSymbol(')')] + rest), args) ==
            Step(Ok(args + Trees(arguments)), rest)
    decreases |arguments|
  {
    if |arguments| == 1 {
      assert ArgTokens(arguments) == arguments[0].tokens;
      assert Trees(arguments) == [arguments[0].tree];
      ArgThenClose(arguments[0], rest, args);
    } else {
      ArgsInOrder(arguments[1..], args + [arguments[0].tree], rest);
      ArgsMore(arguments, args, [TokSymbol(')')] + rest, rest);
    }
  }

  /** A name and `(` followed by anything but `)` start a call, whose
      arguments the argument loop reads. */
  lemma CallStep(callee: string, atArgs: seq<Token>)
    requires IsStream(atArgs) && atArgs[0] != TokSymbol(')')
    ensures IsStream([TokIdentifier(callee), TokSymbol('(')] + atArgs)
    ensures var s := CallArgs(atArgs, []);
            SingleUnit([TokIdentifier(callee), TokSymbol('(')] + atArgs) ==
              if s.out.Err? then Step(Err(s.out.error), s.rest) else Step(Ok(CallExpr(callee, s.out.value)), s.rest)
  {
    PopTwo(TokIdentifier(callee), TokSymbol('('), atArgs);
    assert SingleUnit([TokIdentifier(callee), TokSymbol('(')] + atArgs) == VariableOrCall([TokIdentifier(callee), TokSymbol('(')] + atArgs);
  }

  /** A call with arguments yields the callee and the arguments in order,
      and consumes exactly its tokens. */
  lemma CallParses(callee: string, arguments: seq<Argument>, rest: seq<Token>)
    requires |arguments| > 0 && IsArguments(arguments) && IsStream(rest)
    ensures var ts := [TokIdentifier(callee), TokSymbol('(')] + (ArgTokens(arguments) + ([TokSymbol(')')] + rest));
            IsStream(ts) && SingleUnit(ts) == Step(Ok(CallExpr(callee, Trees(arguments))), rest)
  {
    ArgsInOrder(arguments, [], rest);
    assert [] + Trees(arguments) == Trees(arguments);
    ArgumentStart(arguments[0]);
    ArgsHead(arguments, [TokSymbol(')')] + rest);
    CallStep(callee, ArgTokens(arguments) + ([TokSymbol(')')] + rest));
  }

  lemma ArgsHead(arguments: seq<Argument>, tail: seq<Token>)
    requires |arguments| > 0 && |arguments[0].tokens| > 0
    ensures (ArgTokens(arguments) + tail)[0] == arguments[0].tokens[0]
  {
  }

  /** The tokens of a call with arguments. */
  function CallTokens(callee: string, arguments: seq<Argument>): seq<Token>
  {
    [TokIdentifier(callee), TokSymbol('(')] + ArgTokens(arguments) + [TokSymbol(')')]
  }

  /** A call with arguments is a unit. */
  lemma CallIsUnit(callee: string, arguments: seq<Argument>)
    requires |arguments| > 0 && IsArguments(arguments)
    ensures IsUnit(CallTokens(callee, arguments), CallExpr(callee, Trees(arguments)))
  {
    forall rest | IsStream(rest) && rest[0] != TokSymbol('(')
      ensures SingleUnit(CallTokens(callee, arguments) + rest) == Step(Ok(CallExpr(callee, Trees(arguments))), rest)
    {
      CallParses(callee, arguments, rest);
      CallSplit(callee, ArgTokens(arguments), rest);
    }
  }

  lemma CallSplit(callee: string, a: seq<Token>, rest: seq<Token>)
    ensures [TokIdentifier(callee), TokSymbol('(')] + a + [TokSymbol(')')] + rest ==
            [TokIdentifier(callee), TokSymbol('(')] + (a + ([TokSymbol(')')] + rest))
  {
  }

  /** A call without arguments leaves its `)` unread. */
  lemma EmptyCallLeavesClose(callee: string, rest: seq<Token>)
    requires IsStream(rest)
    ensures var ts := [TokIdentifier(callee), TokSymbol('('), TokSymbol(')')] + rest;
            IsStream(ts) && SingleUnit(ts) == Step(Ok(CallExpr(callee, [])), [TokSymbol(')')] + rest)
  {
    var ts := [TokIdentifier(callee), TokSymbol('('), TokSymbol(')')] + rest;
    assert StreamPop(ts) == [TokSymbol('('), TokSymbol(')')] + rest;
    assert StreamPop(StreamPop(ts)) == [TokSymbol(')')] + rest;
  }

  /** An argument followed by neither `,` nor `)` is an error, and the
      offending token stays unread. */
  lemma MissingCommaRejected(callee: string, atom: Token, t: Token, rest: seq<Token>)
    requires IsAtom(atom) && IsStream(rest) && t != TokEof
    requires !t.TokSymbol? || (t.ch != ',' && t.ch != ')' && t.ch != '(' && t.ch !in SymbolOpChars)
    ensures var ts := [TokIdentifier(callee), TokSymbol('(')] + ([atom] + ([t] + rest));
            IsStream(ts) && SingleUnit(ts) == Step(Err(CallMissingComma), [t] + rest)
  {
    var after := [t] + rest;
    PopOne(t, rest);
    assert GetTokenPrecedence(t) == -1;
    AtomExpression(atom, after);
    OpAndRhsStop(AtomExpr(atom), 0, after);
    ArgsAfter([atom] + after, [], AtomExpr(atom), after);
    CallStep(callee, [atom] + after);
  }

  /** The token after a parenthesised expression is consumed as its `)`
      without being checked: whatever token ends the inner expression, the
      group is the inner expression and that token is gone. */
  lemma GroupCloseUnchecked(ts: seq<Token>, e: Ast, after: seq<Token>)
    requires IsStream(ts) && ts[0] == TokSymbol('(')
    requires AbstractExpression(ts[1..]) == Step(Ok(e), after) && after[0] != TokEof
    ensures SingleUnit(ts) == Step(Ok(e), after[1..])
  {
    assert SingleUnit(ts) == Enclosed(ts);
  }

  /** A parenthesised expression of units and operators, closed by `)`, is
      a unit: the well-grouped tree of what is inside, with no node for the
      parentheses, and the `)` is consumed. */
  lemma GroupParses(seg: seq<Token>, u: Ast, links: seq<Link>, after: seq<Token>, e: Shape)
    requires GroupsUnits(e, seg, u, links) && IsStream(after)
    ensures IsStream([TokSymbol('(')] + (seg + (LinkTokens(links) + ([TokSymbol(')')] + after))))
    ensures SingleUnit([TokSymbol('(')] + (seg + (LinkTokens(links) + ([TokSymbol(')')] + after)))) ==
            Step(Ok(Tree(e)), after)
  {
    var close := [TokSymbol(')')] + after;
    PopOne(TokSymbol(')'), after);
    ClimbingParse(seg, u, links, close, e);
    var inner := seg + (LinkTokens(links) + close);
    PopOne(TokSymbol('('), inner);
    DropHead(TokSymbol('('), inner);
    DropHead(TokSymbol(')'), after);
    GroupCloseUnchecked([TokSymbol('(')] + inner, Tree(e), close);
  }

  /** The tokens of a parenthesised expression. */
  function GroupTokens(seg: seq<Token>, links: seq<Link>): seq<Token>
  {
    [TokSymbol('(')] + seg + LinkTokens(links) + [TokSymbol(')')]
  }

  /** A parenthesised expression is a unit. */
  lemma GroupIsUnit(seg: seq<Token>, u: Ast, links: seq<Link>, e: Shape)
    requires GroupsUnits(e, seg, u, links)
    ensures IsUnit(GroupTokens(seg, links), Tree(e))
  {
    forall rest | IsStream(rest) && rest[0] != TokSymbol('(')
      ensures SingleUnit(GroupTokens(seg, links) + rest) == Step(Ok(Tree(e)), rest)
    {
      GroupParses(seg, u, links, rest, e);
      GroupSplit(seg, LinkTokens(links), rest);
    }
  }

  lemma GroupSplit(a: seq<Token>, b: seq<Token>, rest: seq<Token>)
    ensures [TokSymbol('(')] + a + b + [TokSymbol(')')] + rest ==
            [TokSymbol('(')] + (a + (b + ([TokSymbol(')')] + rest)))
  {
  }

  /** An operator, then a unit that no tighter operator follows: climbing
      goes on after the unit with the operator node of the left side and
      that unit. */
  lemma UnitOperand(lhs: Ast, minPrecedence: int, op: char, s: seq<Token>, u: Ast, after: seq<Token>)
    requires op in SymbolOpChars && GetOpPrecedence(op) >= minPrecedence
    requires IsStream(s) && IsStream(after) && SingleUnit(s) == Step(Ok(u), after)
    requires !(after[0].TokSymbol? && GetTokenPrecedence(after[0]) > GetOpPrecedence(op))
    ensures IsStream([TokSymbol(op)] + s)
    ensures OpAndRhs(lhs, minPrecedence, [TokSymbol(op)] + s) == OpAndRhs(BinaryExpr(op, lhs, u), minPrecedence, after)
  {
    PopOne(TokSymbol(op), s);
    OpAndRhsClimb(lhs, minPrecedence, [TokSymbol(op)] + s);
    RhsLoopStop(u, GetOpPrecedence(op), after);
  }

  /** A unit cannot start with anything but a number, a name or `(`; the
      offending token stays unread. */
  lemma NotPrimaryRejected(ts: seq<Token>)
    requires IsStream(ts) && !ts[0].TokNumber? && !ts[0].TokIdentifier? && ts[0] != TokSymbol('(')
    ensures AbstractExpression(ts) == Step(Err(NotPrimary), ts)
    ensures ts[0] != TokEof && ts[0] != TokDef && ts[0] != TokExtern ==> NextAst(ts) == Step(Err(NotPrimary), ts)
  {
    assert SingleUnit(ts) == Step(Err(NotPrimary), ts);
  }
}
