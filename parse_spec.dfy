/** The parser as pure functions over the stream of tokens still to be read.
    Each function mirrors one parser method: it returns the outcome of the
    method and the stream the method leaves behind, on success and on
    failure alike. Popping at the end of input leaves the stream unchanged,
    as the lexer does. */
module ParseSpec {
  import opened Vocabulary
  import opened Tokens
  import opened Lexing
  import opened Syntax

  /** Why a statement could not be parsed. */
  datatype ParseError =
    | UnexpectedEof          // the statement starts at the end of input
    | NotAPrototype          // a prototype does not start with an identifier
    | PrototypeMissingOpen   // the prototype name is not followed by `(`
    | PrototypeMissingClose  // the parameter list is not closed by `)`
    | NotPrimary             // no number, identifier or `(` where a unit must start
    | CallMissingComma       // a call argument is followed by neither `,` nor `)`
    | NotANumber             // a number unit does not start with a number
    | NotAnIdentifier        // a variable or call does not start with an identifier

  datatype Outcome<T> = Ok(value: T) | Err(error: ParseError)

  /** What a parse step produced and the tokens it left unread. */
  datatype Step<T> = Step(out: Outcome<T>, rest: seq<Token>)

  predicate SuffixOf(r: seq<Token>, ts: seq<Token>)
  {
    |r| <= |ts| && ts[|ts| - |r|..] == r
  }

  lemma SuffixTrans(a: seq<Token>, b: seq<Token>, c: seq<Token>)
    requires SuffixOf(a, b) && SuffixOf(b, c)
    ensures SuffixOf(a, c)
  {
    assert c[|c| - |a|..] == c[|c| - |b|..][|b| - |a|..];
  }

  lemma SuffixOfPop(ts: seq<Token>)
    requires IsStream(ts)
    ensures SuffixOf(StreamPop(ts), ts)
  {
  }

  /** A step only ever consumes tokens from the front of its stream. */
  predicate Advances<T>(s: Step<T>, ts: seq<Token>)
  {
    IsStream(s.rest) && SuffixOf(s.rest, ts)
  }

  /** One statement: the end of input is an error, `def` starts a
      definition, `extern` a prototype, anything else an expression. */
  function NextAst(ts: seq<Token>): (r: Step<Ast>)
    requires IsStream(ts)
    ensures Advances(r, ts)
    ensures r.out.Ok? ==> IsStatement(r.out.value)
    ensures ts[0] == TokEof ==> r == Step(Err(UnexpectedEof), ts)
    ensures ts[0] == TokDef && r.out.Ok? ==>
              r.out.value.Function? && r.out.value.proto.Prototype? && IsExpr(r.out.value.body)
    ensures ts[0] == TokExtern && r.out.Ok? ==> r.out.value.Prototype?
    ensures ts[0] != TokDef && ts[0] != TokExtern && r.out.Ok? ==> IsExpr(r.out.value)
  {
    match ts[0]
    case TokEof => Step(Err(UnexpectedEof), ts)
    case TokDef => FunctionDefinition(ts)
    case TokExtern => ExternPrototype(ts)
    case _ => AbstractExpression(ts)
  }

  /** `def` (skipped unseen), a prototype, then the body expression. */
  function FunctionDefinition(ts: seq<Token>): (r: Step<Ast>)
    requires IsStream(ts)
    ensures Advances(r, ts)
    ensures r.out.Ok? ==> r.out.value.Function? && r.out.value.proto.Prototype? && IsExpr(r.out.value.body)
  {
    var p := PrototypeOf(StreamPop(ts));
    SuffixOfPop(ts);
    SuffixTrans(p.rest, StreamPop(ts), ts);
    if p.out.Err? then Step(Err(p.out.error), p.rest)
    else
      var b := AbstractExpression(p.rest);
      SuffixTrans(b.rest, p.rest, ts);
      if b.out.Err? then Step(Err(b.out.error), b.rest)
      else Step(Ok(Function(p.out.value, b.out.value)), b.rest)
  }

  /** `extern` (skipped unseen), then a prototype. */
  function ExternPrototype(ts: seq<Token>): (r: Step<Ast>)
    requires IsStream(ts)
    ensures Advances(r, ts)
    ensures r.out.Ok? ==> r.out.value.Prototype?
  {
    PrototypeOf(StreamPop(ts))
  }

  /** A unit, then the operators and operands that follow it. */
  function AbstractExpression(ts: seq<Token>): (r: Step<Ast>)
    requires IsStream(ts)
    ensures Advances(r, ts)
    ensures r.out.Ok? ==> IsExpr(r.out.value) && |r.rest| < |ts|
    decreases |ts|, 3
  {
    var u := SingleUnit(ts);
    if u.out.Err? then u
    else
      var s := OpAndRhs(u.out.value, 0, u.rest);
      SuffixTrans(s.rest, u.rest, ts);
      s
  }

  /** Name, `(`, identifiers, `)`. */
  function PrototypeOf(ts: seq<Token>): (r: Step<Ast>)
    requires IsStream(ts)
    ensures Advances(r, ts)
    ensures r.out.Ok? ==> r.out.value.Prototype? && ts[0].TokIdentifier? && r.out.value.name == ts[0].name
  {
    var afterName := StreamPop(ts);
    SuffixOfPop(ts);
    if ts[0].TokIdentifier? then
      var afterOpen := StreamPop(afterName);
      SuffixOfPop(afterName);
      SuffixTrans(afterOpen, afterName, ts);
      if afterName[0] != TokSymbol('(') then Step(Err(PrototypeMissingOpen), afterOpen)
      else
        var r := PrototypeAfterOpen(ts[0].name, afterOpen);
        SuffixTrans(r.rest, afterOpen, ts);
        r
    else Step(Err(NotAPrototype), afterName)
  }

  /** The parameters of a prototype called `name` and the `)` after them. */
  function PrototypeAfterOpen(name: string, ts: seq<Token>): (r: Step<Ast>)
    requires IsStream(ts)
    ensures Advances(r, ts)
    ensures r.out.Ok? ==> r.out.value.Prototype? && r.out.value.name == name
  {
    var p := PrototypeParams(ts, []);
    var afterClose := StreamPop(p.1);
    SuffixOfPop(p.1);
    SuffixTrans(afterClose, p.1, ts);
    if p.1[0] != TokSymbol(')') then Step(Err(PrototypeMissingClose), afterClose)
    else Step(Ok(Prototype(name, p.0)), afterClose)
  }

  /** Once the parameter loop has stopped, only the `)` is left to check. */
  lemma AfterOpenDone(name: string, ts: seq<Token>, params: seq<string>, atClose: seq<Token>)
    requires IsStream(ts) && IsStream(atClose) && PrototypeParams(ts, []) == (params, atClose)
    ensures PrototypeAfterOpen(name, ts) ==
              if atClose[0] != TokSymbol(')') then Step(Err(PrototypeMissingClose), StreamPop(atClose))
              else Step(Ok(Prototype(name, params)), StreamPop(atClose))
  {
  }

  /** The parameter loop: while an identifier comes, take it, then go on only
      past a `,`. */
  function PrototypeParams(ts: seq<Token>, args: seq<string>): (r: (seq<string>, seq<Token>))
    requires IsStream(ts)
    ensures IsStream(r.1) && SuffixOf(r.1, ts)
    ensures |args| <= |r.0| && r.0[..|args|] == args
    decreases |ts|
  {
    if ts[0].TokIdentifier? then
      var afterParam := StreamPop(ts);
      var args' := args + [ts[0].name];
      SuffixOfPop(ts);
      NamesGrow(args, ts[0].name);
      if afterParam[0] == TokSymbol(',') then
        var next := StreamPop(afterParam);
        SuffixOfPop(afterParam);
        SuffixTrans(next, afterParam, ts);
        var r := PrototypeParams(next, args');
        SuffixTrans(r.1, next, ts);
        NamesPrefixTrans(args, args', r.0);
        r
      else (args', afterParam)
    else (args, ts)
  }

  lemma NamesGrow(args: seq<string>, name: string)
    ensures (args + [name])[..|args|] == args
  {
  }

  lemma NamesPrefixTrans(a: seq<string>, b: seq<string>, c: seq<string>)
    requires |a| <= |b| <= |c| && b[..|a|] == a && c[..|b|] == b
    ensures c[..|a|] == a
  {
    assert c[..|a|] == c[..|b|][..|a|];
  }

  /** Where no identifier comes, the parameter loop ends at once. */
  lemma ParamsStop(ts: seq<Token>, args: seq<string>)
    requires IsStream(ts) && !ts[0].TokIdentifier?
    ensures PrototypeParams(ts, args) == (args, ts)
  {
  }

  /** Where an identifier comes, it is taken, and the loop goes on past a `,`. */
  lemma ParamsTake(ts: seq<Token>, args: seq<string>)
    requires IsStream(ts) && ts[0].TokIdentifier?
    ensures var afterParam := StreamPop(ts);
            PrototypeParams(ts, args) ==
              if afterParam[0] == TokSymbol(',') then PrototypeParams(StreamPop(afterParam), args + [ts[0].name])
              else (args + [ts[0].name], afterParam)
  {
  }

  /** Precedence climbing: while the next token is an operator binding at
      least `minPrecedence`, consume it and a unit, let operators that bind
      tighter extend that right operand, and combine to the left. */
  function OpAndRhs(lhs: Ast, minPrecedence: int, ts: seq<Token>): (r: Step<Ast>)
    requires IsStream(ts)
    ensures Advances(r, ts)
    ensures ts[0].TokSymbol? && GetTokenPrecedence(ts[0]) >= minPrecedence ==> |r.rest| < |ts|
    ensures r.out.Ok? && IsExpr(lhs) && minPrecedence >= 0 ==> IsExpr(r.out.value)
    decreases |ts|, 0
  {
    if ts[0].TokSymbol? && GetTokenPrecedence(ts[0]) >= minPrecedence then
      var precedence := GetTokenPrecedence(ts[0]);
      var op := ts[0].ch;
      assert minPrecedence >= 0 ==> op in SymbolOpChars;
      var u := SingleUnit(StreamPop(ts));
      SuffixOfPop(ts);
      SuffixTrans(u.rest, StreamPop(ts), ts);
      if u.out.Err? then u
      else
        var rr := RhsLoop(u.out.value, precedence, u.rest);
        SuffixTrans(rr.rest, u.rest, ts);
        if rr.out.Err? then rr
        else
          var s := OpAndRhs(BinaryExpr(op, lhs, rr.out.value), minPrecedence, rr.rest);
          SuffixTrans(s.rest, rr.rest, ts);
          BinaryIsExpr(op, lhs, rr.out.value);
          s
    else Step(Ok(lhs), ts)
  }

  lemma BinaryIsExpr(op: char, lhs: Ast, rhs: Ast)
    ensures IsExpr(BinaryExpr(op, lhs, rhs)) <==> op in SymbolOpChars && IsExpr(lhs) && IsExpr(rhs)
  {
  }

  /** The inner loop of precedence climbing: while the next operator binds
      tighter than `precedence`, re-parse the right operand from it. */
  function RhsLoop(rhs: Ast, precedence: int, ts: seq<Token>): (r: Step<Ast>)
    requires IsStream(ts)
    ensures Advances(r, ts)
    ensures r.out.Ok? && IsExpr(rhs) && precedence >= 0 ==> IsExpr(r.out.value)
    decreases |ts|, 1
  {
    if ts[0].TokSymbol? && GetTokenPrecedence(ts[0]) > precedence then
      var s := OpAndRhs(rhs, precedence + 1, ts);
      if s.out.Err? then s else RhsLoop(s.out.value, precedence, s.rest)
    else Step(Ok(rhs), ts)
  }

  /** Where no operator binding at least `minPrecedence` follows, the left
      operand is the whole expression and nothing is consumed. */
  lemma OpAndRhsStop(lhs: Ast, minPrecedence: int, ts: seq<Token>)
    requires IsStream(ts)
    requires !(ts[0].TokSymbol? && GetTokenPrecedence(ts[0]) >= minPrecedence)
    ensures OpAndRhs(lhs, minPrecedence, ts) == Step(Ok(lhs), ts)
  {
  }

  /** Where such an operator follows, it is combined with the left operand and
      the right operand climbed from the unit after it. */
  lemma OpAndRhsClimb(lhs: Ast, minPrecedence: int, ts: seq<Token>)
    requires IsStream(ts)
    requires ts[0].TokSymbol? && GetTokenPrecedence(ts[0]) >= minPrecedence
    ensures var u := SingleUnit(StreamPop(ts));
            OpAndRhs(lhs, minPrecedence, ts) ==
              if u.out.Err? then u
              else
                var rr := RhsLoop(u.out.value, GetTokenPrecedence(ts[0]), u.rest);
                if rr.out.Err? then rr
                else OpAndRhs(BinaryExpr(ts[0].ch, lhs, rr.out.value), minPrecedence, rr.rest)
  {
  }

  lemma RhsLoopStop(rhs: Ast, precedence: int, ts: seq<Token>)
    requires IsStream(ts)
    requires !(ts[0].TokSymbol? && GetTokenPrecedence(ts[0]) > precedence)
    ensures RhsLoop(rhs, precedence, ts) == Step(Ok(rhs), ts)
  {
  }

  lemma RhsLoopClimb(rhs: Ast, precedence: int, ts: seq<Token>)
    requires IsStream(ts)
    requires ts[0].TokSymbol? && GetTokenPrecedence(ts[0]) > precedence
    ensures var s := OpAndRhs(rhs, precedence + 1, ts);
            RhsLoop(rhs, precedence, ts) ==
              if s.out.Err? then s else RhsLoop(s.out.value, precedence, s.rest)
  {
  }

  /** Climbing returns only where the next token is not an operator binding
      at least `minPrecedence`: everything it leaves is for an outer level. */
  lemma {:induction false} OpAndRhsStops(lhs: Ast, minPrecedence: int, ts: seq<Token>)
    requires IsStream(ts)
    ensures var r := OpAndRhs(lhs, minPrecedence, ts);
            r.out.Ok? ==> !(r.rest[0].TokSymbol? && GetTokenPrecedence(r.rest[0]) >= minPrecedence)
    decreases |ts|
  {
    if ts[0].TokSymbol? && GetTokenPrecedence(ts[0]) >= minPrecedence {
      OpAndRhsClimb(lhs, minPrecedence, ts);
      var u := SingleUnit(StreamPop(ts));
      if u.out.Ok? {
        var rr := RhsLoop(u.out.value, GetTokenPrecedence(ts[0]), u.rest);
        if rr.out.Ok? {
          OpAndRhsStops(BinaryExpr(ts[0].ch, lhs, rr.out.value), minPrecedence, rr.rest);
        }
      }
    } else {
      OpAndRhsStop(lhs, minPrecedence, ts);
    }
  }

  /** The inner loop returns only where the next token is not an operator
      binding tighter than `precedence`. */
  lemma {:induction false} RhsLoopStops(rhs: Ast, precedence: int, ts: seq<Token>)
    requires IsStream(ts)
    ensures var r := RhsLoop(rhs, precedence, ts);
            r.out.Ok? ==> !(r.rest[0].TokSymbol? && GetTokenPrecedence(r.rest[0]) > precedence)
    decreases |ts|
  {
    if ts[0].TokSymbol? && GetTokenPrecedence(ts[0]) > precedence {
      RhsLoopClimb(rhs, precedence, ts);
      var s := OpAndRhs(rhs, precedence + 1, ts);
      if s.out.Ok? {
        RhsLoopStops(s.out.value, precedence, s.rest);
      }
    } else {
      RhsLoopStop(rhs, precedence, ts);
    }
  }

  /** A primary unit: a number, a variable or call, or a parenthesised group. */
  function SingleUnit(ts: seq<Token>): (r: Step<Ast>)
    requires IsStream(ts)
    ensures Advances(r, ts)
    ensures r.out.Ok? ==> IsExpr(r.out.value) && |r.rest| < |ts|
    decreases |ts|, 2
  {
    if ts[0].TokNumber? then NumberUnit(ts)
    else if ts[0].TokIdentifier? then VariableOrCall(ts)
    else if ts[0] == TokSymbol('(') then Enclosed(ts)
    else Step(Err(NotPrimary), ts)
  }

  /** Consumes a token and yields it as a number. */
  function NumberUnit(ts: seq<Token>): (r: Step<Ast>)
    requires IsStream(ts)
    ensures Advances(r, ts)
    ensures ts[0].TokNumber? ==> r == Step(Ok(NumberExpr(ts[0].numeral)), ts[1..])
    ensures !ts[0].TokNumber? ==> r == Step(Err(NotANumber), StreamPop(ts))
  {
    var t := ts[0];
    if t.TokNumber? then Step(Ok(NumberExpr(t.numeral)), StreamPop(ts))
    else Step(Err(NotANumber), StreamPop(ts))
  }

  /** An identifier is a variable unless `(` follows; then it is a call. */
  function VariableOrCall(ts: seq<Token>): (r: Step<Ast>)
    requires IsStream(ts)
    ensures Advances(r, ts)
    ensures r.out.Ok? ==> IsExpr(r.out.value) && |r.rest| < |ts|
    ensures r.out.Ok? ==> ts[0].TokIdentifier?
    ensures r.out.Ok? && r.out.value.VariableExpr? ==> ts[0].TokIdentifier? && r.out.value.name == ts[0].name
    ensures r.out.Ok? && r.out.value.CallExpr? ==> ts[0].TokIdentifier? && r.out.value.callee == ts[0].name
    decreases |ts|, 1
  {
    var afterName := StreamPop(ts);
    if ts[0].TokIdentifier? then
      var identifier := ts[0].name;
      if afterName[0] != TokSymbol('(') then Step(Ok(VariableExpr(identifier)), afterName)
      else
        var afterOpen := StreamPop(afterName);
        if afterOpen[0] != TokSymbol(')') then
          var s := CallArgs(afterOpen, []);
          if s.out.Err? then Step(Err(s.out.error), s.rest)
          else Step(Ok(CallExpr(identifier, s.out.value)), s.rest)
        else Step(Ok(CallExpr(identifier, [])), afterOpen)
    else Step(Err(NotAnIdentifier), afterName)
  }

  /** The argument loop: an expression, then `)` ends the list, `,` continues
      it, and anything else is an error. */
  function CallArgs(ts: seq<Token>, args: seq<Ast>): (r: Step<seq<Ast>>)
    requires IsStream(ts)
    ensures Advances(r, ts)
    ensures r.out.Ok? ==> |r.rest| < |ts|
    ensures r.out.Ok? ==> |args| < |r.out.value| && r.out.value[..|args|] == args
    ensures r.out.Ok? && AllExprs(args) ==> AllExprs(r.out.value)
    decreases |ts|, 4
  {
    var e := AbstractExpression(ts);
    if e.out.Err? then Step(Err(e.out.error), e.rest)
    else
      var args' := args + [e.out.value];
      ArgsGrow(args, e.out.value);
      var next := StreamPop(e.rest);
      SuffixOfPop(e.rest);
      SuffixTrans(next, e.rest, ts);
      if e.rest[0] == TokSymbol(')') then Step(Ok(args'), next)
      else if e.rest[0] == TokSymbol(',') then
        var s := CallArgs(next, args');
        SuffixTrans(s.rest, next, ts);
        if s.out.Ok? then PrefixTrans(args, args', s.out.value); s else s
      else Step(Err(CallMissingComma), e.rest)
  }

  /** An argument that does not parse ends the list with its error. */
  lemma ArgsFail(ts: seq<Token>, args: seq<Ast>)
    requires IsStream(ts) && AbstractExpression(ts).out.Err?
    ensures CallArgs(ts, args) == Step(Err(AbstractExpression(ts).out.error), AbstractExpression(ts).rest)
  {
  }

  /** After an argument `e`, `)` ends the list, `,` continues it, and
      anything else is an error. */
  lemma ArgsAfter(ts: seq<Token>, args: seq<Ast>, e: Ast, rest: seq<Token>)
    requires IsStream(ts) && IsStream(rest) && AbstractExpression(ts) == Step(Ok(e), rest)
    ensures CallArgs(ts, args) ==
              if rest[0] == TokSymbol(')') then Step(Ok(args + [e]), StreamPop(rest))
              else if rest[0] == TokSymbol(',') then CallArgs(StreamPop(rest), args + [e])
              else Step(Err(CallMissingComma), rest)
  {
  }

  lemma ArgsGrow(args: seq<Ast>, e: Ast)
    ensures (args + [e])[..|args|] == args
    ensures AllExprs(args) && IsExpr(e) ==> AllExprs(args + [e])
  {
    assert (args + [e])[..|args|] == args;
  }

  lemma PrefixTrans(a: seq<Ast>, b: seq<Ast>, c: seq<Ast>)
    requires |a| <= |b| <= |c| && b[..|a|] == a && c[..|b|] == b
    ensures c[..|a|] == a
  {
    assert c[..|a|] == c[..|b|][..|a|];
  }

  /** One token (the `(` seen by the caller), an expression, and one more
      token, taken as the closing `)` without being checked. */
  function Enclosed(ts: seq<Token>): (r: Step<Ast>)
    requires IsStream(ts)
    ensures Advances(r, ts)
    ensures r.out.Ok? ==> IsExpr(r.out.value) && |r.rest| < |ts|
    decreases |ts|, if ts[0] == TokEof then 4 else 1
  {
    var open := StreamPop(ts);
    var e := AbstractExpression(open);
    SuffixOfPop(ts);
    SuffixOfPop(e.rest);
    SuffixTrans(e.rest, open, ts);
    SuffixTrans(StreamPop(e.rest), e.rest, ts);
    Step(e.out, StreamPop(e.rest))
  }
}
