/** The recursive-descent parser with precedence climbing. It owns a lexer and
    consumes its tokens as it goes; every method is specified by the pure
    function of the same name in ParseSpec, applied to the tokens the lexer
    still has to deliver. */
module Parsing {
  import opened Vocabulary
  import opened Tokens
  import opened Lexing
  import opened Syntax
  import opened ParseSpec

  class Parser {
    const lexer: Lexer

    ghost predicate Valid()
      reads this, lexer
    {
      lexer.Valid()
    }

    /** The tokens the parser has not consumed yet. */
    ghost function Stream(): (ts: seq<Token>)
      reads this, lexer
      requires Valid()
      ensures IsStream(ts)
    {
      lexer.Stream()
    }

    constructor (src: string)
      requires WellLexed(src)
      ensures Valid() && fresh(lexer)
      ensures Stream() == Tokenize(src)
    {
      lexer := new Lexer(src);
    }

    /** Parses one statement: a definition, an extern prototype or an
        expression; the end of input is an error. */
    method BuildNextAst() returns (r: Outcome<Ast>)
      requires Valid()
      modifies lexer
      ensures Valid()
      ensures Step(r, Stream()) == NextAst(old(Stream()))
    {
      var next := PeekLexer();
      if next == TokEof {
        r := Err(UnexpectedEof);
      } else if next == TokDef {
        r := ParseFunctionDefinition();
      } else if next == TokExtern {
        r := ParseExternCallExpression();
      } else {
        r := ParseAbstractExpression();
      }
    }

    method ParseFunctionDefinition() returns (r: Outcome<Ast>)
      requires Valid()
      modifies lexer
      ensures Valid()
      ensures Step(r, Stream()) == FunctionDefinition(old(Stream()))
    {
      var _ := PopLexer();
      var proto := ParsePrototype();
      if proto.Err? {
        return Err(proto.error);
      }
      var body := ParseAbstractExpression();
      if body.Err? {
        return Err(body.error);
      }
      r := Ok(Function(proto.value, body.value));
    }

    method ParseExternCallExpression() returns (r: Outcome<Ast>)
      requires Valid()
      modifies lexer
      ensures Valid()
      ensures Step(r, Stream()) == ExternPrototype(old(Stream()))
    {
      var _ := PopLexer();
      r := ParsePrototype();
    }

    method ParseAbstractExpression() returns (r: Outcome<Ast>)
      requires Valid()
      modifies lexer
      ensures Valid()
      ensures Step(r, Stream()) == AbstractExpression(old(Stream()))
      decreases |Stream()|, 3
    {
      var lhs := ParseSingleExpressionUnit();
      if lhs.Err? {
        return lhs;
      }
      r := ParseOpAndRhs(lhs.value, 0);
    }

    method ParsePrototype() returns (r: Outcome<Ast>)
      requires Valid()
      modifies lexer
      ensures Valid()
      ensures Step(r, Stream()) == PrototypeOf(old(Stream()))
    {
      var first := PopLexer();
      if first.TokIdentifier? {
        var fnIdent := first.name;
        var args: seq<string> := [];
        var open := PopLexer();
        if open != TokSymbol('(') {
          return Err(PrototypeMissingOpen);
        }
        ghost var atParams := Stream();
        while PeekLexer().TokIdentifier?
          invariant Valid()
          invariant PrototypeParams(Stream(), args) == PrototypeParams(atParams, [])
          decreases |Stream()|
        {
          ParamsTake(Stream(), args);
          var argIdent := PopLexer();
          args := args + [argIdent.name];
          if PeekLexer() == TokSymbol(',') {
            var _ := PopLexer();
          } else {
            break;
          }
        }
        if !PeekLexer().TokIdentifier? {
          ParamsStop(Stream(), args);
        }
        AfterOpenDone(fnIdent, atParams, args, Stream());
        var close := PopLexer();
        if close != TokSymbol(')') {
          return Err(PrototypeMissingClose);
        }
        r := Ok(Prototype(fnIdent, args));
      } else {
        r := Err(NotAPrototype);
      }
    }

    /** Precedence climbing over the operators that follow `lhs0`. */
    method ParseOpAndRhs(lhs0: Ast, minPrecedence: int) returns (r: Outcome<Ast>)
      requires Valid()
      modifies lexer
      ensures Valid()
      ensures Step(r, Stream()) == OpAndRhs(lhs0, minPrecedence, old(Stream()))
      decreases |Stream()|, 1
    {
      var lhs := lhs0;
      while PeekLexer().TokSymbol?
        invariant Valid()
        invariant |Stream()| <= |old(Stream())|
        invariant OpAndRhs(lhs, minPrecedence, Stream()) == OpAndRhs(lhs0, minPrecedence, old(Stream()))
        decreases |Stream()|
      {
        var precedence := GetTokenPrecedence(PeekLexer());
        if precedence >= minPrecedence {
          var step := ParseClimbStep(lhs, minPrecedence, precedence);
          if step.Err? {
            return step;
          }
          lhs := step.value;
        } else {
          break;
        }
      }
      OpAndRhsStop(lhs, minPrecedence, Stream());
      r := Ok(lhs);
    }

    /** One turn of the climbing loop: pop the operator, parse the unit after
        it, let the inner loop build the right operand from that unit, and
        join `lhs` and the right operand under the operator. */
    method ParseClimbStep(lhs: Ast, minPrecedence: int, precedence: int) returns (r: Outcome<Ast>)
      requires Valid()
      requires Stream()[0].TokSymbol? && precedence == GetTokenPrecedence(Stream()[0]) >= minPrecedence
      modifies lexer
      ensures Valid() && |Stream()| < |old(Stream())|
      ensures r.Err? ==> Step(r, Stream()) == OpAndRhs(lhs, minPrecedence, old(Stream()))
      ensures r.Ok? ==> OpAndRhs(r.value, minPrecedence, Stream()) == OpAndRhs(lhs, minPrecedence, old(Stream()))
      decreases |Stream()|, 0
    {
      ghost var atOp := Stream();
      OpAndRhsClimb(lhs, minPrecedence, atOp);
      var opToken := PopLexer();
      var op := opToken.ch;
      var unit := ParseSingleExpressionUnit();
      if unit.Err? {
        return unit;
      }
      var rhs := ParseRhsLoop(unit.value, precedence);
      if rhs.Err? {
        return rhs;
      }
      r := Ok(BinaryExpr(op, lhs, rhs.value));
    }

    /** The inner loop of precedence climbing: while the next operator binds
        tighter than `precedence`, the right operand climbs from it. */
    method ParseRhsLoop(rhs0: Ast, precedence: int) returns (r: Outcome<Ast>)
      requires Valid()
      modifies lexer
      requires -1 <= precedence <= 30
      ensures Valid()
      ensures Step(r, Stream()) == RhsLoop(rhs0, precedence, old(Stream()))
      decreases |Stream()|, 2
    {
      var rhs := rhs0;
      while PeekLexer().TokSymbol?
        invariant Valid()
        invariant |Stream()| <= |old(Stream())|
        invariant RhsLoop(rhs, precedence, Stream()) == RhsLoop(rhs0, precedence, old(Stream()))
        decreases |Stream()|
      {
        var peekPrecedence := GetTokenPrecedence(PeekLexer());
        if peekPrecedence > precedence {
          RhsLoopClimb(rhs, precedence, Stream());
          var next := ParseOpAndRhs(rhs, precedence + 1);
          if next.Err? {
            return next;
          }
          rhs := next.value;
        } else {
          break;
        }
      }
      RhsLoopStop(rhs, precedence, Stream());
      r := Ok(rhs);
    }

    method ParseSingleExpressionUnit() returns (r: Outcome<Ast>)
      requires Valid()
      modifies lexer
      ensures Valid()
      ensures Step(r, Stream()) == SingleUnit(old(Stream()))
      decreases |Stream()|, 2
    {
      var next := PeekLexer();
      if next.TokNumber? {
        r := ParseNumberExpression();
      } else if next.TokIdentifier? {
        r := ParseVariableOrCallExpression();
      } else if next == TokSymbol('(') {
        r := ParseEnclosedExpression();
      } else {
        r := Err(NotPrimary);
      }
    }

    method ParseNumberExpression() returns (r: Outcome<Ast>)
      requires Valid()
      modifies lexer
      ensures Valid()
      ensures Step(r, Stream()) == NumberUnit(old(Stream()))
    {
      var t := PopLexer();
      if t.TokNumber? {
        return Ok(NumberExpr(t.numeral));
      }
      r := Err(NotANumber);
    }

    method ParseVariableOrCallExpression() returns (r: Outcome<Ast>)
      requires Valid()
      modifies lexer
      ensures Valid()
      ensures Step(r, Stream()) == VariableOrCall(old(Stream()))
      decreases |Stream()|, 1
    {
      var t := PopLexer();
      if t.TokIdentifier? {
        var identifier := t.name;
        if TokSymbol('(') != PeekLexer() {
          return Ok(VariableExpr(identifier));
        }
        var _ := PopLexer();
        var args: seq<Ast> := [];
        if TokSymbol(')') != PeekLexer() {
          var parsed := ParseCallArgs();
          if parsed.Err? {
            return Err(parsed.error);
          }
          args := parsed.value;
        }
        r := Ok(CallExpr(identifier, args));
      } else {
        r := Err(NotAnIdentifier);
      }
    }

    /** The argument loop of a call: an expression, then `)` ends the list,
        `,` continues it, and anything else is an error. */
    method ParseCallArgs() returns (r: Outcome<seq<Ast>>)
      requires Valid()
      modifies lexer
      ensures Valid()
      ensures Step(r, Stream()) == CallArgs(old(Stream()), [])
      decreases |Stream()|, 4
    {
      var args: seq<Ast> := [];
      while true
        invariant Valid()
        invariant |Stream()| <= |old(Stream())|
        invariant CallArgs(Stream(), args) == CallArgs(old(Stream()), [])
        decreases |Stream()|
      {
        ghost var atArg := Stream();
        var e := ParseAbstractExpression();
        if e.Err? {
          ArgsFail(atArg, args);
          return Err(e.error);
        }
        ArgsAfter(atArg, args, e.value, Stream());
        args := args + [e.value];
        if TokSymbol(')') == PeekLexer() {
          var _ := PopLexer();
          return Ok(args);
        }
        if TokSymbol(',') == PeekLexer() {
          var _ := PopLexer();
        } else {
          return Err(CallMissingComma);
        }
      }
    }

    /** Pops the `(`, parses an expression, and pops one more token as `)`. */
    method ParseEnclosedExpression() returns (r: Outcome<Ast>)
      requires Valid()
      modifies lexer
      ensures Valid()
      ensures Step(r, Stream()) == Enclosed(old(Stream()))
      decreases |Stream()|, if PeekLexer() == TokEof then 4 else 1
    {
      var _ := PopLexer();
      r := ParseAbstractExpression();
      var _ := PopLexer();
    }

    method PopLexer() returns (t: Token)
      requires Valid()
      modifies lexer
      ensures Valid()
      ensures t == old(Stream())[0]
      ensures Stream() == StreamPop(old(Stream()))
    {
      t := lexer.Pop();
    }

    function PeekLexer(): (t: Token)
      reads this, lexer
      requires Valid()
      ensures t == Stream()[0]
    {
      lexer.Peek()
    }
  }
}
