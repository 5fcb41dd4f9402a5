# Kaleidoscope front end in Dafny

This project models the front end of the Kaleidoscope toy-language compiler
(`src/lib.rs` declares it): the character vocabulary, the tokens, the lexer, the
recursive-descent parser with precedence climbing, and the canonical text
rendering of the syntax tree. It then proves properties of that model.

How the model is laid out:

- `vocabulary.dfy` (`Vocabulary`) holds the symbol characters and the operator precedence table.
- `tokens.dfy` (`Tokens`) holds the `Token` datatype and its conversions.
- `lexer.dfy` (`Lexing`) is the scanner, written as pure functions. It includes:
  - the `ReadWhile` counting loop, as a method;
  - the `Lexer` cursor, as a class with the fields `data` and `tokenCache` that `Init` and `Pop` update in place. The class's abstract state `Stream()` is the sequence of tokens it has still to deliver. That sequence always ends with `TokEof`, and popping at the end of input leaves it unchanged.
- `lexer_lemmas.dfy` (`LexerLemmas`) holds what the scanner does with each kind of lexeme. Its main theorem is `TokenizeLayout`: scanning undoes layout, so the tokens of any text made of lexemes and whitespace are exactly those lexemes.
- `ast.dfy` (`Syntax`) and `display.dfy` (`SliceDisplay`) hold the tree, its rendering, and the comma-list printing loop.
- `parse_spec.dfy` (`ParseSpec`) describes each parser method as a pure function from the token stream to an outcome and the stream left behind, on success and on failure alike.
- `parser.dfy` (`Parsing`) is the `Parser` class, which owns a `Lexer`. Each of its methods is proved to change the stream and to return exactly what its `ParseSpec` function says.
- `climbing.dfy` (`Climbing`) and `grouping.dfy` (`Grouping`) prove what precedence climbing computes. A unit (a number, a name, a call or a parenthesised group) followed by operator/unit pairs parses to the unique tree over those units that reads back as the input and groups as the precedence table demands: equal precedence to the left, tighter operators below looser ones. Calls and groups are themselves units of this kind, so the theorem covers nested expressions.
- `parse_facts.dfy` (`ParseFacts`) states what the parser does on each shape of input, for all inputs of that shape and the error paths included. The shapes are prototypes, `extern`, `def`, calls, groups and non-primary tokens.
- `round_trip.dfy` (`RoundTrip`) proves that the rendering reads back. For a readable tree, lexing its rendering gives the tree's tokens, and parsing them gives the tree again with only the end of input left. The same holds for `extern ` before a prototype's rendering and `def ` before a function's. A tree is readable when every numeral and name lexes as one token, the nodes carry operator characters, and every call has an argument.
- `lex_examples.dfy` and `parse_examples.dfy` work out the concrete inputs that the repository's tests use, as lemmas.
- `source_examples.dfy` (`SourceLayout`, `SourceExamples`) takes the parser tests end to end. Each test input, with its line breaks and indentation as the test writes it, is shown to be a layout of its tokens. A method then builds a `Parser` over that text and proves that `BuildNextAst` returns the tree the test expects.

Numbers are carried as their lexeme (a `string`). A lexeme that starts with a
digit is accepted exactly when it matches the floating-point grammar that the
code's conversion accepts for such text: `Digit+ ('.' Digit*)? ([eE] Digit+)?`.
No sign is possible, because `+` and `-` end a lexeme. A lexeme outside that
grammar makes the code abort. The model reports it as `Malformed`, and the lexer
and parser constructors require `WellLexed` input.

The model follows the code in these behaviours, which are easy to misread:

- A comment ends at `\r`, at `\n` or at any symbol character (`( ) , + - * / < >`), because the comment scan at `src/parse/lexer.rs:77` stops at symbols as well as at line breaks. A comment therefore need not run to the end of its line.
- The parameter loop of a prototype accepts a `,` right before `)` (`src/parse/parser.rs:65-74`), so a trailing comma is not an error. See `ParseFacts.TrailingCommaAccepted`.
- A parenthesised group pops whatever token follows the inner expression as its `)`, without checking it (`src/parse/parser.rs:156-161`). See `ParseFacts.GroupCloseUnchecked`.
- A call with no arguments, `f()`, yields `CallExpr(f, [])` but leaves the `)` unread (`src/parse/parser.rs:134`). See `ParseFacts.EmptyCallLeavesClose`.
- A comment token reaches the parser like any other token. A statement that starts with a comment therefore fails as "non-primary". See `ParseFacts.NotPrimaryRejected`.
- The parser pops tokens both through `pop_lexer` and through `lexer.pop()` directly. The two are the same operation, and the model uses `PopLexer` throughout.

## Model

| member | source | states |
|---|---|---|
| Vocabulary.IsSymbolChar | src/syntax/vocabulary.rs:3-5 | every operator character is a symbol character, and no symbol character is a letter, a digit, `.`, `#` or a space, so a symbol always ends a word, a numeral or a comment |
| Vocabulary.GetOpPrecedence | src/syntax/vocabulary.rs:6-12 | precedence lies in -1..30 and is non-negative exactly for the six operator characters |
| Vocabulary.SymbolCharsAreExactlyNine | src/syntax/vocabulary.rs:1-5 | a character is a symbol character exactly when it is one of `( ) , + - * / > <` |
| Vocabulary.PrecedenceTable | src/syntax/vocabulary.rs:6-12 | `<` `>` give 10, `+` `-` give 20, `*` `/` give 30, every other character gives -1 |
| Vocabulary.OperatorsAreSymbols | src/syntax/vocabulary.rs:1-12 | every operator is a symbol with non-negative precedence; `( ) ,` are symbols with precedence -1 |
| Vocabulary.PrecedenceOrder | src/syntax/vocabulary.rs:7-11 | `*` and `/` bind strictly tighter than `+` and `-`, which bind strictly tighter than `<` and `>`, which bind tighter than a non-operator |
| Tokens.GetTokenPrecedence | src/parse/token.rs:4-9 | a symbol token has its character's precedence and any other token has -1, so a token has non-negative precedence exactly when it is an operator symbol |
| Tokens.DefaultToken | src/parse/token.rs:25-29 | the placeholder token is the `def` keyword token; `Lexing.Lexer.Pop` overwrites it before it returns |
| Tokens.FromStr | src/parse/token.rs:45-55 | `def` and `extern` map to their keywords before any other rule; text starting with `#` maps to a comment holding the whole text; any other nonempty text maps to an identifier; only the empty text maps to end of input; and only these five kinds arise |
| Tokens.FromChar | src/parse/token.rs:63-67 | a character always maps to the symbol token of that character |
| Tokens.FromNumber | src/parse/token.rs:57-61 | a number always maps to the number token carrying it |
| Tokens.IsTokSymbol | src/parse/token.rs:70-75 | a token that is not a symbol has precedence -1, so only symbol tokens can act as operators |
| Tokens.IsTokSymbolExactly | src/parse/token.rs:70-75 | the symbol test holds exactly for tokens of the form `TokSymbol(c)` |
| Tokens.Display | src/parse/token.rs:31-43 | every display text is nonempty and starts with `<` |
| Tokens.DisplayInjective | src/parse/token.rs:31-43 | two tokens with the same display text are equal |
| Lexing.LongestPrefix | src/parse/lexer.rs:87-97 | the count lies within the input, and the character right after the prefix fails the predicate |
| Lexing.LongestPrefixHolds | src/parse/lexer.rs:87-97 | every character of the counted prefix satisfies the predicate |
| Lexing.LongestPrefixUnique | src/parse/lexer.rs:87-97 | a count whose prefix satisfies the predicate and whose next character fails it is the longest-prefix count |
| Lexing.ReadWhile | src/parse/lexer.rs:87-97 | the loop returns the length of the longest prefix whose characters all satisfy the predicate |
| Lexing.TrimStart | src/parse/lexer.rs:69-71 | the count lies within the input and stops at the first non-whitespace character |
| Lexing.ReadTokenStr | src/parse/lexer.rs:73-80 | the text read is the input's prefix of the count's length; a word runs to the first whitespace or symbol, a comment to the first line break or symbol |
| Lexing.ReadPrimaryToken | src/parse/lexer.rs:82-85 | the first character, counted as one |
| Lexing.ParseToken | src/parse/lexer.rs:38-67 | a scan consumes at most the input; end of input consumes all of it; any other token consumes the leading whitespace and at least one more character |
| Lexing.ParseAndSlide | src/parse/lexer.rs:33-36 | the rest is the input after the scanned count; end of input leaves an empty rest; any other token leaves a strictly shorter rest |
| Lexing.StreamPop | src/parse/lexer.rs:23-27 | popping keeps a stream a stream; it drops the first token unless that token is the end of input, which is never consumed |
| Lexing.Tokenize | src/parse/lexer.rs:38-67 | the tokens of a text form a stream, ending with the end of input, and start with the first scanned token |
| Lexing.Lexer.constructor | src/parse/lexer.rs:10-17 | the new lexer has scanned the first token into its cache and will deliver exactly the source's tokens |
| Lexing.Lexer.Init | src/parse/lexer.rs:29-31 | the cache and the data become the first token of the old data and the text after it |
| Lexing.Lexer.Peek | src/parse/lexer.rs:19-21 | the next token to be delivered, without changing any state |
| Lexing.Lexer.Pop | src/parse/lexer.rs:23-27 | returns the token that peeking showed, scans the next one off the data, and delivers the old stream less that token; at the end of input it keeps returning the end of input |
| LexerLemmas.LongestPrefixAppend | src/parse/lexer.rs:87-97 | a prefix that satisfies the predicate throughout is skipped as a whole |
| LexerLemmas.LongestPrefixStops | src/parse/lexer.rs:87-97 | the scan stops at the first character that fails the predicate |
| LexerLemmas.ScanEndOfInput | src/parse/lexer.rs:39-45 | the scan yields the end of input, consuming everything, exactly when only whitespace is left |
| LexerLemmas.EndOfInputIsTerminal | src/parse/lexer.rs:23-31 | the empty text scans to the end of input and an empty rest, so the end of input repeats forever |
| LexerLemmas.ScanWord | src/parse/lexer.rs:49-52 | a token starting with a letter runs to the first whitespace or symbol and is a keyword or an identifier holding that text |
| LexerLemmas.ScanComment | src/parse/lexer.rs:57-59 | a token starting with `#` is a comment that keeps the `#` and runs to the first line break or symbol, which it excludes |
| LexerLemmas.ScanNumber | src/parse/lexer.rs:53-56 | a token starting with a digit runs to the first whitespace or symbol; it is a number holding that text when the text is a numeral, and the scan fails otherwise |
| LexerLemmas.ScanSymbol | src/parse/lexer.rs:61-64 | any other first character is a one-character symbol token that consumes exactly that character |
| LexerLemmas.ScanAfterWhitespace | src/parse/lexer.rs:39-41 | leading whitespace changes only how many characters the scan consumes |
| LexerLemmas.TokenizeAfterWhitespace | src/parse/lexer.rs:39-41 | leading whitespace does not change the tokens of a text |
| LexerLemmas.ScanLexeme | src/parse/lexer.rs:38-67 | the lexeme of any scannable token, followed by text that ends it, scans back to that token and consumes exactly the lexeme |
| LexerLemmas.TokenizeLayout | src/parse/lexer.rs:23-67 | the tokens of any text made of lexemes, separating whitespace and trailing whitespace are exactly those lexemes' tokens followed by the end of input |
| Syntax.Display | src/syntax/ast.rs:33-49 | a number renders as its lexeme and a name as itself; an operator node renders inside `(` and `)`; a call or a prototype ends with the `)` of its list; a function ends with a line break |
| Syntax.DisplayAll | src/syntax/ast.rs:37-40 | the renderings of the arguments, one per argument, in order |
| Syntax.DisplayBalanced | src/syntax/ast.rs:33-49 | the rendering of a tree whose names hold no parentheses has as many `(` as `)` |
| Syntax.DisplayAllBalanced | src/syntax/ast.rs:37-40 | every argument rendering is balanced |
| SliceDisplay.StructuredSlicePrint | src/utils/display.rs:74-83 | the loop writes the items in order, with `", "` before every item but the first, followed by `)` |
| SliceDisplay.SliceTextOfEmpty | src/utils/display.rs:74-83 | an empty list writes exactly `)` |
| SliceDisplay.JoinAppend | src/utils/display.rs:76-81 | the joined text of two nonempty lists has exactly one separator between them |
| SliceDisplay.JoinCons | src/utils/display.rs:76-81 | the first item is written without a separator, and every later item follows one |
| SliceDisplay.JoinAt | src/utils/display.rs:76-81 | item `i > 0` is preceded by `", "` and followed by the rest of the list |
| SliceDisplay.SliceTextParens | src/utils/display.rs:74-83 | the output never contains `(` when the items do not, and always ends with `)` |
| SliceDisplay.JoinNoOpen | src/utils/display.rs:76-81 | joining adds no `(` |
| SliceDisplay.JoinBalanced | src/utils/display.rs:76-81 | joining balanced items gives a balanced text |
| RoundTrip.DisplayTokensUnit | src/parse/parser.rs:109-161 | the tokens of a readable tree are a unit: the parser reads exactly them back as that tree, whatever follows that does not start with `(` |
| RoundTrip.OperatorGroupIsUnit | src/parse/parser.rs:156-161 | an operator between two units, in parentheses, is a unit that reads back as the operator node |
| RoundTrip.UnitIsArgument | src/parse/parser.rs:134-149 | a unit is a call argument that reads back as itself before `,` or `)` |
| RoundTrip.ArgumentsRead | src/parse/parser.rs:134-149 | the tokens of readable argument trees are arguments that parse to exactly those trees, in order |
| RoundTrip.DisplayLaid | src/syntax/ast.rs:33-49 | the rendering of a readable tree, after any whitespace and before anything that ends its last lexeme, spells a well-spaced layout that holds exactly the tree's tokens |
| RoundTrip.ArgsLaid | src/utils/display.rs:74-83 | the comma-joined renderings of readable arguments spell a layout of their tokens, with a comma token between each two |
| RoundTrip.ParamsLaid | src/utils/display.rs:74-83 | the comma-joined parameter names spell a layout of the name tokens, with a comma token between each two |
| RoundTrip.ExpressionReadsBack | src/parse/parser.rs:52-55 | the tokens of a readable expression, then end of input, parse to that expression and leave the end of input |
| RoundTrip.DisplayReadsBack | src/syntax/ast.rs:33-49 | the rendering of a readable expression is valid input, and the next statement read from it is that expression, with only the end of input left |
| RoundTrip.ExternLexes | src/parse/lexer.rs:23-67 | `extern ` and a prototype's rendering lex to `extern`, the prototype's tokens and the end of input |
| RoundTrip.ExternReadsBack | src/parse/parser.rs:47-50 | `extern ` and a prototype's rendering read back as that prototype, with only the end of input left |
| RoundTrip.DefinitionLexes | src/parse/lexer.rs:23-67 | `def ` and a function's rendering lex to `def`, the prototype's tokens, the body's tokens and the end of input |
| RoundTrip.DefinitionReadsBack | src/parse/parser.rs:41-45 | `def ` and a function's rendering read back as that function, with only the end of input left |
| RoundTrip.SourceReadsBack | src/parse/parser.rs:32-39 | the source text of every readable statement reads back as that statement, with only the end of input left |
| ParseSpec.NextAst | src/parse/parser.rs:32-39 | the statement consumes only from the front; end of input is an error that consumes nothing; `def` yields a function of a prototype and an expression, `extern` a prototype, anything else an expression |
| ParseSpec.FunctionDefinition | src/parse/parser.rs:41-45 | a successful definition is a function whose prototype part is a prototype and whose body is an expression |
| ParseSpec.ExternPrototype | src/parse/parser.rs:47-50 | a successful extern is a prototype |
| ParseSpec.AbstractExpression | src/parse/parser.rs:52-55 | a successful expression is an expression tree and consumes at least one token |
| ParseSpec.PrototypeOf | src/parse/parser.rs:57-83 | a successful prototype is named after the identifier it starts with |
| ParseSpec.PrototypeAfterOpen | src/parse/parser.rs:65-79 | after `(`, a successful prototype keeps the name |
| ParseSpec.PrototypeParams | src/parse/parser.rs:65-74 | the parameter loop only consumes from the front and only appends to the names collected so far |
| ParseSpec.ParamsStop | src/parse/parser.rs:65 | the loop stops at once before anything but an identifier |
| ParseSpec.ParamsTake | src/parse/parser.rs:66-72 | an identifier is appended; a `,` after it is popped and the loop goes on, and anything else ends it |
| ParseSpec.OpAndRhs | src/parse/parser.rs:85-107 | climbing consumes only from the front, consumes the next token when it is an operator binding at least the minimum, and builds an expression from an expression when climbing from a non-negative minimum |
| ParseSpec.RhsLoop | src/parse/parser.rs:91-99 | the inner loop consumes only from the front and builds an expression from an expression |
| ParseSpec.BinaryIsExpr | src/parse/parser.rs:86-100 | an operator node is an expression exactly when its operator is an operator character and both operands are expressions |
| ParseSpec.OpAndRhsStop | src/parse/parser.rs:86-106 | before a token that is not an operator binding at least the minimum, climbing returns its left side and consumes nothing |
| ParseSpec.OpAndRhsClimb | src/parse/parser.rs:88-100 | before such an operator, climbing pops it, parses a unit, runs the inner loop and goes on with the new operator node |
| ParseSpec.RhsLoopStop | src/parse/parser.rs:91-97 | the inner loop stops at once before a token that is not an operator binding more tightly |
| ParseSpec.RhsLoopClimb | src/parse/parser.rs:91-94 | before a tighter operator, the inner loop climbs one level higher and goes on |
| ParseSpec.OpAndRhsStops | src/parse/parser.rs:85-107 | climbing returns only before a token that is not an operator binding at least the minimum |
| ParseSpec.RhsLoopStops | src/parse/parser.rs:91-99 | the inner loop returns only before a token that is not an operator binding more tightly |
| ParseSpec.SingleUnit | src/parse/parser.rs:109-116 | a successful unit is an expression and consumes at least one token |
| ParseSpec.NumberUnit | src/parse/parser.rs:118-123 | a number token becomes a number node and is consumed; anything else is popped and is an error |
| ParseSpec.VariableOrCall | src/parse/parser.rs:125-154 | a success starts with an identifier, consumes it, and is a variable of that name or a call of that callee |
| ParseSpec.CallArgs | src/parse/parser.rs:134-149 | a successful argument loop consumes something and extends the arguments collected so far by at least one expression |
| ParseSpec.ArgsFail | src/parse/parser.rs:136 | an argument that fails ends the call with its error |
| ParseSpec.ArgsAfter | src/parse/parser.rs:138-147 | after an argument, `)` ends the list and is popped, `,` is popped and continues it, and anything else is an error |
| ParseSpec.Enclosed | src/parse/parser.rs:156-161 | a successful group is an expression and consumes at least one token |
| Parsing.Parser.constructor | src/parse/parser.rs:26-30 | the parser owns a new lexer that will deliver exactly the source's tokens |
| Parsing.Parser.BuildNextAst | src/parse/parser.rs:32-39 | returns the statement that `NextAst` gives for the old stream and leaves the stream it leaves |
| Parsing.Parser.ParseFunctionDefinition | src/parse/parser.rs:41-45 | returns and leaves what `FunctionDefinition` gives for the old stream |
| Parsing.Parser.ParseExternCallExpression | src/parse/parser.rs:47-50 | returns and leaves what `ExternPrototype` gives for the old stream |
| Parsing.Parser.ParseAbstractExpression | src/parse/parser.rs:52-55 | returns and leaves what `AbstractExpression` gives for the old stream |
| Parsing.Parser.ParsePrototype | src/parse/parser.rs:57-83 | the loop over parameters returns and leaves what `PrototypeOf` gives for the old stream |
| Parsing.Parser.ParseOpAndRhs | src/parse/parser.rs:85-107 | the climbing loop returns and leaves what `OpAndRhs` gives for the old stream |
| Parsing.Parser.ParseClimbStep | src/parse/parser.rs:89-100 | one climbing step pops the operator, reads a unit and its inner loop and joins them to the left operand; on failure it returns the error `OpAndRhs` gives, otherwise the climb from the new left operand and shorter stream ends where the climb from the old ones does |
| Parsing.Parser.ParseRhsLoop | src/parse/parser.rs:91-99 | the inner loop returns and leaves what `RhsLoop` gives for the old stream |
| Parsing.Parser.ParseSingleExpressionUnit | src/parse/parser.rs:109-116 | returns and leaves what `SingleUnit` gives for the old stream |
| Parsing.Parser.ParseNumberExpression | src/parse/parser.rs:118-123 | returns and leaves what `NumberUnit` gives for the old stream |
| Parsing.Parser.ParseVariableOrCallExpression | src/parse/parser.rs:125-154 | returns and leaves what `VariableOrCall` gives for the old stream |
| Parsing.Parser.ParseCallArgs | src/parse/parser.rs:134-149 | the argument loop returns and leaves what `CallArgs` gives for the old stream |
| Parsing.Parser.ParseEnclosedExpression | src/parse/parser.rs:156-161 | returns and leaves what `Enclosed` gives for the old stream |
| Parsing.Parser.PopLexer | src/parse/parser.rs:163-165 | returns the next token and pops it off the stream |
| Parsing.Parser.PeekLexer | src/parse/parser.rs:167-169 | the next token of the stream |
| Climbing.AtomExpr | src/parse/parser.rs:118-129 | a number or a name alone is an expression |
| Climbing.FirstBelowAtLeast | src/parse/parser.rs:86-88 | every link before the first looser operator binds at least the minimum, and that link binds less |
| Climbing.FirstBelowUnique | src/parse/parser.rs:86-88 | that position is the only one with this property |
| Climbing.AtomIsUnit | src/parse/parser.rs:109-129 | a number or a name, followed by anything but `(`, is read as a unit of its own |
| Climbing.UnitExpression | src/parse/parser.rs:52-55 | an expression starts with a unit and climbs from it at minimum 0 |
| Climbing.FlatOpAndRhs | src/parse/parser.rs:85-107 | climbing over operator/unit pairs takes exactly the pairs up to the first operator that binds less than the minimum, and builds a well-grouped tree that reads back as the left side followed by those pairs |
| Climbing.FlatRhsLoop | src/parse/parser.rs:91-99 | the inner loop takes exactly the pairs up to the first operator that does not bind more tightly, with the same well-grouped read-back |
| Climbing.FlatExpression | src/parse/parser.rs:52-116 | a unit (number, name, call or group) and its operator/unit pairs parse as one well-grouped expression that reads back as those units and operators and stops exactly at what follows |
| Grouping.YieldOps | src/parse/parser.rs:85-107 | no operator in a well-grouped tree binds less tightly than its root |
| Grouping.GroupingUnique | src/parse/parser.rs:85-107 | two well-grouped trees that read back as the same units and operators are the same tree |
| Grouping.ClimbingParse | src/parse/parser.rs:52-116 | an expression of units (numbers, names, calls, groups) and operators parses to exactly the tree of the well-grouped grouping that reads back as those units and operators, and leaves exactly what follows |
| ParseFacts.ParamsInOrder | src/parse/parser.rs:65-74 | the parameter loop collects the comma-separated names in order and stops right after the last one |
| ParseFacts.PrototypeParses | src/parse/parser.rs:57-83 | a well-formed prototype yields its name and its parameters in order and consumes exactly its tokens |
| ParseFacts.TrailingCommaAccepted | src/parse/parser.rs:65-79 | a `,` after the last parameter is accepted and yields the same prototype |
| ParseFacts.NotPrototypeRejected | src/parse/parser.rs:58-82 | a prototype not starting with an identifier is an error, and that token is consumed |
| ParseFacts.MissingOpenRejected | src/parse/parser.rs:61-63 | a name followed by anything but `(` is an error, and both tokens are consumed |
| ParseFacts.MissingCloseRejected | src/parse/parser.rs:76-78 | parameters followed by anything but `)` are an error, and that token is consumed |
| ParseFacts.ExpressionStatement | src/parse/parser.rs:37 | a statement starting with neither `def`, `extern` nor the end of input is an expression |
| ParseFacts.ExternParses | src/parse/parser.rs:47-50 | `extern` and a well-formed prototype yield that prototype |
| ParseFacts.DefinitionStep | src/parse/parser.rs:35-45 | `def`, a prototype and a body expression yield the function of the two |
| ParseFacts.DefinitionParses | src/parse/parser.rs:35-45 | `def`, a well-formed prototype and a body yield the function of that prototype and that body |
| ParseFacts.ArgumentStart | src/parse/parser.rs:109-116 | an argument is never empty and never starts with `)` |
| ParseFacts.AtomIsArgument | src/parse/parser.rs:52-55 | a number or a name before `,` or `)` is a whole argument |
| ParseFacts.ExpressionIsArgument | src/parse/parser.rs:52-55 | any expression of units and operators before `,` or `)` is a whole argument, the tree of its well-grouped grouping |
| ParseFacts.ArgsInOrder | src/parse/parser.rs:134-149 | the argument loop collects the comma-separated arguments' trees in order and consumes the closing `)` |
| ParseFacts.CallStep | src/parse/parser.rs:125-150 | a name and `(` followed by anything but `)` make a call whose arguments the loop collects, or the loop's error |
| ParseFacts.CallParses | src/parse/parser.rs:125-154 | a call with one or more arguments yields its callee and the arguments' trees in order, and consumes the `)` |
| ParseFacts.CallIsUnit | src/parse/parser.rs:125-154 | a call with one or more arguments, followed by anything but `(`, is read as a unit |
| ParseFacts.EmptyCallLeavesClose | src/parse/parser.rs:134-150 | `f()` yields a call with no arguments and leaves the `)` unread |
| ParseFacts.MissingCommaRejected | src/parse/parser.rs:143-147 | an argument that is a number or a name, followed by neither `,`, `)`, `(` nor an operator is an error, and that token stays unread |
| ParseFacts.GroupCloseUnchecked | src/parse/parser.rs:156-161 | a group yields its inner expression with no node of its own and pops the next token, whatever it is |
| ParseFacts.GroupParses | src/parse/parser.rs:156-161 | `(`, units and operators, then `)` form a unit: the well-grouped tree of what is inside, and the `)` is consumed |
| ParseFacts.GroupIsUnit | src/parse/parser.rs:156-161 | such a group, followed by anything but `(`, is read as a unit |
| ParseFacts.UnitOperand | src/parse/parser.rs:88-100 | an operator and a unit followed by no tighter operator: climbing goes on after the unit with the operator node of the left side and that unit |
| ParseFacts.NotPrimaryRejected | src/parse/parser.rs:109-116 | a unit cannot start with anything but a number, a name or `(`; the error consumes nothing, and a statement starting that way fails |
| LexExamples.SingleToken | tests/parser/lexer.rs:6-17 | a lone lexeme between whitespace scans to exactly its token and then the end of input |
| LexExamples.LexEmpty | tests/parser/lexer.rs:19 | the empty text yields the end of input |
| LexExamples.LexBlank | tests/parser/lexer.rs:29 | a blank text yields the end of input |
| LexExamples.LexOperators | tests/parser/lexer.rs:20-28 | each of `( ) + - * / < > ,` between spaces yields its symbol token |
| LexExamples.LexFloat | tests/parser/lexer.rs:30 | `1.6` between spaces yields a number token |
| LexExamples.LexDef | tests/parser/lexer.rs:31 | `def` yields the keyword token |
| LexExamples.LexExtern | tests/parser/lexer.rs:32 | `extern` yields the keyword token |
| LexExamples.LexName | tests/parser/lexer.rs:33 | `saiftyfirst` yields that identifier |
| LexExamples.LexAtan | tests/parser/lexer.rs:34 | `atan2` yields that identifier |
| LexExamples.LexComment | tests/parser/lexer.rs:35 | a comment line yields the comment without its line break |
| LexExamples.Numerals | src/parse/lexer.rs:53-56 | which digit-initial lexemes are numerals and which make the scan fail |
| ParseExamples.AddParses | tests/parser/naive_parser.rs:50-56 | `x + 1` parses to the sum of `x` and `1` |
| ParseExamples.ChainParses | tests/parser/naive_parser.rs:58-78 | `x + 2 -4 * q / y` parses to the difference of `x + 2` and `(4 * q) / y` |
| ParseExamples.LongParses | tests/parser/naive_parser.rs:80-104 | a trailing `+ 2` wraps that whole difference |
| ParseExamples.NoArgExternParses | tests/parser/naive_parser.rs:34-40 | `extern atan2()` parses to a prototype without parameters |
| ParseExamples.MultiArgExternParses | tests/parser/naive_parser.rs:42-48 | `extern atan2(arg, arg2)` parses to a prototype with both parameters in order |
| ParseExamples.SingleArgFunctionParses | tests/parser/naive_parser.rs:160-171 | `def my_tan(arg1) arg1` parses to that function |
| ParseExamples.MultiArgFunctionParses | tests/parser/naive_parser.rs:173-189 | `def my_tan(arg1, arg2) arg1 + arg2` parses to that function |
| ParseExamples.ParenParses | tests/parser/naive_parser.rs:106-130 | `x / (2 - 4 + q) / y` parses to `x` divided by the group, all divided by `y`, the group being the sum of `2 - 4` and `q` |
| ParseExamples.B2bFirst | tests/parser/naive_parser.rs:132-158 | `x * (z * q) / y` followed by any non-symbol token parses to `(x * (z * q)) / y` and stops in front of that token |
| ParseExamples.B2bParses | tests/parser/naive_parser.rs:132-158 | two statements on consecutive lines parse one after the other: the expression first, then the prototype, then the end of input |
| LexExamples.LaidOut | src/parse/lexer.rs:23-67 | a text laid out as plain lexemes and whitespace lexes to exactly those lexemes' tokens and then the end of input |
| SourceLayout.Lay | src/parse/lexer.rs:23-67 | a plain token after whitespace, in front of a layout that keeps it apart from the next token, extends the layout: its lexeme is spelled after the gap and its token read first |
| SourceLayout.Lay3 | src/parse/lexer.rs:23-67 | three plain tokens, each kept apart from the next, extend a layout in the same way |
| SourceLayout.NoArgExternLaid | tests/parser/naive_parser.rs:34-40 | `extern atan2()` in any margins is a layout spelling that text whose tokens are the statement's |
| SourceLayout.MultiArgExternLaid | tests/parser/naive_parser.rs:42-48 | `extern atan2(arg, arg2)` in any margins is a layout of that text |
| SourceLayout.AddLaid | tests/parser/naive_parser.rs:50-56 | `x + 1` in any margins is a layout of that text |
| SourceLayout.ChainLaid | tests/parser/naive_parser.rs:58-78 | `x + 2 -4 * q / y` in any margins is a layout of that text, `-4` being two tokens |
| SourceLayout.LongLaid | tests/parser/naive_parser.rs:80-104 | `x + 2 -4 * q / y + 2` in any margins is a layout of that text |
| SourceLayout.ParenLaid | tests/parser/naive_parser.rs:106-130 | `x / (2 - 4 + q) / y` in any margins is a layout of that text |
| SourceLayout.B2bLaid | tests/parser/naive_parser.rs:132-158 | the two statements separated by any non-empty whitespace are a layout of that text |
| SourceLayout.SingleArgFunctionLaid | tests/parser/naive_parser.rs:160-171 | `def my_tan(arg1)` with the body `arg1` after any whitespace is a layout of that text |
| SourceLayout.MultiArgFunctionLaid | tests/parser/naive_parser.rs:173-189 | `def my_tan(arg1, arg2)` with the body `arg1 + arg2` after any whitespace is a layout of that text |
| SourceExamples.ParseNoArgExternTest | tests/parser/naive_parser.rs:34-40 | a parser built over the test's source text yields the prototype `atan2()` as its first statement |
| SourceExamples.ParseMultiArgExternTest | tests/parser/naive_parser.rs:42-48 | a parser over the test's text yields the prototype `atan2(arg, arg2)` |
| SourceExamples.ParseAddTest | tests/parser/naive_parser.rs:50-56 | a parser over the test's text yields the sum of `x` and `1` |
| SourceExamples.ParseChainTest | tests/parser/naive_parser.rs:58-78 | a parser over the test's text yields the tree the test expects |
| SourceExamples.ParseLongTest | tests/parser/naive_parser.rs:80-104 | a parser over the test's text yields the tree the test expects |
| SourceExamples.ParseParenTest | tests/parser/naive_parser.rs:106-130 | a parser over the test's text yields the tree the test expects, with no node for the parentheses |
| SourceExamples.ParseB2bTest | tests/parser/naive_parser.rs:132-158 | one parser over the two-line text yields the expression tree and then the prototype, in two consecutive calls |
| SourceExamples.ParseSingleArgFunctionTest | tests/parser/naive_parser.rs:160-171 | a parser over the test's text yields the function `my_tan(arg1)` whose body is `arg1` |
| SourceExamples.ParseMultiArgFunctionTest | tests/parser/naive_parser.rs:173-189 | a parser over the test's text yields the function `my_tan(arg1, arg2)` whose body is the sum of the two |

## Left out

- The `codegen` stub of the syntax tree, code generation, `main`, the interactive loop and the pipelining stages do not belong to the front end.
- Floating-point values: a number is carried as its lexeme. The rendering of a number node (`Syntax.Display`) and the diagnostic text of a number token (`Tokens.Display`) are therefore the lexeme, where the code prints the `f64` value (`src/syntax/ast.rs:34` and `src/parse/token.rs:40`; `1.60` would print as `1.6`).
- `Lexing.ParseToken`: the abort on a malformed numeral is modelled as a `Malformed` scan, and the lexer and parser constructors require `WellLexed` input.
- Byte offsets: the code counts characters and then slices by byte offset. The model slices by characters, which is the same for ASCII text.
- Error messages: the parse error strings are abstracted to the `ParseError` values, one per message.
- The demonstration loop that prints `0 - 1` to `2 - 3` at the start of every tree rendering (`src/syntax/ast.rs:28-31`) writes to standard output and not to the rendering, so it is left out.
- Integer width: precedences are `i8` in the code. All of them lie in -1..31, so unbounded integers behave the same.
- `Parsing.Parser.ParseRhsLoop` requires a precedence in -1..30, which is what every caller passes: the precedence of an operator or of a non-operator.
- The body of the climbing loop (`src/parse/parser.rs:89-100`), the inner climbing loop (`src/parse/parser.rs:91-99`) and the argument loop (`src/parse/parser.rs:134-149`) are written as methods of their own (`ParseClimbStep`, `ParseRhsLoop`, `ParseCallArgs`) rather than inline.
- `tests/lexer.rs` and `tests/parser.rs` exercise an older lexer interface that is not part of this model.
- RoundTrip.SourceReadsBack: covers readable trees only. A call without arguments renders as `f()`, which the parser reads without its `)` (`src/parse/parser.rs:134`). A numeral or name that does not lex as one token cannot read back either, though the tree type allows it.
- `Syntax.DisplayBalanced` requires names and numerals without parentheses. The lexer never produces such names, but the tree type allows them.
