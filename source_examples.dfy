/** The lexer over whole inputs written as layouts: each token of a layout
    after its whitespace, in front of the rest. */
module SourceLayout {
  import opened Vocabulary
  import opened Tokens
  import opened Lexing
  import opened LexerLemmas

  /** Whitespace followed by whitespace is whitespace. */
  lemma {:induction false} WhitespaceJoin(a: string, b: string)
    requires AllWhitespace(a) && AllWhitespace(b)
    ensures AllWhitespace(a + b)
  {
    if |a| > 0 {
      WhitespaceJoin(a[1..], b);
      assert (a + b)[0] == a[0] && (a + b)[1..] == a[1..] + b;
    } else {
      assert a + b == b;
    }
  }

  /** A token the lexer reads back from its lexeme, other than a comment
      (which would run on over the whitespace after it). */
  predicate Plain(t: Token)
  {
    Lexable(t) && !t.TokComment?
  }

  /** Whitespace `g` between tokens `t` and `u` keeps them apart: it is not
      empty, or one of the two is a symbol. */
  predicate Apart(t: Token, g: string, u: Token)
  {
    g != "" || t.TokSymbol? || (u.TokSymbol? && IsSymbolChar(u.ch))
  }

  /** What follows `t` keeps it apart from the next token, if any. */
  predicate KeptApart(t: Token, r: Text)
  {
    r.Then? ==> Apart(t, r.gap, r.token)
  }

  /** Whitespace `g` in front of `s`, written so that an empty gap leaves
      `s` as it is. */
  function Glue(g: string, s: string): (r: string)
    ensures r == g + s
  {
    if g == "" then (assert g + s == s; s) else g + s
  }

  /** A plain token after whitespace, in front of a laid-out text that keeps
      it apart, is laid out: its lexeme comes after the gap and in front of
      the rest, and its token in front of theirs. */
  lemma Lay(g: string, t: Token, r: Text)
    requires AllWhitespace(g) && Plain(t) && WellSpaced(r) && KeptApart(t, r)
    ensures WellSpaced(Then(g, t, r))
    ensures Render(Then(g, t, r)) == Glue(g, Lexeme(t) + Render(r))
    ensures TokensOf(Then(g, t, r)) == [t] + TokensOf(r)
  {
  }

  /** Three plain tokens, each kept apart from the next, laid out in front
      of a text. */
  lemma Lay3(g0: string, t0: Token, g1: string, t1: Token, g2: string, t2: Token, r: Text)
    requires AllWhitespace(g0) && AllWhitespace(g1) && AllWhitespace(g2)
    requires Plain(t0) && Plain(t1) && Plain(t2) && Apart(t0, g1, t1) && Apart(t1, g2, t2)
    requires WellSpaced(r) && KeptApart(t2, r)
    ensures WellSpaced(Then(g0, t0, Then(g1, t1, Then(g2, t2, r))))
    ensures Render(Then(g0, t0, Then(g1, t1, Then(g2, t2, r)))) ==
      Glue(g0, Lexeme(t0) + Glue(g1, Lexeme(t1) + Glue(g2, Lexeme(t2) + Render(r))))
    ensures TokensOf(Then(g0, t0, Then(g1, t1, Then(g2, t2, r)))) == [t0] + ([t1] + ([t2] + TokensOf(r)))
  {
    Lay(g2, t2, r);
    Lay(g1, t1, Then(g2, t2, r));
    Lay(g0, t0, Then(g1, t1, Then(g2, t2, r)));
  }

  /** The symbols and keywords of the test inputs are plain, and a symbol
      needs no whitespace around it. */
  lemma SymbolsPlain()
    ensures Plain(TokExtern) && Plain(TokDef)
    ensures forall c :: c in "+-*/()," ==> Plain(TokSymbol(c)) && IsSymbolChar(c)
  {
  }

  /* Each test input as a text: any whitespace `lead` in front of it and
     `tail` after it (`mid` between two statements, `body` in front of a
     definition's body), any plain tokens for its names and numerals, and
     the gaps the test writes between its tokens. Each `...Laid` lemma lays
     the text out: it is well spaced, renders as the input spells it, and
     its tokens are the input's tokens in order. */

  // `extern atan2()`

  function NoArgExternText(lead: string, tail: string, atan2: Token): Text
  {
    Then(lead, TokExtern, Then(" ", atan2, Then("", TokSymbol('('), Then("", TokSymbol(')'), End(tail)))))
  }

  lemma NoArgExternLaid(lead: string, tail: string, atan2: Token) returns (laid: Text)
    requires AllWhitespace(lead) && AllWhitespace(tail)
    requires Plain(atan2)
    ensures laid == NoArgExternText(lead, tail, atan2) && WellSpaced(laid)
    ensures Render(laid) ==
      lead + ("extern" + (" " + (Lexeme(atan2) + ("(" + (")" + tail)))))
    ensures TokensOf(laid) == [TokExtern] + ([atan2] + ([TokSymbol('(')] + ([TokSymbol(')')] + [])))
  {
    SymbolsPlain();
    var r4 := End(tail);
    Lay3(" ", atan2, "", TokSymbol('('), "", TokSymbol(')'), r4);
    var r1 := Then(" ", atan2, Then("", TokSymbol('('), Then("", TokSymbol(')'), r4)));
    Lay(lead, TokExtern, r1);
    laid := Then(lead, TokExtern, r1);
  }

  // `extern atan2(arg, arg2)`

  function MultiArgExternText(lead: string, tail: string, atan2: Token, arg: Token, arg2: Token): Text
  {
    Then(lead, TokExtern, Then(" ", atan2, Then("", TokSymbol('('), Then("", arg, Then("", TokSymbol(','), Then(" ", arg2, Then("", TokSymbol(')'), End(tail))))))))
  }

  lemma MultiArgExternLaid(lead: string, tail: string, atan2: Token, arg: Token, arg2: Token) returns (laid: Text)
    requires AllWhitespace(lead) && AllWhitespace(tail)
    requires Plain(atan2) && Plain(arg) && Plain(arg2)
    ensures laid == MultiArgExternText(lead, tail, atan2, arg, arg2) && WellSpaced(laid)
    ensures Render(laid) ==
      lead + ("extern" + (" " + (Lexeme(atan2) + ("(" + (Lexeme(arg) + ("," + (" " + (Lexeme(arg2) + (")" + tail)))))))))
    ensures TokensOf(laid) == [TokExtern] + ([atan2] + ([TokSymbol('(')] + ([arg] + ([TokSymbol(',')] + ([arg2] + ([TokSymbol(')')] + []))))))
  {
    SymbolsPlain();
    var r7 := End(tail);
    Lay3("", TokSymbol(','), " ", arg2, "", TokSymbol(')'), r7);
    var r4 := Then("", TokSymbol(','), Then(" ", arg2, Then("", TokSymbol(')'), r7)));
    Lay3(" ", atan2, "", TokSymbol('('), "", arg, r4);
    var r1 := Then(" ", atan2, Then("", TokSymbol('('), Then("", arg, r4)));
    Lay(lead, TokExtern, r1);
    laid := Then(lead, TokExtern, r1);
  }

  // `x + 1`

  function AddText(lead: string, tail: string, x: Token, n1: Token): Text
  {
    Then(lead, x, Then(" ", TokSymbol('+'), Then(" ", n1, End(tail))))
  }

  lemma AddLaid(lead: string, tail: string, x: Token, n1: Token) returns (laid: Text)
    requires AllWhitespace(lead) && AllWhitespace(tail)
    requires Plain(x) && Plain(n1)
    ensures laid == AddText(lead, tail, x, n1) && WellSpaced(laid)
    ensures Render(laid) ==
      lead + (Lexeme(x) + (" " + ("+" + (" " + (Lexeme(n1) + tail)))))
    ensures TokensOf(laid) == [x] + ([TokSymbol('+')] + ([n1] + []))
  {
    SymbolsPlain();
    var r3 := End(tail);
    Lay3(lead, x, " ", TokSymbol('+'), " ", n1, r3);
    laid := Then(lead, x, Then(" ", TokSymbol('+'), Then(" ", n1, r3)));
  }

  // `x + 2 -4 * q / y`

  function ChainText(lead: string, tail: string, x: Token, n2: Token, n4: Token, q: Token, y: Token): Text
  {
    Then(lead, x, Then(" ", TokSymbol('+'), Then(" ", n2, Then(" ", TokSymbol('-'), Then("", n4, Then(" ", TokSymbol('*'), Then(" ", q, Then(" ", TokSymbol('/'), Then(" ", y, End(tail))))))))))
  }

  lemma ChainLaid(lead: string, tail: string, x: Token, n2: Token, n4: Token, q: Token, y: Token) returns (laid: Text)
    requires AllWhitespace(lead) && AllWhitespace(tail)
    requires Plain(x) && Plain(n2) && Plain(n4) && Plain(q) && Plain(y)
    ensures laid == ChainText(lead, tail, x, n2, n4, q, y) && WellSpaced(laid)
    ensures Render(laid) ==
      lead + (Lexeme(x) + (" " + ("+" + (" " + (Lexeme(n2) + (" " + ("-" + (Lexeme(n4) + (" " + ("*" + (" " + (Lexeme(q) + (" " + ("/" + (" " + (Lexeme(y) + tail))))))))))))))))
    ensures TokensOf(laid) == [x] + ([TokSymbol('+')] + ([n2] + ([TokSymbol('-')] + ([n4] + ([TokSymbol('*')] + ([q] + ([TokSymbol('/')] + ([y] + []))))))))
  {
    SymbolsPlain();
    var r9 := End(tail);
    Lay3(" ", q, " ", TokSymbol('/'), " ", y, r9);
    var r6 := Then(" ", q, Then(" ", TokSymbol('/'), Then(" ", y, r9)));
    Lay3(" ", TokSymbol('-'), "", n4, " ", TokSymbol('*'), r6);
    var r3 := Then(" ", TokSymbol('-'), Then("", n4, Then(" ", TokSymbol('*'), r6)));
    Lay3(lead, x, " ", TokSymbol('+'), " ", n2, r3);
    laid := Then(lead, x, Then(" ", TokSymbol('+'), Then(" ", n2, r3)));
  }

  // `x + 2 -4 * q / y + 2`

  function LongText(lead: string, tail: string, x: Token, n2: Token, n4: Token, q: Token, y: Token): Text
  {
    Then(lead, x, Then(" ", TokSymbol('+'), Then(" ", n2, Then(" ", TokSymbol('-'), Then("", n4, Then(" ", TokSymbol('*'), Then(" ", q, Then(" ", TokSymbol('/'), Then(" ", y, Then(" ", TokSymbol('+'), Then(" ", n2, End(tail))))))))))))
  }

  lemma LongLaid(lead: string, tail: string, x: Token, n2: Token, n4: Token, q: Token, y: Token) returns (laid: Text)
    requires AllWhitespace(lead) && AllWhitespace(tail)
    requires Plain(x) && Plain(n2) && Plain(n4) && Plain(q) && Plain(y)
    ensures laid == LongText(lead, tail, x, n2, n4, q, y) && WellSpaced(laid)
    ensures Render(laid) ==
      lead + (Lexeme(x) + (" " + ("+" + (" " + (Lexeme(n2) + (" " + ("-" + (Lexeme(n4) + (" " + ("*" + (" " + (Lexeme(q) + (" " + ("/" + (" " + (Lexeme(y) + (" " + ("+" + (" " + (Lexeme(n2) + tail))))))))))))))))))))
    ensures TokensOf(laid) == [x] + ([TokSymbol('+')] + ([n2] + ([TokSymbol('-')] + ([n4] + ([TokSymbol('*')] + ([q] + ([TokSymbol('/')] + ([y] + ([TokSymbol('+')] + ([n2] + []))))))))))
  {
    SymbolsPlain();
    var r11 := End(tail);
    Lay3(" ", y, " ", TokSymbol('+'), " ", n2, r11);
    var r8 := Then(" ", y, Then(" ", TokSymbol('+'), Then(" ", n2, r11)));
    Lay3(" ", TokSymbol('*'), " ", q, " ", TokSymbol('/'), r8);
    var r5 := Then(" ", TokSymbol('*'), Then(" ", q, Then(" ", TokSymbol('/'), r8)));
    Lay3(" ", n2, " ", TokSymbol('-'), "", n4, r5);
    var r2 := Then(" ", n2, Then(" ", TokSymbol('-'), Then("", n4, r5)));
    Lay(" ", TokSymbol('+'), r2);
    var r1 := Then(" ", TokSymbol('+'), r2);
    Lay(lead, x, r1);
    laid := Then(lead, x, r1);
  }

  // `x / (2 - 4 + q) / y`

  function ParenText(lead: string, tail: string, x: Token, n2: Token, n4: Token, q: Token, y: Token): Text
  {
    Then(lead, x, Then(" ", TokSymbol('/'), Then(" ", TokSymbol('('), Then("", n2, Then(" ", TokSymbol('-'), Then(" ", n4, Then(" ", TokSymbol('+'), Then(" ", q, Then("", TokSymbol(')'), Then(" ", TokSymbol('/'), Then(" ", y, End(tail))))))))))))
  }

  lemma ParenLaid(lead: string, tail: string, x: Token, n2: Token, n4: Token, q: Token, y: Token) returns (laid: Text)
    requires AllWhitespace(lead) && AllWhitespace(tail)
    requires Plain(x) && Plain(n2) && Plain(n4) && Plain(q) && Plain(y)
    ensures laid == ParenText(lead, tail, x, n2, n4, q, y) && WellSpaced(laid)
    ensures Render(laid) ==
      lead + (Lexeme(x) + (" " + ("/" + (" " + ("(" + (Lexeme(n2) + (" " + ("-" + (" " + (Lexeme(n4) + (" " + ("+" + (" " + (Lexeme(q) + (")" + (" " + ("/" + (" " + (Lexeme(y) + tail)))))))))))))))))))
    ensures TokensOf(laid) == [x] + ([TokSymbol('/')] + ([TokSymbol('(')] + ([n2] + ([TokSymbol('-')] + ([n4] + ([TokSymbol('+')] + ([q] + ([TokSymbol(')')] + ([TokSymbol('/')] + ([y] + []))))))))))
  {
    SymbolsPlain();
    var r11 := End(tail);
    Lay3("", TokSymbol(')'), " ", TokSymbol('/'), " ", y, r11);
    var r8 := Then("", TokSymbol(')'), Then(" ", TokSymbol('/'), Then(" ", y, r11)));
    Lay3(" ", n4, " ", TokSymbol('+'), " ", q, r8);
    var r5 := Then(" ", n4, Then(" ", TokSymbol('+'), Then(" ", q, r8)));
    Lay3(" ", TokSymbol('('), "", n2, " ", TokSymbol('-'), r5);
    var r2 := Then(" ", TokSymbol('('), Then("", n2, Then(" ", TokSymbol('-'), r5)));
    Lay(" ", TokSymbol('/'), r2);
    var r1 := Then(" ", TokSymbol('/'), r2);
    Lay(lead, x, r1);
    laid := Then(lead, x, r1);
  }

  // `x * (z * q) / y` and, on the next line, `extern atan2(arg, arg2)`

  function B2bText(lead: string, mid: string, tail: string, x: Token, z: Token, q: Token, y: Token, atan2: Token, arg: Token, arg2: Token): Text
  {
    Then(lead, x, Then(" ", TokSymbol('*'), Then(" ", TokSymbol('('), Then("", z, Then(" ", TokSymbol('*'), Then(" ", q, Then("", TokSymbol(')'), Then(" ", TokSymbol('/'), Then(" ", y, MultiArgExternText(mid, tail, atan2, arg, arg2))))))))))
  }

  lemma B2bLaid(lead: string, mid: string, tail: string, x: Token, z: Token, q: Token, y: Token, atan2: Token, arg: Token, arg2: Token) returns (laid: Text)
    requires AllWhitespace(lead) && AllWhitespace(mid) && AllWhitespace(tail)
    requires Plain(x) && Plain(z) && Plain(q) && Plain(y) && Plain(atan2) && Plain(arg) && Plain(arg2)
    requires mid != ""
    ensures laid == B2bText(lead, mid, tail, x, z, q, y, atan2, arg, arg2) && WellSpaced(laid)
    ensures Render(laid) ==
      lead + (Lexeme(x) + (" " + ("*" + (" " + ("(" + (Lexeme(z) + (" " + ("*" + (" " + (Lexeme(q) + (")" + (" " + ("/" + (" " + (Lexeme(y) + (mid + ("extern" + (" " + (Lexeme(atan2) + ("(" + (Lexeme(arg) + ("," + (" " + (Lexeme(arg2) + (")" + tail)))))))))))))))))))))))))
    ensures TokensOf(laid) == [x] + ([TokSymbol('*')] + ([TokSymbol('(')] + ([z] + ([TokSymbol('*')] + ([q] + ([TokSymbol(')')] + ([TokSymbol('/')] + ([y] + ([TokExtern] + ([atan2] + ([TokSymbol('(')] + ([arg] + ([TokSymbol(',')] + ([arg2] + ([TokSymbol(')')] + [])))))))))))))))
  {
    SymbolsPlain();
    var r9 := MultiArgExternLaid(mid, tail, atan2, arg, arg2);
    Lay3("", TokSymbol(')'), " ", TokSymbol('/'), " ", y, r9);
    var r6 := Then("", TokSymbol(')'), Then(" ", TokSymbol('/'), Then(" ", y, r9)));
    Lay3("", z, " ", TokSymbol('*'), " ", q, r6);
    var r3 := Then("", z, Then(" ", TokSymbol('*'), Then(" ", q, r6)));
    Lay3(lead, x, " ", TokSymbol('*'), " ", TokSymbol('('), r3);
    laid := Then(lead, x, Then(" ", TokSymbol('*'), Then(" ", TokSymbol('('), r3)));
  }

  // `def my_tan(arg1)` with the body `arg1` on the next line

  function SingleArgFunctionText(lead: string, body: string, tail: string, my_tan: Token, arg1: Token): Text
  {
    Then(lead, TokDef, Then(" ", my_tan, Then("", TokSymbol('('), Then("", arg1, Then("", TokSymbol(')'), Then(body, arg1, End(tail)))))))
  }

  lemma SingleArgFunctionLaid(lead: string, body: string, tail: string, my_tan: Token, arg1: Token) returns (laid: Text)
    requires AllWhitespace(lead) && AllWhitespace(body) && AllWhitespace(tail)
    requires Plain(my_tan) && Plain(arg1)
    ensures laid == SingleArgFunctionText(lead, body, tail, my_tan, arg1) && WellSpaced(laid)
    ensures Render(laid) ==
      lead + ("def" + (" " + (Lexeme(my_tan) + ("(" + (Lexeme(arg1) + (")" + (body + (Lexeme(arg1) + tail))))))))
    ensures TokensOf(laid) == [TokDef] + ([my_tan] + ([TokSymbol('(')] + ([arg1] + ([TokSymbol(')')] + ([arg1] + [])))))
  {
    SymbolsPlain();
    var r6 := End(tail);
    Lay3("", arg1, "", TokSymbol(')'), body, arg1, r6);
    var r3 := Then("", arg1, Then("", TokSymbol(')'), Then(body, arg1, r6)));
    Lay3(lead, TokDef, " ", my_tan, "", TokSymbol('('), r3);
    laid := Then(lead, TokDef, Then(" ", my_tan, Then("", TokSymbol('('), r3)));
  }

  // `def my_tan(arg1, arg2)` with the body `arg1 + arg2` on the next line

  function MultiArgFunctionText(lead: string, body: string, tail: string, my_tan: Token, arg1: Token, arg2: Token): Text
  {
    Then(lead, TokDef, Then(" ", my_tan, Then("", TokSymbol('('), Then("", arg1, Then("", TokSymbol(','), Then(" ", arg2, Then("", TokSymbol(')'), Then(body, arg1, Then(" ", TokSymbol('+'), Then(" ", arg2, End(tail)))))))))))
  }

  lemma MultiArgFunctionLaid(lead: string, body: string, tail: string, my_tan: Token, arg1: Token, arg2: Token) returns (laid: Text)
    requires AllWhitespace(lead) && AllWhitespace(body) && AllWhitespace(tail)
    requires Plain(my_tan) && Plain(arg1) && Plain(arg2)
    ensures laid == MultiArgFunctionText(lead, body, tail, my_tan, arg1, arg2) && WellSpaced(laid)
    ensures Render(laid) ==
      lead + ("def" + (" " + (Lexeme(my_tan) + ("(" + (Lexeme(arg1) + ("," + (" " + (Lexeme(arg2) + (")" + (body + (Lexeme(arg1) + (" " + ("+" + (" " + (Lexeme(arg2) + tail)))))))))))))))
    ensures TokensOf(laid) == [TokDef] + ([my_tan] + ([TokSymbol('(')] + ([arg1] + ([TokSymbol(',')] + ([arg2] + ([TokSymbol(')')] + ([arg1] + ([TokSymbol('+')] + ([arg2] + [])))))))))
  {
    SymbolsPlain();
    var r10 := End(tail);
    Lay3(body, arg1, " ", TokSymbol('+'), " ", arg2, r10);
    var r7 := Then(body, arg1, Then(" ", TokSymbol('+'), Then(" ", arg2, r10)));
    Lay3("", TokSymbol(','), " ", arg2, "", TokSymbol(')'), r7);
    var r4 := Then("", TokSymbol(','), Then(" ", arg2, Then("", TokSymbol(')'), r7)));
    Lay3(" ", my_tan, "", TokSymbol('('), "", arg1, r4);
    var r1 := Then(" ", my_tan, Then("", TokSymbol('('), Then("", arg1, r4)));
    Lay(lead, TokDef, r1);
    laid := Then(lead, TokDef, r1);
  }
}

/** The parser's tests end to end: each test input, exactly as the test
    writes it, its layout, and a method that builds a parser over the input
    and asks it for as many statements as the test does. */
module SourceExamples {
  import opened Tokens
  import opened Lexing
  import opened LexerLemmas
  import opened LexExamples
  import opened Syntax
  import opened ParseSpec
  import opened Parsing
  import opened ParseExamples
  import opened SourceLayout

  /** The line break and indentation in front of a statement, in front of a
      definition's body, and in front of the end of a test input. */
  const Indent := "\n            "
  const BodyIndent := "\n                "
  const Closing := "\n        "

  /** The margins are whitespace. */
  lemma Margins()
    ensures AllWhitespace(Indent) && AllWhitespace(BodyIndent) && AllWhitespace(Closing)
  {
    var four := "    ";
    assert AllWhitespace(four) && AllWhitespace("\n");
    WhitespaceJoin("\n", four);
    WhitespaceJoin("\n" + four, four);
    WhitespaceJoin("\n" + four + four, four);
    WhitespaceJoin("\n" + four + four + four, four);
    assert Closing == "\n" + four + four;
    assert Indent == "\n" + four + four + four;
    assert BodyIndent == "\n" + four + four + four + four;
  }

  /** The names and numerals the test inputs use are plain tokens, spelled
      as written. */
  lemma NameLexemes()
    ensures Plain(TokIdentifier("x")) && Plain(TokIdentifier("y")) && Plain(TokIdentifier("z")) && Plain(TokIdentifier("q"))
    ensures Lexeme(TokIdentifier("x")) == "x" && Lexeme(TokIdentifier("y")) == "y" && Lexeme(TokIdentifier("z")) == "z" && Lexeme(TokIdentifier("q")) == "q"
  {
    PlainIdentifier("x");
    PlainIdentifier("y");
    PlainIdentifier("z");
    PlainIdentifier("q");
  }

  lemma ExternLexemes()
    ensures Plain(TokIdentifier("atan2")) && Plain(TokIdentifier("arg")) && Plain(TokIdentifier("arg2"))
    ensures Lexeme(TokIdentifier("atan2")) == "atan2" && Lexeme(TokIdentifier("arg")) == "arg" && Lexeme(TokIdentifier("arg2")) == "arg2"
  {
    PlainIdentifier("atan2");
    PlainIdentifier("arg");
    PlainIdentifier("arg2");
  }

  lemma DefLexemes()
    ensures Plain(TokIdentifier("my_tan")) && Plain(TokIdentifier("arg1")) && Plain(TokIdentifier("arg2"))
    ensures Lexeme(TokIdentifier("my_tan")) == "my_tan" && Lexeme(TokIdentifier("arg1")) == "arg1" && Lexeme(TokIdentifier("arg2")) == "arg2"
  {
    PlainIdentifier("my_tan");
    PlainIdentifier("arg1");
    PlainIdentifier("arg2");
  }

  lemma NumberLexemes()
    ensures Plain(TokNumber("1")) && Plain(TokNumber("2")) && Plain(TokNumber("4"))
    ensures Lexeme(TokNumber("1")) == "1" && Lexeme(TokNumber("2")) == "2" && Lexeme(TokNumber("4")) == "4"
  {
    PlainNumber("1");
    PlainNumber("2");
    PlainNumber("4");
  }

  /* Each test: the input as the test writes it; a `...Spelling` lemma that
     the layout spells it; a `...Listed` lemma that the layout's tokens,
     then the end of input, are the tokens the parser's examples read; and
     the method that builds a parser over the input and asks it for the
     test's statements. */

  // `extern atan2()`

  const NoArgExternSource := Indent + "extern atan2()" + Closing

  lemma NoArgExternSpelling(lead: string, tail: string)
    ensures lead + ("extern" + (" " + ("atan2" + ("(" + (")" + tail))))) ==
      lead + "extern atan2()" + tail
  {
  }

  lemma NoArgExternListed()
    ensures [TokExtern] + ([TokIdentifier("atan2")] + ([TokSymbol('(')] + ([TokSymbol(')')] + []))) + [TokEof] == NoArgExternTokens
  {
  }

  /** `extern atan2()` */
  method ParseNoArgExternTest() returns (r: Outcome<Ast>)
    ensures r == Ok(Prototype("atan2", []))
  {
    ExternLexemes();
    Margins();
    ghost var laid := NoArgExternLaid(Indent, Closing, TokIdentifier("atan2"));
    NoArgExternSpelling(Indent, Closing);
    NoArgExternListed();
    LaidOut(laid, NoArgExternSource, NoArgExternTokens);
    NoArgExternParses();
    var p := new Parser(NoArgExternSource);
    r := p.BuildNextAst();
  }

  // `extern atan2(arg, arg2)`

  const MultiArgExternSource := Indent + "extern atan2(arg, arg2)" + Closing

  lemma MultiArgExternSpelling(lead: string, tail: string)
    ensures lead + ("extern" + (" " + ("atan2" + ("(" + ("arg" + ("," + (" " + ("arg2" + (")" + tail))))))))) ==
      lead + "extern atan2(arg, arg2)" + tail
  {
  }

  lemma MultiArgExternListed()
    ensures [TokExtern] + ([TokIdentifier("atan2")] + ([TokSymbol('(')] + ([TokIdentifier("arg")] + ([TokSymbol(',')] + ([TokIdentifier("arg2")] + ([TokSymbol(')')] + [])))))) + [TokEof] == MultiArgExternTokens
  {
  }

  /** `extern atan2(arg, arg2)` */
  method ParseMultiArgExternTest() returns (r: Outcome<Ast>)
    ensures r == Ok(Prototype("atan2", ["arg", "arg2"]))
  {
    ExternLexemes();
    Margins();
    ghost var laid := MultiArgExternLaid(Indent, Closing, TokIdentifier("atan2"), TokIdentifier("arg"), TokIdentifier("arg2"));
    MultiArgExternSpelling(Indent, Closing);
    MultiArgExternListed();
    LaidOut(laid, MultiArgExternSource, MultiArgExternTokens);
    MultiArgExternParses();
    var p := new Parser(MultiArgExternSource);
    r := p.BuildNextAst();
  }

  // `x + 1`

  const AddSource := Indent + "x + 1" + Closing

  lemma AddSpelling(lead: string, tail: string)
    ensures lead + ("x" + (" " + ("+" + (" " + ("1" + tail))))) ==
      lead + "x + 1" + tail
  {
  }

  lemma AddListed()
    ensures [TokIdentifier("x")] + ([TokSymbol('+')] + ([TokNumber("1")] + [])) + [TokEof] == AddTokens
  {
  }

  /** `x + 1` */
  method ParseAddTest() returns (r: Outcome<Ast>)
    ensures r == Ok(AddTree)
  {
    NameLexemes();
    NumberLexemes();
    Margins();
    ghost var laid := AddLaid(Indent, Closing, TokIdentifier("x"), TokNumber("1"));
    AddSpelling(Indent, Closing);
    AddListed();
    LaidOut(laid, AddSource, AddTokens);
    AddParses();
    var p := new Parser(AddSource);
    r := p.BuildNextAst();
  }

  // `x + 2 -4 * q / y`

  const ChainSource := Indent + "x + 2 -4 * q / y" + Closing

  lemma ChainSpelling(lead: string, tail: string)
    ensures lead + ("x" + (" " + ("+" + (" " + ("2" + (" " + ("-" + ("4" + (" " + ("*" + (" " + ("q" + (" " + ("/" + (" " + ("y" + tail)))))))))))))))) ==
      lead + "x + 2 -4 * q / y" + tail
  {
  }

  lemma ChainListed()
    ensures [TokIdentifier("x")] + ([TokSymbol('+')] + ([TokNumber("2")] + ([TokSymbol('-')] + ([TokNumber("4")] + ([TokSymbol('*')] + ([TokIdentifier("q")] + ([TokSymbol('/')] + ([TokIdentifier("y")] + [])))))))) + [TokEof] == ChainTokens
  {
  }

  /** `x + 2 -4 * q / y` */
  method ParseChainTest() returns (r: Outcome<Ast>)
    ensures r == Ok(ChainTree)
  {
    NameLexemes();
    NumberLexemes();
    Margins();
    ghost var laid := ChainLaid(Indent, Closing, TokIdentifier("x"), TokNumber("2"), TokNumber("4"), TokIdentifier("q"), TokIdentifier("y"));
    ChainSpelling(Indent, Closing);
    ChainListed();
    LaidOut(laid, ChainSource, ChainTokens);
    ChainParses();
    var p := new Parser(ChainSource);
    r := p.BuildNextAst();
  }

  // `x + 2 -4 * q / y + 2`

  const LongSource := Indent + "x + 2 -4 * q / y + 2" + Closing

  lemma LongSpelling(lead: string, tail: string)
    ensures lead + ("x" + (" " + ("+" + (" " + ("2" + (" " + ("-" + ("4" + (" " + ("*" + (" " + ("q" + (" " + ("/" + (" " + ("y" + (" " + ("+" + (" " + ("2" + tail)))))))))))))))))))) ==
      lead + "x + 2 -4 * q / y + 2" + tail
  {
  }

  lemma LongListed()
    ensures [TokIdentifier("x")] + ([TokSymbol('+')] + ([TokNumber("2")] + ([TokSymbol('-')] + ([TokNumber("4")] + ([TokSymbol('*')] + ([TokIdentifier("q")] + ([TokSymbol('/')] + ([TokIdentifier("y")] + ([TokSymbol('+')] + ([TokNumber("2")] + [])))))))))) + [TokEof] == LongTokens
  {
  }

  /** `x + 2 -4 * q / y + 2` */
  method ParseLongTest() returns (r: Outcome<Ast>)
    ensures r == Ok(LongTree)
  {
    NameLexemes();
    NumberLexemes();
    Margins();
    ghost var laid := LongLaid(Indent, Closing, TokIdentifier("x"), TokNumber("2"), TokNumber("4"), TokIdentifier("q"), TokIdentifier("y"));
    LongSpelling(Indent, Closing);
    LongListed();
    LaidOut(laid, LongSource, LongTokens);
    LongParses();
    var p := new Parser(LongSource);
    r := p.BuildNextAst();
  }

  // `x / (2 - 4 + q) / y`

  const ParenSource := Indent + "x / (2 - 4 + q) / y" + Closing

  lemma ParenSpelling(lead: string, tail: string)
    ensures lead + ("x" + (" " + ("/" + (" " + ("(" + ("2" + (" " + ("-" + (" " + ("4" + (" " + ("+" + (" " + ("q" + (")" + (" " + ("/" + (" " + ("y" + tail))))))))))))))))))) ==
      lead + "x / (2 - 4 + q) / y" + tail
  {
  }

  lemma ParenListed()
    ensures [TokIdentifier("x")] + ([TokSymbol('/')] + ([TokSymbol('(')] + ([TokNumber("2")] + ([TokSymbol('-')] + ([TokNumber("4")] + ([TokSymbol('+')] + ([TokIdentifier("q")] + ([TokSymbol(')')] + ([TokSymbol('/')] + ([TokIdentifier("y")] + [])))))))))) + [TokEof] == ParenTokens
  {
  }

  /** `x / (2 - 4 + q) / y` */
  method ParseParenTest() returns (r: Outcome<Ast>)
    ensures r == Ok(ParenTree)
  {
    NameLexemes();
    NumberLexemes();
    Margins();
    ghost var laid := ParenLaid(Indent, Closing, TokIdentifier("x"), TokNumber("2"), TokNumber("4"), TokIdentifier("q"), TokIdentifier("y"));
    ParenSpelling(Indent, Closing);
    ParenListed();
    LaidOut(laid, ParenSource, ParenTokens);
    ParenParses();
    var p := new Parser(ParenSource);
    r := p.BuildNextAst();
  }

  // `x * (z * q) / y` and, on the next line, `extern atan2(arg, arg2)`

  const B2bSource := Indent + "x * (z * q) / y" + Indent + "extern atan2(arg, arg2)" + Closing

  lemma B2bSpelling(lead: string, mid: string, tail: string)
    ensures lead + ("x" + (" " + ("*" + (" " + ("(" + ("z" + (" " + ("*" + (" " + ("q" + (")" + (" " + ("/" + (" " + ("y" + (mid + ("extern" + (" " + ("atan2" + ("(" + ("arg" + ("," + (" " + ("arg2" + (")" + tail))))))))))))))))))))))))) ==
      lead + "x * (z * q) / y" + mid + "extern atan2(arg, arg2)" + tail
  {
  }

  lemma B2bListed()
    ensures [TokIdentifier("x")] + ([TokSymbol('*')] + ([TokSymbol('(')] + ([TokIdentifier("z")] + ([TokSymbol('*')] + ([TokIdentifier("q")] + ([TokSymbol(')')] + ([TokSymbol('/')] + ([TokIdentifier("y")] + ([TokExtern] + ([TokIdentifier("atan2")] + ([TokSymbol('(')] + ([TokIdentifier("arg")] + ([TokSymbol(',')] + ([TokIdentifier("arg2")] + ([TokSymbol(')')] + []))))))))))))))) + [TokEof] == B2bTokens
  {
  }

  /** `x * (z * q) / y` and, on the next line, `extern atan2(arg, arg2)` */
  method ParseB2bTest() returns (first: Outcome<Ast>, second: Outcome<Ast>)
    ensures first == Ok(B2bTree) && second == Ok(Prototype("atan2", ["arg", "arg2"]))
  {
    NameLexemes();
    ExternLexemes();
    Margins();
    ghost var laid := B2bLaid(Indent, Indent, Closing, TokIdentifier("x"), TokIdentifier("z"), TokIdentifier("q"), TokIdentifier("y"), TokIdentifier("atan2"), TokIdentifier("arg"), TokIdentifier("arg2"));
    B2bSpelling(Indent, Indent, Closing);
    B2bListed();
    LaidOut(laid, B2bSource, B2bTokens);
    B2bParses();
    var p := new Parser(B2bSource);
    first := p.BuildNextAst();
    second := p.BuildNextAst();
  }

  // `def my_tan(arg1)` with the body `arg1` on the next line

  const SingleArgFunctionSource := Indent + "def my_tan(arg1)" + BodyIndent + "arg1" + Closing

  lemma SingleArgFunctionSpelling(lead: string, body: string, tail: string)
    ensures lead + ("def" + (" " + ("my_tan" + ("(" + ("arg1" + (")" + (body + ("arg1" + tail)))))))) ==
      lead + "def my_tan(arg1)" + body + "arg1" + tail
  {
  }

  lemma SingleArgFunctionListed()
    ensures [TokDef] + ([TokIdentifier("my_tan")] + ([TokSymbol('(')] + ([TokIdentifier("arg1")] + ([TokSymbol(')')] + ([TokIdentifier("arg1")] + []))))) + [TokEof] == SingleArgTokens
  {
  }

  /** `def my_tan(arg1)` with the body `arg1` on the next line */
  method ParseSingleArgFunctionTest() returns (r: Outcome<Ast>)
    ensures r == Ok(Function(Prototype("my_tan", ["arg1"]), Var("arg1")))
  {
    DefLexemes();
    Margins();
    ghost var laid := SingleArgFunctionLaid(Indent, BodyIndent, Closing, TokIdentifier("my_tan"), TokIdentifier("arg1"));
    SingleArgFunctionSpelling(Indent, BodyIndent, Closing);
    SingleArgFunctionListed();
    LaidOut(laid, SingleArgFunctionSource, SingleArgTokens);
    SingleArgFunctionParses();
    var p := new Parser(SingleArgFunctionSource);
    r := p.BuildNextAst();
  }

  // `def my_tan(arg1, arg2)` with the body `arg1 + arg2` on the next line

  const MultiArgFunctionSource := Indent + "def my_tan(arg1, arg2)" + BodyIndent + "arg1 + arg2" + Closing

  lemma MultiArgFunctionSpelling(lead: string, body: string, tail: string)
    ensures lead + ("def" + (" " + ("my_tan" + ("(" + ("arg1" + ("," + (" " + ("arg2" + (")" + (body + ("arg1" + (" " + ("+" + (" " + ("arg2" + tail))))))))))))))) ==
      lead + "def my_tan(arg1, arg2)" + body + "arg1 + arg2" + tail
  {
  }

  lemma MultiArgFunctionListed()
    ensures [TokDef] + ([TokIdentifier("my_tan")] + ([TokSymbol('(')] + ([TokIdentifier("arg1")] + ([TokSymbol(',')] + ([TokIdentifier("arg2")] + ([TokSymbol(')')] + ([TokIdentifier("arg1")] + ([TokSymbol('+')] + ([TokIdentifier("arg2")] + []))))))))) + [TokEof] == MultiArgTokens
  {
  }

  /** `def my_tan(arg1, arg2)` with the body `arg1 + arg2` on the next line */
  method ParseMultiArgFunctionTest() returns (r: Outcome<Ast>)
    ensures r == Ok(Function(Prototype("my_tan", ["arg1", "arg2"]), MultiArgTree))
  {
    DefLexemes();
    Margins();
    ghost var laid := MultiArgFunctionLaid(Indent, BodyIndent, Closing, TokIdentifier("my_tan"), TokIdentifier("arg1"), TokIdentifier("arg2"));
    MultiArgFunctionSpelling(Indent, BodyIndent, Closing);
    MultiArgFunctionListed();
    LaidOut(laid, MultiArgFunctionSource, MultiArgTokens);
    MultiArgFunctionParses();
    var p := new Parser(MultiArgFunctionSource);
    r := p.BuildNextAst();
  }
}
