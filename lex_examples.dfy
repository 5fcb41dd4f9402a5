/** The lexer's test inputs with the first token the lexer delivers for each.
    Numbers are carried as their lexemes. */
module LexExamples {
  import opened Vocabulary
  import opened Tokens
  import opened Lexing
  import opened LexerLemmas

  /** Letters, digits, `_` and `.` continue a word and a comment. */
  lemma PlainChar(c: char)
    requires IsLetter(c) || IsDigit(c) || c == '_' || c == '.'
    ensures IsWordChar(c) && IsCommentChar(c)
  {
  }

  /** A name of letters, digits and `_` that starts with a letter and is not
      a keyword is lexed as an identifier. */
  lemma PlainIdentifier(n: string)
    requires |n| > 0 && IsLetter(n[0]) && n != "def" && n != "extern"
    requires forall i :: 0 <= i < |n| ==> IsLetter(n[i]) || IsDigit(n[i]) || n[i] == '_'
    ensures Lexable(TokIdentifier(n))
  {
    forall i | 0 <= i < |n| ensures IsWordChar(n[i]) {
      PlainChar(n[i]);
    }
  }

  /** A numeral of digits and `.` is lexed as a number. */
  lemma PlainNumber(v: string)
    requires IsNumeral(v) && forall i :: 0 <= i < |v| ==> IsDigit(v[i]) || v[i] == '.'
    ensures Lexable(TokNumber(v))
  {
    forall i | 0 <= i < |v| ensures IsWordChar(v[i]) {
      PlainChar(v[i]);
    }
  }

  /** `#` and then letters, digits, spaces and `#` is lexed as a comment. */
  lemma PlainComment(s: string)
    requires |s| > 0 && s[0] == '#'
    requires forall i :: 0 <= i < |s| ==> IsLetter(s[i]) || IsDigit(s[i]) || s[i] == ' ' || s[i] == '#'
    ensures Lexable(TokComment(s))
  {
    forall i | 0 <= i < |s| ensures IsCommentChar(s[i]) {
      if IsLetter(s[i]) || IsDigit(s[i]) {
        PlainChar(s[i]);
      }
    }
  }

  /** One token between whitespace: the lexer delivers that token and then
      the end of input. */
  lemma SingleToken(gap: string, t: Token, trailing: string)
    requires AllWhitespace(gap) && AllWhitespace(trailing) && Lexable(t) && EndsLexeme(t, trailing)
    ensures WellLexed(gap + (Lexeme(t) + trailing)) && Tokenize(gap + (Lexeme(t) + trailing)) == [t, TokEof]
  {
    var x := Then(gap, t, End(trailing));
    TokenizeLayout(x);
  }

  /** A source text laid out as lexemes and whitespace is lexed to exactly
      those lexemes' tokens. */
  lemma LaidOut(x: Text, src: string, ts: seq<Token>)
    requires WellSpaced(x) && Render(x) == src && TokensOf(x) + [TokEof] == ts
    ensures WellLexed(src) && Tokenize(src) == ts
  {
    TokenizeLayout(x);
  }

  // Each test input, assembled from its leading whitespace, its lexeme and
  // its trailing whitespace.

  lemma FloatSource()
    ensures "   " + ("1.6" + "   ") == "   1.6   "
  {
  }

  lemma DefSource()
    ensures " " + ("def" + " ") == " def "
  {
  }

  lemma ExternSource()
    ensures " " + ("extern" + " ") == " extern "
  {
  }

  lemma NameSource()
    ensures " " + ("saiftyfirst" + " ") == " saiftyfirst "
  {
  }

  lemma AtanSource()
    ensures " " + ("atan2" + " ") == " atan2 "
  {
  }

  lemma CommentSource()
    ensures " " + ("# defo herlmeer weg" + "\n") == " # defo herlmeer weg\n"
  {
  }

  lemma LexEmpty()
    ensures WellLexed("") && Tokenize("")[0] == TokEof
  {
    EndOfInputIsTerminal();
  }

  lemma LexBlank()
    ensures WellLexed("  ") && Tokenize("  ")[0] == TokEof
  {
    TokenizeLayout(End("  "));
  }

  lemma LexOperators(c: char)
    requires c in ['(', ')', '+', '-', '*', '/', '<', '>', ',']
    ensures WellLexed([' ', c, ' ']) && Tokenize([' ', c, ' '])[0] == TokSymbol(c)
  {
    SingleToken(" ", TokSymbol(c), " ");
    assert " " + ([c] + " ") == [' ', c, ' '];
  }

  lemma LexFloat()
    ensures WellLexed("   1.6   ") && Tokenize("   1.6   ")[0] == TokNumber("1.6")
  {
    PlainNumber("1.6");
    SingleToken("   ", TokNumber("1.6"), "   ");
    FloatSource();
  }

  lemma LexDef()
    ensures WellLexed(" def ") && Tokenize(" def ")[0] == TokDef
  {
    SingleToken(" ", TokDef, " ");
    DefSource();
  }

  lemma LexExtern()
    ensures WellLexed(" extern ") && Tokenize(" extern ")[0] == TokExtern
  {
    SingleToken(" ", TokExtern, " ");
    ExternSource();
  }

  lemma LexName()
    ensures WellLexed(" saiftyfirst ") && Tokenize(" saiftyfirst ")[0] == TokIdentifier("saiftyfirst")
  {
    PlainIdentifier("saiftyfirst");
    SingleToken(" ", TokIdentifier("saiftyfirst"), " ");
    NameSource();
  }

  lemma LexAtan()
    ensures WellLexed(" atan2 ") && Tokenize(" atan2 ")[0] == TokIdentifier("atan2")
  {
    PlainIdentifier("atan2");
    SingleToken(" ", TokIdentifier("atan2"), " ");
    AtanSource();
  }

  lemma LexComment()
    ensures WellLexed(" # defo herlmeer weg\n") && Tokenize(" # defo herlmeer weg\n")[0] == TokComment("# defo herlmeer weg")
  {
    PlainComment("# defo herlmeer weg");
    SingleToken(" ", TokComment("# defo herlmeer weg"), "\n");
    CommentSource();
  }

  /** Lexemes the numeral conversion accepts and rejects. */
  lemma Numerals()
    ensures IsNumeral("1.6") && IsNumeral("12.") && IsNumeral("1e5") && IsNumeral("2.5E10")
    ensures !IsNumeral("1e") && !IsNumeral("1.2.3") && !IsNumeral("1x")
  {
  }
}
