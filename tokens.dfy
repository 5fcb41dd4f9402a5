/** Tokens delivered by the lexer, with their classification and conversion
    functions. */
module Tokens {
  import opened Vocabulary

  /** A numeral is carried as its lexeme; its floating-point value is not modelled. */
  type Numeral = string

  datatype Token =
    | TokEof
    | TokComment(text: string)
    | TokDef
    | TokExtern
    | TokSymbol(ch: char)
    | TokIdentifier(name: string)
    | TokNumber(numeral: Numeral)

  /** Precedence of a token used as a binary operator: that of its character
      for a symbol, -1 for every other token. */
  function GetTokenPrecedence(tok: Token): (p: int)
    ensures tok.TokSymbol? ==> p == GetOpPrecedence(tok.ch)
    ensures !tok.TokSymbol? ==> p == -1
    ensures p >= 0 <==> tok.TokSymbol? && tok.ch in SymbolOpChars
  {
    if tok.TokSymbol? then GetOpPrecedence(tok.ch) else -1
  }

  /** The default token, used only as a placeholder that is overwritten at once. */
  function DefaultToken(): (t: Token)
    ensures t == TokDef
  {
    TokDef
  }

  /** Conversion of a lexeme to a token: keywords first, then comments, then
      identifiers; the empty string is the end of input. */
  function FromStr(s: string): (t: Token)
    ensures s == "def" <==> t == TokDef
    ensures s == "extern" <==> t == TokExtern
    ensures s != "def" && s != "extern" && |s| > 0 && s[0] == '#' ==> t == TokComment(s)
    ensures s != "def" && s != "extern" && |s| > 0 && s[0] != '#' ==> t == TokIdentifier(s)
    ensures s == "" <==> t == TokEof
    ensures t.TokDef? || t.TokExtern? || t.TokComment? || t.TokIdentifier? || t.TokEof?
  {
    if s == "def" then TokDef
    else if s == "extern" then TokExtern
    else if |s| > 0 && s[0] == '#' then TokComment(s)
    else if |s| > 0 then TokIdentifier(s)
    else TokEof
  }

  function FromChar(c: char): (t: Token)
    ensures t.TokSymbol? && t.ch == c
  {
    TokSymbol(c)
  }

  function FromNumber(v: Numeral): (t: Token)
    ensures t.TokNumber? && t.numeral == v
  {
    TokNumber(v)
  }

  /** Only a symbol token can be a binary operator. */
  predicate IsTokSymbol(t: Token)
    ensures !IsTokSymbol(t) ==> GetTokenPrecedence(t) == -1
  {
    t.TokSymbol?
  }

  lemma IsTokSymbolExactly(t: Token)
    ensures IsTokSymbol(t) <==> exists c: char :: t == TokSymbol(c)
  {
    if IsTokSymbol(t) {
      assert t == TokSymbol(t.ch);
    }
  }

  /** Text shown for a token in diagnostics. */
  function Display(t: Token): (s: string)
    ensures |s| > 0 && s[0] == '<'
  {
    match t
    case TokEof => "<eof>"
    case TokComment(val) => "<comment> " + val
    case TokDef => "<def>"
    case TokExtern => "<extern>"
    case TokSymbol(val) => "<primary> " + [val]
    case TokIdentifier(val) => "<identifier> " + val
    case TokNumber(val) => "<number> " + val
  }

  /** The diagnostic text determines the token. */
  lemma DisplayInjective(a: Token, b: Token)
    requires Display(a) == Display(b)
    ensures a == b
  {
    var s := Display(a);
    match a
    case TokComment(v) =>
      assert s[1] == 'c' && s[..10] == "<comment> ";
      assert b.TokComment? && s[10..] == v == b.text;
    case TokIdentifier(v) =>
      assert s[1] == 'i' && s[..13] == "<identifier> ";
      assert b.TokIdentifier? && s[13..] == v == b.name;
    case TokNumber(v) =>
      assert s[1] == 'n' && s[..9] == "<number> ";
      assert b.TokNumber? && s[9..] == v == b.numeral;
    case TokSymbol(v) =>
      assert s[1] == 'p' && s[..10] == "<primary> ";
      assert b.TokSymbol? && s[10..] == [v] == [b.ch];
    case _ =>
  }
}
