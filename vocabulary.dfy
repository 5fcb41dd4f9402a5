/** Character vocabulary of the Kaleidoscope front end: which characters are
    symbols, which of them are binary operators, and how tightly each
    operator binds. */
module Vocabulary {

  /** Symbol characters that are not operators. */
  const SymbolNonOpChars: seq<char> := ['(', ')', ',']

  /** The six binary operator characters. */
  const SymbolOpChars: seq<char> := ['+', '-', '*', '/', '>', '<']

  /** A symbol character ends an identifier, a numeral or a comment and is
      always a token of its own. */
  predicate IsSymbolChar(c: char)
    ensures GetOpPrecedence(c) >= 0 ==> IsSymbolChar(c)
    ensures IsSymbolChar(c) ==> c != '#' && c != '.' && c != ' ' && !('0' <= c <= '9') &&
                                !('a' <= c <= 'z') && !('A' <= c <= 'Z')
  {
    c in SymbolNonOpChars || c in SymbolOpChars
  }

  /** Binding strength of an operator character; -1 for every other character. */
  function GetOpPrecedence(op: char): (p: int)
    ensures -1 <= p <= 30
    ensures p >= 0 <==> op in SymbolOpChars
  {
    match op
    case '<' | '>' => 10
    case '+' | '-' => 20
    case '*' | '/' => 30
    case _ => -1
  }

  lemma SymbolCharsAreExactlyNine(c: char)
    ensures IsSymbolChar(c) <==>
      c == '(' || c == ')' || c == ',' || c == '+' || c == '-' ||
      c == '*' || c == '/' || c == '>' || c == '<'
  {
  }

  lemma PrecedenceTable(c: char)
    ensures c == '<' || c == '>' ==> GetOpPrecedence(c) == 10
    ensures c == '+' || c == '-' ==> GetOpPrecedence(c) == 20
    ensures c == '*' || c == '/' ==> GetOpPrecedence(c) == 30
    ensures c !in SymbolOpChars ==> GetOpPrecedence(c) == -1
  {
  }

  /** Every operator is a symbol, and the non-operator symbols never qualify
      as binary operators. */
  lemma OperatorsAreSymbols(c: char)
    ensures c in SymbolOpChars ==> IsSymbolChar(c) && GetOpPrecedence(c) >= 0
    ensures c in SymbolNonOpChars ==> IsSymbolChar(c) && GetOpPrecedence(c) == -1
  {
  }

  /** `*` and `/` bind tighter than `+` and `-`, which bind tighter than `<` and `>`. */
  lemma PrecedenceOrder()
    ensures GetOpPrecedence('*') == GetOpPrecedence('/')
    ensures GetOpPrecedence('+') == GetOpPrecedence('-')
    ensures GetOpPrecedence('<') == GetOpPrecedence('>')
    ensures GetOpPrecedence('/') > GetOpPrecedence('+')
    ensures GetOpPrecedence('-') > GetOpPrecedence('<')
    ensures GetOpPrecedence('>') > GetOpPrecedence('(')
  {
  }
}
