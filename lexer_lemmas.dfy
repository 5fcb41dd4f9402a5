/** What the scanner does with each kind of input, and the fact that it undoes
    the printing of a token sequence. */
module LexerLemmas {
  import opened Vocabulary
  import opened Tokens
  import opened Lexing

  /** A prefix that satisfies `pred` throughout is skipped as a whole. */
  lemma {:induction false} LongestPrefixAppend(a: string, b: string, pred: char -> bool)
    requires forall i :: 0 <= i < |a| ==> pred(a[i])
    ensures LongestPrefix(a + b, pred) == |a| + LongestPrefix(b, pred)
  {
    if |a| > 0 {
      assert (a + b)[1..] == a[1..] + b;
      LongestPrefixAppend(a[1..], b, pred);
    } else {
      assert a + b == b;
    }
  }

  /** The scan stops at the first character that fails `pred`. */
  lemma LongestPrefixStops(a: string, b: string, pred: char -> bool)
    requires forall i :: 0 <= i < |a| ==> pred(a[i])
    requires |b| > 0 && !pred(b[0])
    ensures LongestPrefix(a + b, pred) == |a|
  {
    assert (a + b)[|a|] == b[0];
    LongestPrefixUnique(a + b, pred, |a|);
  }

  /** The input is exhausted exactly when only whitespace is left; then the
      whole rest is consumed. */
  lemma ScanEndOfInput(data: string)
    ensures ParseToken(data) == Scanned(TokEof, |data|) <==>
            forall i :: 0 <= i < |data| ==> IsWhitespace(data[i])
  {
    LongestPrefixHolds(data, IsWhitespace);
    if forall i :: 0 <= i < |data| ==> IsWhitespace(data[i]) {
      LongestPrefixUnique(data, IsWhitespace, |data|);
    }
  }

  /** The rest after the end of input stays empty, so popping at the end of
      input keeps delivering TokEof. */
  lemma EndOfInputIsTerminal()
    ensures WellLexed("")
    ensures ParseAndSlide("") == (TokEof, "")
    ensures Tokenize("") == [TokEof]
  {
  }

  /** A token that starts with a letter runs to the first whitespace or
      symbol character and is a keyword or an identifier. */
  lemma ScanWord(data: string)
    requires TrimStart(data) < |data| && IsLetter(data[TrimStart(data)])
    ensures var t := TrimStart(data);
            var n := LongestPrefix(data[t..], IsWordChar);
            var lexeme := data[t..t + n];
            n > 0 && (t + n == |data| || IsWhitespace(data[t + n]) || IsSymbolChar(data[t + n])) &&
            ParseToken(data) == Scanned(
              if lexeme == "def" then TokDef
              else if lexeme == "extern" then TokExtern
              else TokIdentifier(lexeme),
              t + n)
  {
    var t := TrimStart(data);
    assert data[t..][0] == data[t];
    assert data[t..][..LongestPrefix(data[t..], IsWordChar)] == data[t..t + LongestPrefix(data[t..], IsWordChar)];
  }

  /** A token that starts with `#` is a comment that keeps the `#` and runs to
      the first line break or symbol character, which it excludes. */
  lemma ScanComment(data: string)
    requires TrimStart(data) < |data| && data[TrimStart(data)] == '#'
    ensures var t := TrimStart(data);
            var n := LongestPrefix(data[t..], IsCommentChar);
            n > 0 &&
            (t + n == |data| || data[t + n] == '\r' || data[t + n] == '\n' || IsSymbolChar(data[t + n])) &&
            ParseToken(data) == Scanned(TokComment(data[t..t + n]), t + n)
  {
    var t := TrimStart(data);
    assert data[t..][0] == data[t];
    assert data[t..][..LongestPrefix(data[t..], IsCommentChar)] == data[t..t + LongestPrefix(data[t..], IsCommentChar)];
  }

  /** A token that starts with a digit runs to the first whitespace or symbol
      character; it is a number if the conversion accepts it and otherwise
      the scan aborts. */
  lemma ScanNumber(data: string)
    requires TrimStart(data) < |data| && IsDigit(data[TrimStart(data)])
    ensures var t := TrimStart(data);
            var n := LongestPrefix(data[t..], IsWordChar);
            var lexeme := data[t..t + n];
            n > 0 && (t + n == |data| || IsWhitespace(data[t + n]) || IsSymbolChar(data[t + n])) &&
            ParseToken(data) == if IsNumeral(lexeme) then Scanned(TokNumber(lexeme), t + n) else Malformed(lexeme)
  {
    var t := TrimStart(data);
    assert data[t..][0] == data[t];
    assert data[t..][..LongestPrefix(data[t..], IsWordChar)] == data[t..t + LongestPrefix(data[t..], IsWordChar)];
  }

  /** Any other first character is a one-character symbol token. */
  lemma ScanSymbol(data: string)
    requires TrimStart(data) < |data|
    requires var c := data[TrimStart(data)]; !IsLetter(c) && !IsDigit(c) && c != '#'
    ensures ParseToken(data) == Scanned(TokSymbol(data[TrimStart(data)]), TrimStart(data) + 1)
  {
    assert data[TrimStart(data)..][0] == data[TrimStart(data)];
  }

  /** Leading whitespace changes nothing but the count. */
  lemma ScanAfterWhitespace(w: string, s: string)
    requires forall i :: 0 <= i < |w| ==> IsWhitespace(w[i])
    ensures ParseToken(w + s).Scanned? == ParseToken(s).Scanned?
    ensures ParseToken(w + s).Scanned? ==>
              ParseToken(w + s) == Scanned(ParseToken(s).token, |w| + ParseToken(s).count)
    ensures ParseToken(w + s).Malformed? ==> ParseToken(w + s) == ParseToken(s)
  {
    LongestPrefixAppend(w, s, IsWhitespace);
    assert (w + s)[TrimStart(w + s)..] == s[TrimStart(s)..];
  }

  lemma TokenizeAfterWhitespace(w: string, s: string)
    requires forall i :: 0 <= i < |w| ==> IsWhitespace(w[i])
    requires WellLexed(s)
    ensures WellLexed(w + s)
    ensures Tokenize(w + s) == Tokenize(s)
  {
    SlideAfterWhitespace(w, s);
  }

  lemma SlideAfterWhitespace(w: string, s: string)
    requires forall i :: 0 <= i < |w| ==> IsWhitespace(w[i])
    requires ParseToken(s).Scanned?
    ensures ParseToken(w + s).Scanned?
    ensures ParseAndSlide(w + s) == ParseAndSlide(s)
  {
    ScanAfterWhitespace(w, s);
    DropPrefix(w, s, ParseToken(s).count);
    var a, b := ParseAndSlide(w + s), ParseAndSlide(s);
    assert a.0 == b.0 && a.1 == b.1;
  }

  lemma DropPrefix(w: string, s: string, c: nat)
    requires c <= |s|
    ensures (w + s)[|w| + c..] == s[c..]
  {
  }

  /** Tokens that the scanner can produce, each on its own. */
  predicate Lexable(t: Token)
  {
    match t
    case TokEof => false
    case TokDef => true
    case TokExtern => true
    case TokIdentifier(n) =>
      |n| > 0 && IsLetter(n[0]) && n != "def" && n != "extern" &&
      forall i :: 0 <= i < |n| ==> IsWordChar(n[i])
    case TokNumber(v) =>
      IsNumeral(v) && forall i :: 0 <= i < |v| ==> IsWordChar(v[i])
    case TokSymbol(c) => !IsWhitespace(c) && !IsLetter(c) && !IsDigit(c) && c != '#'
    case TokComment(s) =>
      |s| > 0 && s[0] == '#' && forall i :: 0 <= i < |s| ==> IsCommentChar(s[i])
  }

  /** The source text of a token. */
  function Lexeme(t: Token): (s: string)
    requires Lexable(t)
    ensures |s| > 0
  {
    match t
    case TokDef => "def"
    case TokExtern => "extern"
    case TokIdentifier(n) => n
    case TokNumber(v) => v
    case TokSymbol(c) => [c]
    case TokComment(s) => s
  }

  /** The scan of the lexeme of `t` stops at `c`. */
  predicate StopsAt(t: Token, c: char)
  {
    match t
    case TokSymbol(_) => true
    case TokComment(_) => !IsCommentChar(c)
    case _ => !IsWordChar(c)
  }

  /** The text `s` after the lexeme of `t` ends that lexeme: it is empty or
      starts with a character the scan of `t` stops at. */
  predicate EndsLexeme(t: Token, s: string)
  {
    |s| == 0 || StopsAt(t, s[0])
  }

  /** A lexable token followed by text that ends its lexeme scans back to
      itself. */
  lemma ScanLexeme(t: Token, more: string)
    requires Lexable(t) && EndsLexeme(t, more)
    ensures ParseToken(Lexeme(t) + more) == Scanned(t, |Lexeme(t)|)
  {
    var lex := Lexeme(t);
    match t
    case TokSymbol(c) =>
      NoLeadingSpace(lex, more);
    case TokComment(s) =>
      LexemePrefix(lex, more, IsCommentChar);
    case TokNumber(v) =>
      assert IsDigit(v[0]);
      LexemePrefix(lex, more, IsWordChar);
    case TokDef | TokExtern | TokIdentifier(_) =>
      assert IsLetter(lex[0]);
      LexemePrefix(lex, more, IsWordChar);
  }

  /** Scanning starts at the first character of the lexeme. */
  lemma NoLeadingSpace(lex: string, more: string)
    requires |lex| > 0 && !IsWhitespace(lex[0])
    ensures var data := lex + more;
            TrimStart(data) == 0 && data[0..] == data && data[0] == lex[0]
  {
  }

  /** The scan of a lexeme whose characters all satisfy `pred` stops right
      after it. */
  lemma LexemePrefix(lex: string, more: string, pred: char -> bool)
    requires |lex| > 0 && !IsWhitespace(lex[0])
    requires forall i :: 0 <= i < |lex| ==> pred(lex[i])
    requires |more| == 0 || !pred(more[0])
    ensures var data := lex + more;
            TrimStart(data) == 0 && data[0..] == data && data[0] == lex[0] &&
            LongestPrefix(data, pred) == |lex| && data[..|lex|] == lex
  {
    NoLeadingSpace(lex, more);
    if |more| == 0 {
      assert lex + more == lex;
      LongestPrefixUnique(lex, pred, |lex|);
    } else {
      LongestPrefixStops(lex, more, pred);
    }
  }

  /** Every character of `s` is whitespace. */
  predicate AllWhitespace(s: string)
  {
    |s| == 0 || (IsWhitespace(s[0]) && AllWhitespace(s[1..]))
  }

  lemma {:induction false} AllWhitespaceAt(s: string)
    requires AllWhitespace(s)
    ensures forall i :: 0 <= i < |s| ==> IsWhitespace(s[i])
  {
    if |s| > 0 {
      AllWhitespaceAt(s[1..]);
      assert forall i :: 0 < i < |s| ==> s[i] == s[1..][i - 1];
    }
  }

  /** A laid-out source text: tokens, each after the whitespace in front of
      it, then trailing whitespace. */
  datatype Text = End(trailing: string) | Then(gap: string, token: Token, rest: Text)

  /** What follows the lexeme of `t` ends it: the first character of the
      next gap, of the next lexeme or of the trailing text, if any. */
  predicate FollowedBy(t: Token, r: Text)
  {
    match r
    case End(w) => EndsLexeme(t, w)
    case Then(g, u, _) => if |g| > 0 then StopsAt(t, g[0]) else Lexable(u) && StopsAt(t, Lexeme(u)[0])
  }

  /** Gaps and the trailing text are whitespace, and every lexeme is ended by
      what follows it (a gap is needed only where two tokens would otherwise
      run together). */
  predicate WellSpaced(x: Text)
  {
    match x
    case End(w) => AllWhitespace(w)
    case Then(g, t, r) => AllWhitespace(g) && Lexable(t) && WellSpaced(r) && FollowedBy(t, r)
  }

  /** The characters of a laid-out text. */
  function Render(x: Text): string
    requires WellSpaced(x)
  {
    match x
    case End(w) => w
    case Then(g, t, r) => g + (Lexeme(t) + Render(r))
  }

  /** The text after a lexeme starts as its layout says. */
  lemma FollowerStarts(t: Token, r: Text)
    requires WellSpaced(r) && FollowedBy(t, r)
    ensures EndsLexeme(t, Render(r))
  {
    if r.Then? {
      assert Render(r)[0] == if |r.gap| > 0 then r.gap[0] else Lexeme(r.token)[0];
    }
  }

  function TokensOf(x: Text): seq<Token>
  {
    match x
    case End(_) => []
    case Then(_, t, r) => [t] + TokensOf(r)
  }

  /** Only whitespace is left: the end of input, whatever its length. */
  lemma TokenizeWhitespace(end: string)
    requires AllWhitespace(end)
    ensures WellLexed(end) && Tokenize(end) == [TokEof]
  {
    AllWhitespaceAt(end);
    ScanEndOfInput(end);
  }

  /** One token more in front of a laid-out text adds exactly that token. */
  lemma TokenizeLayoutStep(x: Text)
    requires x.Then? && WellSpaced(x)
    requires WellLexed(Render(x.rest))
    requires Tokenize(Render(x.rest)) == TokensOf(x.rest) + [TokEof]
    ensures WellLexed(Render(x))
    ensures Tokenize(Render(x)) == TokensOf(x) + [TokEof]
  {
    var t, rest := x.token, Render(x.rest);
    var data := Lexeme(t) + rest;
    FollowerStarts(t, x.rest);
    ScanLexeme(t, rest);
    assert data[|Lexeme(t)|..] == rest;
    TokenizeFront(data, t, rest);
    AllWhitespaceAt(x.gap);
    TokenizeAfterWhitespace(x.gap, data);
    ConsAppend(TokensOf(x), TokEof);
  }

  /** A token other than the end of input, scanned off the front, is the
      first of all tokens. */
  lemma TokenizeFront(data: string, t: Token, rest: string)
    requires ParseToken(data).Scanned? && ParseAndSlide(data) == (t, rest)
    requires t != TokEof && WellLexed(rest)
    ensures WellLexed(data)
    ensures Tokenize(data) == [t] + Tokenize(rest)
  {
  }

  lemma ConsAppend(s: seq<Token>, x: Token)
    requires |s| > 0
    ensures s + [x] == [s[0]] + (s[1..] + [x])
  {
    assert s == [s[0]] + s[1..];
  }

  /** Scanning undoes layout: the tokens of a well-spaced text are the tokens
      laid out, followed by the end of input. */
  lemma {:induction false} TokenizeLayout(x: Text)
    requires WellSpaced(x)
    ensures WellLexed(Render(x))
    ensures Tokenize(Render(x)) == TokensOf(x) + [TokEof]
  {
    match x
    case End(w) =>
      TokenizeWhitespace(w);
    case Then(_, _, r) =>
      TokenizeLayout(r);
      TokenizeLayoutStep(x);
  }
}
