/** The lexer: a pure scanner that reads one token off the front of the
    remaining input, and a cursor object that caches the next token so that
    callers can peek at it before popping it. */
module Lexing {
  import opened Vocabulary
  import opened Tokens

  /** The characters with the Unicode White_Space property. */
  predicate IsWhitespace(c: char)
  {
    var u := c as int;
    (0x09 <= u <= 0x0D) || u == 0x20 || u == 0x85 || u == 0xA0 || u == 0x1680 ||
    (0x2000 <= u <= 0x200A) || u == 0x2028 || u == 0x2029 || u == 0x202F ||
    u == 0x205F || u == 0x3000
  }

  predicate IsLetter(c: char)
  {
    ('a' <= c <= 'z') || ('A' <= c <= 'Z')
  }

  predicate IsDigit(c: char)
  {
    '0' <= c <= '9'
  }

  /** Characters that may continue an identifier or a numeral. */
  predicate IsWordChar(c: char)
  {
    !(IsWhitespace(c) || IsSymbolChar(c))
  }

  /** Characters that may continue a comment. */
  predicate IsCommentChar(c: char)
  {
    !(c == '\r' || c == '\n' || IsSymbolChar(c))
  }

  /** Length of the longest prefix of `s` whose every character satisfies `pred`. */
  function LongestPrefix(s: string, pred: char -> bool): (n: nat)
    ensures n <= |s|
    ensures n < |s| ==> !pred(s[n])
  {
    if |s| == 0 || !pred(s[0]) then 0 else 1 + LongestPrefix(s[1..], pred)
  }

  /** Every character of the prefix satisfies `pred`. */
  lemma {:induction false} LongestPrefixHolds(s: string, pred: char -> bool)
    ensures forall i :: 0 <= i < LongestPrefix(s, pred) ==> pred(s[i])
  {
    if |s| > 0 && pred(s[0]) {
      LongestPrefixHolds(s[1..], pred);
      forall i | 0 < i < LongestPrefix(s, pred)
        ensures pred(s[i])
      {
        assert s[i] == s[1..][i - 1];
      }
    }
  }

  /** The counting loop that scans a prefix. */
  method ReadWhile(data: string, pred: char -> bool) returns (readCount: nat)
    ensures readCount <= |data|
    ensures forall i :: 0 <= i < readCount ==> pred(data[i])
    ensures readCount < |data| ==> !pred(data[readCount])
    ensures readCount == LongestPrefix(data, pred)
  {
    readCount := 0;
    for i := 0 to |data|
      invariant readCount == i
      invariant forall j :: 0 <= j < i ==> pred(data[j])
    {
      if !pred(data[i]) {
        break;
      }
      readCount := readCount + 1;
    }
    LongestPrefixUnique(data, pred, readCount);
  }

  /** The three properties of LongestPrefix determine it. */
  lemma {:induction false} LongestPrefixUnique(s: string, pred: char -> bool, n: nat)
    requires n <= |s|
    requires forall i :: 0 <= i < n ==> pred(s[i])
    requires n < |s| ==> !pred(s[n])
    ensures n == LongestPrefix(s, pred)
  {
    if n > 0 {
      assert forall i :: 0 <= i < n - 1 ==> s[1..][i] == s[i + 1];
      LongestPrefixUnique(s[1..], pred, n - 1);
    }
  }

  function TrimStart(data: string): (n: nat)
    ensures n <= |data|
    ensures n < |data| ==> !IsWhitespace(data[n])
  {
    LongestPrefix(data, IsWhitespace)
  }

  /** Reads a word (`consumeSpaceChar` false: up to whitespace or a symbol) or a
      comment (`consumeSpaceChar` true: up to a line break or a symbol). */
  function ReadTokenStr(data: string, consumeSpaceChar: bool): (r: (string, nat))
    ensures r.1 <= |data| && r.0 == data[..r.1]
    ensures !consumeSpaceChar ==> r.1 == LongestPrefix(data, IsWordChar)
    ensures consumeSpaceChar ==> r.1 == LongestPrefix(data, IsCommentChar)
  {
    var readCount :=
      if !consumeSpaceChar then LongestPrefix(data, IsWordChar)
      else LongestPrefix(data, IsCommentChar);
    (data[..readCount], readCount)
  }

  function ReadPrimaryToken(data: string): (r: (char, nat))
    requires |data| > 0
    ensures r == (data[0], 1)
  {
    (data[0], 1)
  }

  /** Where a numeral scan stands: in the integer digits, in the fraction
      digits, just after the exponent letter, or in the exponent digits. */
  datatype NumeralPart = IntDigits | FracDigits | ExpStart | ExpDigits

  /** The lexemes that the floating-point conversion of the source accepts,
      among those that start with a digit and hold no whitespace and no
      symbol character (so no sign): Digit+ ('.' Digit*)? ([eE] Digit+)?. */
  predicate IsNumeral(s: string)
  {
    |s| > 0 && IsDigit(s[0]) && NumeralRest(s[1..], IntDigits)
  }

  /** The rest `s` of a numeral, read from the given part onwards. */
  predicate NumeralRest(s: string, part: NumeralPart)
    decreases |s|
  {
    if |s| == 0 then part != ExpStart
    else
      var c := s[0];
      var exp := c == 'e' || c == 'E';
      match part
      case IntDigits =>
        (IsDigit(c) && NumeralRest(s[1..], IntDigits)) ||
        (c == '.' && NumeralRest(s[1..], FracDigits)) ||
        (exp && NumeralRest(s[1..], ExpStart))
      case FracDigits =>
        (IsDigit(c) && NumeralRest(s[1..], FracDigits)) ||
        (exp && NumeralRest(s[1..], ExpStart))
      case ExpStart => IsDigit(c) && NumeralRest(s[1..], ExpDigits)
      case ExpDigits => IsDigit(c) && NumeralRest(s[1..], ExpDigits)
  }

  /** Result of scanning one token: the token and the number of characters it
      consumed, or a numeral the conversion rejects (the source aborts). */
  datatype Scan = Scanned(token: Token, count: nat) | Malformed(lexeme: string)

  /** Scans the next token: skip whitespace, then dispatch on the first
      remaining character. */
  function ParseToken(data: string): (r: Scan)
    ensures r.Scanned? ==> r.count <= |data|
    ensures r.Scanned? && r.token == TokEof ==> r.count == |data|
    ensures r.Scanned? && r.token != TokEof ==> r.count > TrimStart(data)
  {
    var trimCount := TrimStart(data);
    var trimmedData := data[trimCount..];
    if |trimmedData| == 0 then Scanned(TokEof, trimCount)
    else
      var firstChar := trimmedData[0];
      if IsLetter(firstChar) then
        var (tokenStr, tokenCount) := ReadTokenStr(trimmedData, false);
        Scanned(FromStr(tokenStr), trimCount + tokenCount)
      else if IsDigit(firstChar) then
        var (tokenValue, tokenCount) := ReadTokenStr(trimmedData, false);
        if IsNumeral(tokenValue) then Scanned(FromNumber(tokenValue), trimCount + tokenCount)
        else Malformed(tokenValue)
      else if firstChar == '#' then
        var (commentStr, tokenCount) := ReadTokenStr(trimmedData, true);
        Scanned(FromStr(commentStr), trimCount + tokenCount)
      else
        var (tokenChar, tokenCount) := ReadPrimaryToken(trimmedData);
        Scanned(FromChar(tokenChar), trimCount + tokenCount)
  }

  function ParseAndSlide(data: string): (r: (Token, string))
    requires ParseToken(data).Scanned?
    ensures r.1 == data[ParseToken(data).count..]
    ensures r.0 == ParseToken(data).token
    ensures r.0 == TokEof ==> r.1 == ""
    ensures r.0 != TokEof ==> |r.1| < |data|
  {
    var s := ParseToken(data);
    (s.token, data[s.count..])
  }

  /** Every token of `data`, in turn, scans without aborting. */
  predicate WellLexed(data: string)
    decreases |data|
  {
    ParseToken(data).Scanned? &&
    var (t, rest) := ParseAndSlide(data);
    t == TokEof || WellLexed(rest)
  }

  /** A token stream: a nonempty sequence that ends with TokEof. */
  predicate IsStream(ts: seq<Token>)
  {
    |ts| > 0 && ts[|ts| - 1] == TokEof
  }

  /** Consuming a token from a stream; TokEof is never consumed. */
  function StreamPop(ts: seq<Token>): (r: seq<Token>)
    requires IsStream(ts)
    ensures IsStream(r)
    ensures ts[0] == TokEof ==> r == ts
    ensures ts[0] != TokEof ==> r == ts[1..]
  {
    if ts[0] == TokEof then ts else ts[1..]
  }

  /** All tokens of `data`, the end of input included. */
  function Tokenize(data: string): (ts: seq<Token>)
    requires WellLexed(data)
    ensures IsStream(ts)
    ensures ts[0] == ParseToken(data).token
    decreases |data|
  {
    var (t, rest) := ParseAndSlide(data);
    if t == TokEof then [TokEof] else [t] + Tokenize(rest)
  }

  /** The cursor over the remaining input, with a one-token cache. */
  class Lexer {
    var data: string
    var tokenCache: Token

    ghost predicate Valid()
      reads this
    {
      WellLexed(data) && (tokenCache == TokEof ==> data == "")
    }

    /** The tokens still to be delivered, the cached one first. */
    ghost function Stream(): (ts: seq<Token>)
      reads this
      requires Valid()
      ensures IsStream(ts) && ts[0] == tokenCache
    {
      if tokenCache == TokEof then [TokEof] else [tokenCache] + Tokenize(data)
    }

    constructor (src: string)
      requires WellLexed(src)
      ensures Valid()
      ensures (tokenCache, data) == ParseAndSlide(src)
      ensures Stream() == Tokenize(src)
    {
      data := src;
      tokenCache := TokEof;
      new;
      Init();
    }

    method Init()
      requires WellLexed(data)
      modifies this
      ensures Valid()
      ensures (tokenCache, data) == ParseAndSlide(old(data))
      ensures Stream() == Tokenize(old(data))
    {
      tokenCache, data := ParseAndSlide(data).0, ParseAndSlide(data).1;
    }

    /** The next token, without consuming it. */
    function Peek(): (t: Token)
      reads this
      requires Valid()
      ensures t == Stream()[0]
    {
      tokenCache
    }

    /** Returns the cached token and scans the one after it. */
    method Pop() returns (popped: Token)
      requires Valid()
      modifies this
      ensures Valid()
      ensures popped == old(Stream())[0]
      ensures (tokenCache, data) == ParseAndSlide(old(data))
      ensures Stream() == StreamPop(old(Stream()))
    {
      popped := tokenCache;
      tokenCache := DefaultToken();
      var (next, rest) := ParseAndSlide(data);
      tokenCache, data := next, rest;
    }
  }
}
