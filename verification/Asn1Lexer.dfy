/**
 What each token's text is read as (the token expression of `scripts/h323_asn1_schema.py`, and
 the words its parser compares texts with). The parser itself works on texts; this is what makes
 it safe to speak of tokens instead.
 */
module Asn1Lexer {
  import opened Wrappers
  import opened Asn1Types
  import opened Asn1Parse

  predicate IsDigit(c: char) {
    '0' <= c <= '9'
  }

  predicate IsLetter(c: char) {
    'A' <= c <= 'Z' || 'a' <= c <= 'z'
  }

  /** `[A-Za-z][A-Za-z0-9-]*` */
  predicate IsIdentifier(s: string) {
    |s| > 0 && IsLetter(s[0]) && forall i :: 0 <= i < |s| ==> IsLetter(s[i]) || IsDigit(s[i]) || s[i] == '-'
  }

  predicate AllDigits(s: string) {
    |s| > 0 && forall i :: 0 <= i < |s| ==> IsDigit(s[i])
  }

  /** `-?\d+` */
  predicate IsNumber(s: string) {
    AllDigits(s) || (|s| > 1 && s[0] == '-' && AllDigits(s[1..]))
  }

  /** The symbols the parser of types has no use for. */
  predicate IsOtherSymbol(s: string) {
    s == "::=" || s == "]]" || s == "[" || s == "]" || s == "<" || s == ">" || s == "@" || s == "!" || s == ";" || s == ":"
  }

  /** The words and symbols the parser knows. */
  predicate Fixed(tok: Token) {
    !tok.Word? && !tok.Num? && !tok.Quoted? && !tok.Sym?
  }

  /** They, found by length. */
  function FixedOf(s: string): (r: Option<Token>)
    ensures r.Some? ==> Fixed(r.value) && Spelling(r.value) == s
  {
    if |s| == 1 then OneChar(s[0])
    else if |s| < 4 then ShortWord(s)
    else if |s| < 7 then MiddleWord(s)
    else if |s| < 10 then LongWord(s)
    else LongestWord(s)
  }

  function ShortWord(s: string): (r: Option<Token>)
    ensures r.Some? ==> Fixed(r.value) && Spelling(r.value) == s
  {
    if s == "OF" then Some(OF) else if s == "[[" then Some(LVersion) else if s == ".." then Some(DotDot)
    else if s == "SET" then Some(SET) else if s == "BIT" then Some(BIT) else if s == "MIN" then Some(MIN)
    else if s == "MAX" then Some(MAX) else if s == "..." then Some(Ellipsis) else None
  }

  function MiddleWord(s: string): (r: Option<Token>)
    ensures r.Some? ==> Fixed(r.value) && Spelling(r.value) == s
  {
    if s == "SIZE" then Some(SIZE) else if s == "FROM" then Some(FROM) else if s == "NULL" then Some(NULL)
    else if s == "WITH" then Some(WITH) else if s == "OCTET" then Some(OCTET) else if s == "CHOICE" then Some(CHOICE)
    else if s == "OBJECT" then Some(OBJECT) else if s == "STRING" then Some(STRING) else None
  }

  function LongWord(s: string): (r: Option<Token>)
    ensures r.Some? ==> Fixed(r.value) && Spelling(r.value) == s
  {
    if s == "INTEGER" then Some(INTEGER) else if s == "BOOLEAN" then Some(BOOLEAN) else if s == "DEFAULT" then Some(DEFAULT)
    else if s == "SEQUENCE" then Some(SEQUENCE) else if s == "OPTIONAL" then Some(OPTIONAL)
    else if s == "IA5String" then Some(CharString(Ia5)) else if s == "BMPString" then Some(CharString(Bmp)) else None
  }

  function LongestWord(s: string): (r: Option<Token>)
    ensures r.Some? ==> Fixed(r.value) && Spelling(r.value) == s
  {
    if s == "ENUMERATED" then Some(ENUMERATED) else if s == "IDENTIFIER" then Some(IDENTIFIER)
    else if s == "NumericString" then Some(CharString(Numeric)) else if s == "GeneralString" then Some(CharString(General))
    else if s == "TYPE-IDENTIFIER" then Some(TYPE_IDENTIFIER) else if s == "PrintableString" then Some(CharString(Printable))
    else None
  }

  function OneChar(c: char): (r: Option<Token>)
    ensures r.Some? ==> Fixed(r.value) && Spelling(r.value) == [c]
  {
    if c == '{' then Some(LBrace) else if c == '}' then Some(RBrace) else if c == '(' then Some(LParen)
    else if c == ')' then Some(RParen) else if c == ',' then Some(Comma) else if c == '.' then Some(Dot)
    else if c == '&' then Some(Ampersand) else if c == '^' then Some(Caret) else if c == '|' then Some(Bar)
    else None
  }

  /** The token a text is, if it is one. */
  function Lex(s: string): (r: Option<Token>)
    ensures r.Some? ==> Spelling(r.value) == s
  {
    if FixedOf(s).Some? then FixedOf(s)
    else if IsIdentifier(s) then Some(Word(s))
    else if IsNumber(s) then Some(Num(s))
    else if |s| > 1 && s[0] == '"' && s[|s| - 1] == '"' && '"' !in s[1..|s| - 1] then Some(Quoted(s[1..|s| - 1]))
    else if IsOtherSymbol(s) then Some(Sym(s))
    else None
  }

  /** The token is what its own text is read as. */
  predicate Lexical(tok: Token) {
    Lex(Spelling(tok)) == Some(tok)
  }

  predicate AllLexical(ts: Tokens) {
    forall i :: 0 <= i < |ts| ==> Lexical(ts[i])
  }

  /** An identifier that is none of the parser's words. */
  predicate IsName(s: string) {
    Lexical(Word(s))
  }

  /** What an identifier is read as: one of the words the parser knows, or a word. */
  function NameToken(name: string): Token {
    if FixedOf(name).Some? then FixedOf(name).value else Word(name)
  }

  /** The token can stand where a component or an enumeration item is named, and names this one. */
  predicate NamesAs(tok: Token, name: string) {
    Spelling(tok) == name && tok != RBrace && tok != Comma && tok != Ellipsis && tok != LVersion
  }

  lemma IdentifierNames(name: string)
    requires IsIdentifier(name)
    ensures NamesAs(NameToken(name), name) && Lexical(NameToken(name))
  {
    hide FixedOf, IsNumber, IsOtherSymbol;
  }

  /** No two tokens have one text. */
  lemma OneText(a: Token, b: Token)
    requires Lexical(a) && Lexical(b) && Spelling(a) == Spelling(b)
    ensures a == b
  {
    hide Lex, Spelling;
  }

  lemma FoundByOwnText(tok: Token)
    requires Fixed(tok)
    ensures FixedOf(Spelling(tok)) == Some(tok)
  {
    var s := Spelling(tok);
    if |s| == 1 {
      OneCharFound(tok);
    } else if |s| < 4 {
      ShortFound(tok);
    } else if |s| < 7 {
      MiddleFound(tok);
    } else if |s| < 10 {
      LongFound(tok);
    } else {
      LongestFound(tok);
    }
    hide Spelling, OneChar, ShortWord, MiddleWord, LongWord, LongestWord;
  }

  lemma OneCharFound(tok: Token)
    requires Fixed(tok) && |Spelling(tok)| == 1
    ensures OneChar(Spelling(tok)[0]) == Some(tok)
  {
  }

  lemma ShortFound(tok: Token)
    requires Fixed(tok) && 1 < |Spelling(tok)| < 4
    ensures ShortWord(Spelling(tok)) == Some(tok)
  {
  }

  lemma MiddleFound(tok: Token)
    requires Fixed(tok) && 4 <= |Spelling(tok)| < 7
    ensures MiddleWord(Spelling(tok)) == Some(tok)
  {
  }

  lemma LongFound(tok: Token)
    requires Fixed(tok) && 7 <= |Spelling(tok)| < 10
    ensures LongWord(Spelling(tok)) == Some(tok)
  {
  }

  lemma LongestFound(tok: Token)
    requires Fixed(tok) && 10 <= |Spelling(tok)|
    ensures LongestWord(Spelling(tok)) == Some(tok)
  {
  }

  lemma FixedIsLexical(tok: Token)
    requires Fixed(tok)
    ensures Lexical(tok)
  {
    FoundByOwnText(tok);
    hide FixedOf, Spelling, Fixed;
  }

  lemma NameIff(s: string)
    ensures IsName(s) <==> IsIdentifier(s) && forall tok :: Fixed(tok) ==> Spelling(tok) != s
  {
    forall tok | Fixed(tok) && Spelling(tok) == s ensures !IsName(s) {
      FixedIsLexical(tok);
    }
    hide FixedOf, IsIdentifier, IsNumber, IsOtherSymbol;
  }

  lemma FixedStarts(tok: Token)
    requires Fixed(tok)
    ensures var s := Spelling(tok); s != "" && !IsDigit(s[0]) && s[0] != '-' && s[0] != '"'
  {
  }

  lemma NumbersAreLexical(s: string)
    requires IsNumber(s)
    ensures Lexical(Num(s))
  {
    if FixedOf(s).Some? {
      FixedStarts(FixedOf(s).value);
    }
    hide FixedOf;
  }

  lemma QuotesAreLexical(text: string)
    requires '"' !in text
    ensures Lexical(Quoted(text))
  {
    var s := Spelling(Quoted(text));
    if FixedOf(s).Some? {
      FixedStarts(FixedOf(s).value);
    }
    hide FixedOf;
    assert s[1..|s| - 1] == text;
  }

  lemma LexicalConcat(a: Tokens, b: Tokens)
    requires AllLexical(a) && AllLexical(b)
    ensures AllLexical(a + b)
  {
    hide Lexical;
  }
}
