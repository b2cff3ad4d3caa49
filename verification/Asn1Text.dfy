/** The round trip on texts: what a type expression is written as is read as its own tokens. */
module Asn1Text {
  import opened Wrappers
  import opened Asn1Types
  import opened Asn1Parse
  import opened Asn1Lexer
  import opened Asn1Grammar
  import opened Asn1RoundTrip
  import opened Asn1Canonical

  // ---- numbers --------------------------------------------------------------------------

  lemma {:induction false} NatTextIsDigits(n: nat)
    ensures AllDigits(NatText(n))
    decreases n
  {
    if n >= 10 {
      NatTextIsDigits(n / 10);
    }
  }

  lemma IntTextIsNumber(n: int)
    ensures IsNumber(IntText(n))
  {
    if n < 0 {
      NatTextIsDigits(-n);
      assert IntText(n)[1..] == NatText(-n);
    } else {
      NatTextIsDigits(n);
    }
  }

  // ---- everything written is lexical ----------------------------------------------------

  lemma FixedAll(ts: Tokens)
    requires forall i :: 0 <= i < |ts| ==> Fixed(ts[i])
    ensures AllLexical(ts)
  {
    hide Lexical;
    forall i | 0 <= i < |ts| ensures Lexical(ts[i]) {
      FixedIsLexical(ts[i]);
    }
  }

  lemma EndpointLexical(e: Endpoint)
    ensures Lexical(PrintEndpoint(e))
  {
    match e
    case Min => FixedIsLexical(MIN);
    case Max => FixedIsLexical(MAX);
    case Number(n) =>
      IntTextIsNumber(n);
      NumbersAreLexical(IntText(n));
  }

  lemma {:induction false} ElementLexical(e: ElementSyntax)
    requires ValidElement(e)
    ensures AllLexical(PrintElement(e))
    decreases e
  {
    hide Lexical;
    FixedAll([SIZE]);
    FixedAll([FROM, LParen]);
    FixedIsLexical(RParen);
    FixedIsLexical(DotDot);
    match e
    case InSize(c) =>
      ConstraintLexical(c);
      LexicalConcat([SIZE], PrintConstraint(c));
    case From(text) =>
      QuotesAreLexical(text);
      LexicalConcat([FROM, LParen], [Quoted(text), RParen]);
    case Nested(c) => ConstraintLexical(c);
    case Single(at) => EndpointLexical(at);
    case Range(lb, ub) =>
      EndpointLexical(lb);
      EndpointLexical(ub);
    case Hidden(first, junk) => LexicalConcat([first], junk);
  }

  lemma {:induction false} ElementsLexical(es: seq<ElementSyntax>, ext: bool)
    requires ValidElements(es, ext)
    ensures AllLexical(PrintElements(es))
    decreases es
  {
    hide Lexical, PrintElement, ValidElement, AllLexical;
    ElementLexical(es[0]);
    if |es| > 1 {
      ElementsLexical(es[1..], ext);
      FixedAll([Caret]);
      LexicalConcat([Caret], PrintElements(es[1..]));
      LexicalConcat(PrintElement(es[0]), [Caret] + PrintElements(es[1..]));
    }
  }

  lemma {:induction false} ConstraintLexical(c: ConstraintSyntax)
    requires ValidConstraint(c)
    ensures AllLexical(PrintConstraint(c))
    decreases c
  {
    hide Lexical, AllLexical;
    var close := if c.ext then [Comma, Ellipsis, RParen] else [RParen];
    ElementsLexical(c.elements, c.ext);
    FixedAll([LParen]);
    FixedAll(close);
    LexicalConcat(PrintElements(c.elements), close);
    LexicalConcat([LParen], PrintElements(c.elements) + close);
  }

  lemma {:induction false} ConstraintsLexical(cs: seq<ConstraintSyntax>)
    requires forall i :: 0 <= i < |cs| ==> ValidConstraint(cs[i])
    ensures AllLexical(PrintConstraints(cs))
    decreases |cs|
  {
    hide Lexical, AllLexical, PrintConstraint, ValidConstraint;
    if cs == [] {
      FixedAll([]);
    } else {
      ConstraintLexical(cs[0]);
      ConstraintsLexical(cs[1..]);
      LexicalConcat(PrintConstraint(cs[0]), PrintConstraints(cs[1..]));
    }
  }

  lemma SizeLexical(s: SizeSyntax)
    requires ValidSize(s)
    ensures AllLexical(PrintSize(s))
  {
    hide Lexical, AllLexical, PrintConstraint, ValidConstraint;
    FixedAll([]);
    FixedAll([SIZE]);
    if !s.NoSize? {
      ConstraintLexical(s.c);
      LexicalConcat([SIZE], PrintConstraint(s.c));
    }
  }

  /** Tokens between a fixed pair of brackets. */
  lemma BracketedLexical(open: Tokens, ts: Tokens, close: Tokens)
    requires AllLexical(open) && AllLexical(ts) && AllLexical(close)
    ensures AllLexical(open + (ts + close))
  {
    LexicalConcat(ts, close);
    LexicalConcat(open, ts + close);
  }

  lemma EnumLexical(e: EnumSyntax)
    requires ValidEnum(e)
    ensures AllLexical(PrintEnum(e))
  {
    hide Lexical;
    FixedAll([Ellipsis]);
    FixedIsLexical(LParen);
    FixedAll([RParen]);
    if e.EnumName? {
      IdentifierNames(e.name);
      if e.number.Some? {
        BracketedLexical([NameToken(e.name), LParen], e.number.value, [RParen]);
      }
    }
  }

  lemma {:induction false} EnumsLexical(es: seq<EnumSyntax>)
    requires forall i :: 0 <= i < |es| ==> ValidEnum(es[i])
    ensures AllLexical(PrintEnums(es))
    decreases |es|
  {
    hide Lexical, AllLexical, PrintEnum, ValidEnum;
    FixedAll([RBrace]);
    if es != [] {
      EnumLexical(es[0]);
      EnumsLexical(es[1..]);
      CommaLexical(|es| > 1);
      BracketedLexical(PrintEnum(es[0]), if |es| > 1 then [Comma] else [], PrintEnums(es[1..]));
    }
  }

  lemma CommaLexical(more: bool)
    ensures AllLexical(if more then [Comma] else [])
  {
    FixedAll([Comma]);
    FixedAll([]);
  }

  lemma {:induction false} ItemLexical(item: ItemSyntax)
    requires item.Component? ==> IsIdentifier(item.name) && Valid(item.ty)
    ensures AllLexical(PrintItem(item))
    decreases item
  {
    hide Lexical, Valid, Print;
    FixedAll([Ellipsis]);
    FixedAll([OPTIONAL]);
    if item.Component? {
      TypeLexical(item.ty);
      IdentifierNames(item.name);
      BracketedLexical([NameToken(item.name)], Print(item.ty), if item.optional then [OPTIONAL] else []);
    }
  }

  lemma {:induction false} ItemsLexical(items: seq<ItemSyntax>)
    requires ValidItems(items)
    ensures AllLexical(PrintItems(items))
    decreases items
  {
    hide Lexical, AllLexical, PrintItem, IsIdentifier, Valid;
    FixedAll([RBrace]);
    if items != [] {
      ItemLexical(items[0]);
      ItemsLexical(items[1..]);
      CommaLexical(|items| > 1);
      BracketedLexical(PrintItem(items[0]), if |items| > 1 then [Comma] else [], PrintItems(items[1..]));
    }
  }

  lemma BracedLexical(ts: Option<Tokens>)
    requires Braced(ts)
    ensures AllLexical(PrintBraced(ts))
  {
    hide Lexical;
    FixedAll([LBrace]);
    FixedAll([RBrace]);
    if ts.Some? {
      BracketedLexical([LBrace], ts.value, [RBrace]);
    }
  }

  lemma {:induction false} ListLexical(b: BaseSyntax)
    requires b.ListType? && ValidBase(b)
    ensures AllLexical(PrintBase(b))
    decreases b, 0
  {
    var tag := if b.tag.Some? then [Word(b.tag.value)] else [];
    assert AllLexical(tag) by { hide Lexical; }
    hide Lexical, AllLexical, Print, Valid, PrintSize, ValidSize, IsName;
    SizeLexical(b.size);
    TypeLexical(b.item);
    FixedAll([OF]);
    FixedAll([if b.isSet then SET else SEQUENCE]);
    BracketedLexical([OF], tag, Print(b.item));
    BracketedLexical([if b.isSet then SET else SEQUENCE], PrintSize(b.size), [OF] + (tag + Print(b.item)));
  }

  lemma ShortLexical(b: BaseSyntax)
    requires !b.Listing? && !b.ListType? && !b.Enumeration? && ValidBase(b)
    ensures AllLexical(PrintBase(b))
  {
    hide Lexical, PrintBraced;
    match b
    case Integer(named) =>
      BracedLexical(named);
      FixedAll([INTEGER]);
      LexicalConcat([INTEGER], PrintBraced(named));
    case BitString(named) =>
      BracedLexical(named);
      FixedAll([BIT, STRING]);
      LexicalConcat([BIT, STRING], PrintBraced(named));
    case OpenType(field) =>
      FixedAll([TYPE_IDENTIFIER, Dot, Ampersand]);
      LexicalConcat([TYPE_IDENTIFIER, Dot, Ampersand], [field]);
    case Parameterized(name, args) =>
      FixedIsLexical(LBrace);
      FixedAll([RBrace]);
      BracketedLexical([Word(name), LBrace], args, [RBrace]);
    case Reference(name) =>
    case _ => FixedAll(PrintBase(b));
  }

  lemma {:induction false} BaseLexical(b: BaseSyntax)
    requires ValidBase(b)
    ensures AllLexical(PrintBase(b))
    decreases b, 1
  {
    if b.Listing? {
      ItemsLexical(b.items);
      var kw := match b.kw case Sequence => SEQUENCE case Set => SET case Alternatives => CHOICE;
      FixedAll([kw, LBrace]);
      hide Lexical, AllLexical, PrintItems, ValidItems;
      LexicalConcat([kw, LBrace], PrintItems(b.items));
    } else if b.ListType? {
      ListLexical(b);
    } else if b.Enumeration? {
      EnumsLexical(b.names);
      FixedAll([ENUMERATED, LBrace]);
      hide Lexical, AllLexical, PrintEnums, ValidEnum;
      LexicalConcat([ENUMERATED, LBrace], PrintEnums(b.names));
    } else {
      ShortLexical(b);
    }
  }

  /** Every token of a well-formed type expression is what its own text is read as. */
  lemma {:induction false} TypeLexical(t: TypeSyntax)
    requires Valid(t)
    ensures AllLexical(Print(t))
    decreases t
  {
    BaseLexical(t.base);
    ConstraintsLexical(t.narrowed);
    hide Lexical, AllLexical, PrintBase, PrintConstraints;
    LexicalConcat(PrintBase(t.base), PrintConstraints(t.narrowed));
  }

  // ---- the round trip -------------------------------------------------------------------

  predicate AllWords(words: seq<string>) {
    forall k :: 0 <= k < |words| ==> Lex(words[k]).Some?
  }

  /** What the tokenizer's texts are read as. */
  function TokensOf(words: seq<string>): (ts: Tokens)
    requires AllWords(words)
    ensures |ts| == |words| && forall k :: 0 <= k < |words| ==> Lex(words[k]) == Some(ts[k])
  {
    seq(|words|, k requires 0 <= k < |words| => Lex(words[k]).value)
  }

  function Texts(ts: Tokens): (words: seq<string>)
    ensures |words| == |ts| && forall k :: 0 <= k < |ts| ==> words[k] == Spelling(ts[k])
  {
    seq(|ts|, k requires 0 <= k < |ts| => Spelling(ts[k]))
  }

  lemma ReadAsWritten(words: seq<string>, i: nat, j: nat, ps: Tokens)
    requires AllWords(words) && i <= j <= |words| && words[i..j] == Texts(ps) && AllLexical(ps)
    ensures Spans(TokensOf(words), i, j, ps)
  {
    hide Lex, Spelling;
    var ts := TokensOf(words);
    assert |ps| == j - i;
    forall k | 0 <= k < |ps| ensures ts[i + k] == ps[k] {
      assert words[i + k] == words[i..j][k] == Spelling(ps[k]);
      assert Lexical(ps[k]);
    }
  }

  lemma NoBracket(words: seq<string>, j: nat)
    requires AllWords(words) && j <= |words| && (j < |words| ==> words[j] != "(" && words[j] != "{")
    ensures !Next(TokensOf(words), j, LParen) && !Next(TokensOf(words), j, LBrace)
  {
    if j < |words| {
      assert Spelling(TokensOf(words)[j]) == words[j];
    }
    hide Lex;
  }

  /**
   Every writable type tree, its canonical texts written anywhere among texts and followed by
   anything that cannot continue it, parses to exactly that tree and exactly that span.
   */
  lemma TextRoundTrip(words: seq<string>, i: nat, j: nat, t: Type)
    requires AllWords(words) && i <= j <= |words|
    requires Writable(t) && words[i..j] == Texts(Print(Canon(t)))
    requires j < |words| ==> words[j] != "(" && words[j] != "{"
    ensures ParseType(TokensOf(words), i) == Success((t, j))
  {
    CanonMeans(t);
    TypeLexical(Canon(t));
    hide Writable, Canon, Print, Valid, MeanType, ParseType, Lex, AllLexical, Spans;
    ReadAsWritten(words, i, j, Print(Canon(t)));
    NoBracket(words, j);
    CanonicalRoundTrip(TokensOf(words), i, j, t);
  }
}
