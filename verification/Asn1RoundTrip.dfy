/** The parser reads back exactly what the surface syntax means, and leaves the rest alone. */
module Asn1RoundTrip {
  import opened Wrappers
  import opened Asn1Types
  import opened Asn1Parse
  import opened Asn1Lexer
  import opened Asn1Grammar

  /** The tokens from `i` up to `j` are `p`. */
  predicate Spans<T(==)>(ts: seq<T>, i: nat, j: nat, p: seq<T>) {
    i <= j <= |ts| && ts[i..j] == p
  }

  lemma Split<T>(ts: seq<T>, i: nat, j: nat, a: seq<T>, b: seq<T>) returns (m: nat)
    requires Spans(ts, i, j, a + b)
    ensures m == i + |a| && Spans(ts, i, m, a) && Spans(ts, m, j, b)
  {
    m := i + |a|;
    assert |ts[i..j]| == |a| + |b|;
    assert ts[i..m] == ts[i..j][..|a|] == a;
    assert ts[m..j] == ts[i..j][|a|..] == b;
  }

  lemma First<T>(ts: seq<T>, i: nat, j: nat, tok: T, b: seq<T>)
    requires Spans(ts, i, j, [tok] + b)
    ensures i < |ts| && ts[i] == tok && Spans(ts, i + 1, j, b)
  {
    var m := Split(ts, i, j, [tok], b);
    assert ts[i] == ts[i..m][0];
  }

  lemma Peel<T>(ts: seq<T>, i: nat, j: nat, p: seq<T>)
    requires Spans(ts, i, j, p) && |p| > 0
    ensures i < j && Next(ts, i, p[0]) && Spans(ts, i + 1, j, p[1..])
  {
    assert p == [p[0]] + p[1..];
    First(ts, i, j, p[0], p[1..]);
  }

  lemma Only<T>(ts: seq<T>, i: nat, j: nat, tok: T)
    requires Spans(ts, i, j, [tok])
    ensures j == i + 1 && i < |ts| && ts[i] == tok
  {
    assert |ts[i..j]| == 1 && ts[i] == ts[i..j][0];
  }

  lemma Empty<T>(ts: seq<T>, i: nat, j: nat)
    requires Spans(ts, i, j, [])
    ensures i == j
  {
    assert |ts[i..j]| == 0;
  }

  function With<T>(r: Result<T, Fault>, j: nat): Parsed<T> {
    match r case Success(v) => Success((v, j)) case Failure(f) => Failure(f)
  }

  // ---- numbers and skipped tokens -------------------------------------------------------

  lemma {:induction false} NatRoundTrip(n: nat)
    ensures NatOf(NatText(n)) == Some(n)
    ensures |NatText(n)| > 0 && NatText(n)[0] != '-'
  {
    if n >= 10 {
      NatRoundTrip(n / 10);
      var s := NatText(n);
      assert s[..|s| - 1] == NatText(n / 10) && s[|s| - 1] == Digit(n % 10);
    }
  }

  lemma IntRoundTrip(n: int)
    ensures IntOf(IntText(n)) == Some(n)
  {
    if n < 0 {
      NatRoundTrip(-n);
      assert IntText(n)[1..] == NatText(-n);
    } else {
      NatRoundTrip(n);
    }
  }

  lemma {:induction false} SkipsEven<T>(ts: seq<T>, i: nat, j: nat, junk: seq<T>, open: T, close: T, depth: nat)
    requires Spans(ts, i, j, junk) && open != close && Even(junk, open, close, depth) && Next(ts, j, close)
    ensures SkipBalanced(ts, i, open, close, depth + 1) == Success(j + 1)
    decreases |junk|
  {
    hide Spans;
    if junk == [] {
      Empty(ts, i, j);
    } else {
      Peel(ts, i, j, junk);
      if junk[0] == open {
        SkipsEven(ts, i + 1, j, junk[1..], open, close, depth + 1);
      } else if junk[0] == close {
        SkipsEven(ts, i + 1, j, junk[1..], open, close, depth - 1);
      } else {
        SkipsEven(ts, i + 1, j, junk[1..], open, close, depth);
      }
    }
  }

  lemma {:induction false} ClosesEven(ts: Tokens, i: nat, j: nat, junk: Tokens, depth: nat)
    requires Spans(ts, i, j, junk) && EvenBoth(junk, depth) && Next(ts, j, RParen)
    ensures SkipToClose(ts, i, depth) == Success(j)
    decreases |junk|
  {
    hide Spans;
    if junk == [] {
      Empty(ts, i, j);
    } else {
      Peel(ts, i, j, junk);
      var open := junk[0] == LParen || junk[0] == LBrace;
      var close := junk[0] == RParen || junk[0] == RBrace;
      ClosesEven(ts, i + 1, j, junk[1..], if open then depth + 1 else if close then depth - 1 else depth);
    }
  }

  /** A bracketed list is skipped as a whole. */
  lemma SkipsBracketed<T>(ts: seq<T>, i: nat, j: nat, junk: seq<T>, open: T, close: T)
    requires Spans(ts, i, j, [open] + (junk + [close])) && open != close && Even(junk, open, close, 0)
    ensures i < |ts| && ts[i] == open && SkipBalanced(ts, i, open, close, 0) == Success(j)
  {
    hide Spans;
    First(ts, i, j, open, junk + [close]);
    var m := Split(ts, i + 1, j, junk, [close]);
    Only(ts, m, j, close);
    SkipsEven(ts, i + 1, m, junk, open, close, 0);
  }

  lemma SkipsBraced(ts: Tokens, i: nat, j: nat, named: Option<Tokens>)
    requires Spans(ts, i, j, PrintBraced(named)) && Braced(named) && !Next(ts, j, LBrace)
    ensures SkipList(ts, i, LBrace, RBrace) == Success(j)
  {
    hide Spans;
    if named.Some? {
      SkipsBracketed(ts, i, j, named.value, LBrace, RBrace);
    } else {
      Empty(ts, i, j);
    }
  }

  lemma ReadsEndpoint(ts: Tokens, i: nat, e: Endpoint)
    requires Next(ts, i, PrintEndpoint(e))
    ensures Value(ts, i) == Success((MeanEndpoint(e), i + 1))
  {
    if e.Number? {
      IntRoundTrip(e.n);
    }
  }

  // ---- constraints ----------------------------------------------------------------------

  lemma ReadsRange(ts: Tokens, i: nat, j: nat, e: ElementSyntax)
    requires e.Single? || e.Range?
    requires Spans(ts, i, j, PrintElement(e)) && !Next(ts, j, DotDot)
    ensures i < |ts| && (!IsUpper(ts[i]) || ts[i] == MIN || ts[i] == MAX)
    ensures i < |ts| && ts[i] != LParen
    ensures ValueRange(ts, i) == Success((MeanElement(e), j))
  {
    hide Spans;
    if e.Single? {
      Only(ts, i, j, PrintEndpoint(e.at));
      ReadsEndpoint(ts, i, e.at);
    } else {
      assert PrintElement(e) == [PrintEndpoint(e.lb)] + ([DotDot] + [PrintEndpoint(e.ub)]);
      First(ts, i, j, PrintEndpoint(e.lb), [DotDot] + [PrintEndpoint(e.ub)]);
      First(ts, i + 1, j, DotDot, [PrintEndpoint(e.ub)]);
      Only(ts, i + 2, j, PrintEndpoint(e.ub));
      ReadsEndpoint(ts, i, e.lb);
      ReadsEndpoint(ts, i + 2, e.ub);
    }
  }

  lemma ReadsAlphabet(ts: Tokens, i: nat, j: nat, text: string)
    requires Spans(ts, i, j, [LParen] + ([Quoted(text)] + [RParen]))
    ensures Alphabet(ts, i) == Success((Constraint(None, None, Some(text)), j))
  {
    hide Spans;
    First(ts, i, j, LParen, [Quoted(text)] + [RParen]);
    First(ts, i + 1, j, Quoted(text), [RParen]);
    Only(ts, i + 2, j, RParen);
  }

  lemma {:induction false} ReadsElement(ts: Tokens, i: nat, j: nat, e: ElementSyntax)
    requires Spans(ts, i, j, PrintElement(e)) && ValidElement(e)
    requires Next(ts, j, RParen) || (!e.Hidden? && (Next(ts, j, Caret) || Next(ts, j, Comma) || Next(ts, j, Bar)))
    ensures Element(ts, i) == Success((MeanElement(e), j))
    decreases e
  {
    hide Spans, Parenthesised, PrintConstraint, MeanConstraint, ValidConstraint, ValueRange, Alphabet, SkipToClose, EvenBoth;
    match e
    case InSize(c) =>
      First(ts, i, j, SIZE, PrintConstraint(c));
      ReadsConstraint(ts, i + 1, j, c);
    case From(text) =>
      assert PrintElement(e) == [FROM] + ([LParen] + ([Quoted(text)] + [RParen]));
      First(ts, i, j, FROM, [LParen] + ([Quoted(text)] + [RParen]));
      ReadsAlphabet(ts, i + 1, j, text);
    case Nested(c) =>
      ReadsConstraint(ts, i, j, c);
    case Hidden(first, junk) =>
      First(ts, i, j, first, junk);
      ClosesEven(ts, i + 1, j, junk, 0);
    case _ =>
      ReadsRange(ts, i, j, e);
  }

  lemma {:induction false} ReadsElements(ts: Tokens, i: nat, j: nat, es: seq<ElementSyntax>, ext: bool, sofar: Constraint)
    requires Spans(ts, i, j, PrintElements(es)) && ValidElements(es, ext)
    requires Next(ts, j, if ext then Comma else RParen) || (ext && Next(ts, j, Bar))
    ensures Elements(ts, i, sofar) == Success((MeanElements(es, sofar), j))
    decreases es
  {
    hide Spans, Element, PrintElement, MeanElement, ValidElement;
    if |es| == 1 {
      ReadsElement(ts, i, j, es[0]);
      assert es[1..] == [];
    } else {
      var m := Split(ts, i, j, PrintElement(es[0]), [Caret] + PrintElements(es[1..]));
      First(ts, m, j, Caret, PrintElements(es[1..]));
      ReadsElement(ts, i, m, es[0]);
      ReadsElements(ts, m + 1, j, es[1..], ext, Merge(sofar, MeanElement(es[0])));
    }
  }

  lemma ReadsClose(ts: Tokens, i: nat, j: nat, ext: bool, c: Constraint)
    requires Spans(ts, i, j, if ext then [Comma, Ellipsis, RParen] else [RParen])
    ensures Next(ts, i, if ext then Comma else RParen)
    ensures CloseConstraint(ts, i, c) == Success((if ext then Loosen(c) else c, j))
  {
    hide Spans;
    if ext {
      assert [Comma, Ellipsis, RParen] == [Comma] + ([Ellipsis] + [RParen]);
      First(ts, i, j, Comma, [Ellipsis] + [RParen]);
      First(ts, i + 1, j, Ellipsis, [RParen]);
      Only(ts, i + 2, j, RParen);
    } else {
      Only(ts, i, j, RParen);
    }
  }

  lemma {:induction false} ReadsConstraint(ts: Tokens, i: nat, j: nat, c: ConstraintSyntax)
    requires Spans(ts, i, j, PrintConstraint(c)) && ValidConstraint(c)
    ensures Next(ts, i, LParen)
    ensures Parenthesised(ts, i) == Success((MeanConstraint(c), j))
    decreases c
  {
    hide Spans, Elements, PrintElements, MeanElements, ValidElements, CloseConstraint;
    var end := if c.ext then [Comma, Ellipsis, RParen] else [RParen];
    First(ts, i, j, LParen, PrintElements(c.elements) + end);
    var m := Split(ts, i + 1, j, PrintElements(c.elements), end);
    ReadsClose(ts, m, j, c.ext, MeanElements(c.elements, NOTHING));
    ReadsElements(ts, i + 1, m, c.elements, c.ext, NOTHING);
  }

  lemma {:induction false} ReadsNarrowed(t: Type, ts: Tokens, i: nat, j: nat, cs: seq<ConstraintSyntax>)
    requires Spans(ts, i, j, PrintConstraints(cs)) && !Next(ts, j, LParen)
    requires forall n :: 0 <= n < |cs| ==> ValidConstraint(cs[n])
    ensures Narrowed(t, ts, i) == With(MeanNarrowed(t, cs), j)
    decreases |cs|
  {
    hide Spans, Parenthesised, PrintConstraint, MeanConstraint, ValidConstraint, Apply;
    if cs == [] {
      Empty(ts, i, j);
    } else {
      var m := Split(ts, i, j, PrintConstraint(cs[0]), PrintConstraints(cs[1..]));
      ReadsConstraint(ts, i, m, cs[0]);
      var u := Apply(t, MeanConstraint(cs[0]));
      if u.Success? {
        ReadsNarrowed(u.value, ts, m, j, cs[1..]);
      }
    }
  }

  // ---- enumerations ---------------------------------------------------------------------

  lemma ReadsEnumName(ts: Tokens, i: nat, j: nat, e: EnumSyntax)
    requires e.EnumName? && ValidEnum(e) && Spans(ts, i, j, PrintEnum(e)) && !Next(ts, j, LParen)
    ensures i < j <= |ts| && NamesAs(ts[i], e.name)
    ensures SkipList(ts, i + 1, LParen, RParen) == Success(j)
  {
    hide Spans, IsIdentifier, AllLexical, Lexical, NameToken, NamesAs;
    var tok := NameToken(e.name);
    IdentifierNames(e.name);
    if e.number.None? {
      Only(ts, i, j, tok);
    } else {
      var junk := e.number.value;
      assert PrintEnum(e) == [tok] + ([LParen] + (junk + [RParen]));
      First(ts, i, j, tok, [LParen] + (junk + [RParen]));
      SkipsBracketed(ts, i + 1, j, junk, LParen, RParen);
    }
  }

  lemma ReadsEnumMarker(ts: Tokens, i: nat, j: nat, e: EnumSyntax)
    requires e.EnumMarker? && Spans(ts, i, j, PrintEnum(e))
    ensures j == i + 1 && Next(ts, i, Ellipsis)
  {
    Only(ts, i, j, Ellipsis);
  }

  /** The first name, the comma after it if there are more, and the rest. */
  lemma SplitEnums(ts: Tokens, i: nat, j: nat, es: seq<EnumSyntax>) returns (m: nat, n: nat)
    requires Spans(ts, i, j, PrintEnums(es)) && es != []
    ensures m <= n <= j && Spans(ts, i, m, PrintEnum(es[0])) && Spans(ts, n, j, PrintEnums(es[1..]))
    ensures if |es| > 1 then n == m + 1 && Next(ts, m, Comma) else n == m && Next(ts, m, RBrace)
  {
    hide Spans, PrintEnum;
    var comma := if |es| > 1 then [Comma] else [];
    m := Split(ts, i, j, PrintEnum(es[0]), comma + PrintEnums(es[1..]));
    n := Split(ts, m, j, comma, PrintEnums(es[1..]));
    if |es| > 1 {
      Only(ts, m, n, Comma);
    } else {
      Empty(ts, m, n);
      Only(ts, n, j, RBrace);
    }
  }

  lemma EnumPastComma(ts: Tokens, m: nat, n: nat, root: seq<string>, ext: Option<seq<string>>)
    requires m <= |ts| && (n == m || (n == m + 1 && Next(ts, m, Comma)))
    ensures EnumItems(ts, m, root, ext) == EnumItems(ts, n, root, ext)
  {
    hide SkipList;
  }

  lemma {:induction false} ReadsEnums(ts: Tokens, i: nat, j: nat, es: seq<EnumSyntax>, root: seq<string>, ext: Option<seq<string>>)
    requires Spans(ts, i, j, PrintEnums(es))
    requires forall n :: 0 <= n < |es| ==> ValidEnum(es[n])
    ensures EnumItems(ts, i, root, ext) == Success((MeanEnums(es, root, ext), j))
    decreases |es|
  {
    hide IsName, Lexical, AllLexical;
    hide Spans, PrintEnum, ValidEnum, SkipList, Spelling;
    if es == [] {
      Only(ts, i, j, RBrace);
    } else {
      var m, n := SplitEnums(ts, i, j, es);
      hide PrintEnums;
      if es[0].EnumMarker? {
        ReadsEnumMarker(ts, i, m, es[0]);
        EnumPastComma(ts, m, n, root, if ext.Some? then ext else Some([]));
        ReadsEnums(ts, n, j, es[1..], root, if ext.Some? then ext else Some([]));
      } else {
        ReadsEnumName(ts, i, m, es[0]);
        if ext.Some? {
          EnumPastComma(ts, m, n, root, Some(ext.value + [es[0].name]));
          ReadsEnums(ts, n, j, es[1..], root, Some(ext.value + [es[0].name]));
        } else {
          EnumPastComma(ts, m, n, root + [es[0].name], None);
          ReadsEnums(ts, n, j, es[1..], root + [es[0].name], None);
        }
      }
    }
  }

  // ---- components -----------------------------------------------------------------------

  lemma ReadsMarker(ts: Tokens, i: nat, j: nat, item: ItemSyntax)
    requires item.Marker? && Spans(ts, i, j, PrintItem(item))
    ensures j == i + 1 && Next(ts, i, Ellipsis)
  {
    Only(ts, i, j, Ellipsis);
  }

  lemma SplitItems(ts: Tokens, i: nat, j: nat, items: seq<ItemSyntax>) returns (m: nat, n: nat)
    requires Spans(ts, i, j, PrintItems(items)) && items != []
    ensures m <= n <= j && Spans(ts, i, m, PrintItem(items[0])) && Spans(ts, n, j, PrintItems(items[1..]))
    ensures if |items| > 1 then n == m + 1 && Next(ts, m, Comma) else n == m && Next(ts, m, RBrace)
  {
    hide Spans, PrintItem;
    var comma := if |items| > 1 then [Comma] else [];
    m := Split(ts, i, j, PrintItem(items[0]), comma + PrintItems(items[1..]));
    n := Split(ts, m, j, comma, PrintItems(items[1..]));
    if |items| > 1 {
      Only(ts, m, n, Comma);
    } else {
      Empty(ts, m, n);
      Only(ts, n, j, RBrace);
    }
  }

  lemma {:induction false} ReadsComponent(ts: Tokens, i: nat, j: nat, item: ItemSyntax)
    requires item.Component? && IsIdentifier(item.name) && Valid(item.ty) && Spans(ts, i, j, PrintItem(item))
    requires Next(ts, j, Comma) || Next(ts, j, RBrace)
    ensures i < |ts| && NamesAs(ts[i], item.name)
    ensures OneComponent(ts, i) ==
            With(match MeanType(item.ty)
                 case Success(t) => Success(Field(item.name, t, item.optional))
                 case Failure(f) => Failure(f), j)
    decreases item
  {
    hide Spans, Print, MeanType, ParseType, Valid, NameToken, IsIdentifier, Lexical, Spelling;
    var tok := NameToken(item.name);
    IdentifierNames(item.name);
    var flag := if item.optional then [OPTIONAL] else [];
    First(ts, i, j, tok, Print(item.ty) + flag);
    var m := Split(ts, i + 1, j, Print(item.ty), flag);
    if item.optional {
      Only(ts, m, j, OPTIONAL);
    } else {
      Empty(ts, m, j);
    }
    ReadsType(ts, i + 1, m, item.ty);
  }

  lemma PastComma(ts: Tokens, m: nat, n: nat, root: seq<Field>, ext: Extension)
    requires m <= |ts| && (n == m || (n == m + 1 && Next(ts, m, Comma)))
    ensures Components(ts, m, root, ext) == Components(ts, n, root, ext)
  {
    hide OneComponent;
  }

  lemma PastComponent(ts: Tokens, i: nat, name: string, root: seq<Field>, ext: Extension)
    requires i < |ts| && NamesAs(ts[i], name)
    ensures var c := OneComponent(ts, i);
            Components(ts, i, root, ext) ==
            if c.Failure? then Failure(c.error)
            else if ext.Open? then Components(ts, c.value.1, root, Open(ext.fields + [c.value.0]))
            else Components(ts, c.value.1, root + [c.value.0], ext)
  {
    hide OneComponent, Spelling;
  }

  lemma ItemsSplit(items: seq<ItemSyntax>)
    requires ValidItems(items) && items != []
    ensures ValidItems(items[1..]) && (items[0].Component? ==> IsIdentifier(items[0].name) && Valid(items[0].ty))
  {
    hide IsIdentifier, Valid;
  }

  lemma {:induction false} ReadsItems(ts: Tokens, i: nat, j: nat, items: seq<ItemSyntax>, root: seq<Field>, ext: Extension)
    requires Spans(ts, i, j, PrintItems(items)) && ValidItems(items)
    ensures Components(ts, i, root, ext) == With(MeanItems(items, root, ext), j)
    decreases items
  {
    hide Spans, PrintItem, OneComponent, MeanType, Valid, ValidItems, IsIdentifier, Spelling, Lexical, NameToken;
    if items == [] {
      Only(ts, i, j, RBrace);
    } else {
      ItemsSplit(items);
      var m, n := SplitItems(ts, i, j, items);
      hide PrintItems;
      if items[0].Marker? {
        ReadsMarker(ts, i, m, items[0]);
        if ext.Closed? {
          PastComma(ts, m, n, root, Open([]));
          ReadsItems(ts, n, j, items[1..], root, Open([]));
        }
      } else {
        ReadsComponent(ts, i, m, items[0]);
        PastComponent(ts, i, items[0].name, root, ext);
        hide Components, NamesAs;
        if MeanType(items[0].ty).Success? {
          var f := Field(items[0].name, MeanType(items[0].ty).value, items[0].optional);
          if ext.Open? {
            PastComma(ts, m, n, root, Open(ext.fields + [f]));
            ReadsItems(ts, n, j, items[1..], root, Open(ext.fields + [f]));
          } else {
            PastComma(ts, m, n, root + [f], ext);
            ReadsItems(ts, n, j, items[1..], root + [f], ext);
          }
        }
      }
    }
  }

  // ---- types ----------------------------------------------------------------------------

  /** Every type expression starts with a capital letter. */
  lemma StartsUpper(t: TypeSyntax)
    requires Valid(t)
    ensures |Print(t)| > 0 && IsUpper(Print(t)[0]) && Print(t)[0] != OF
  {
    hide IsName, Lexical, AllLexical;
  }

  lemma ReadsSize(ts: Tokens, i: nat, j: nat, s: SizeSyntax)
    requires Spans(ts, i, j, PrintSize(s)) && ValidSize(s) && Next(ts, j, OF)
    ensures !Next(ts, i, LBrace)
    ensures var r := OfSize(ts, i);
            && r.Success? && r.value.1 == j
            && (if r.value.0.Some? then r.value.0.value else Bounds(Some(0), None, false)) == MeanSize(s)
  {
    hide Spans;
    match s
    case NoSize => Empty(ts, i, j);
    case Inside(c) => ReadsConstraint(ts, i, j, c);
    case Bare(c) =>
      First(ts, i, j, SIZE, PrintConstraint(c));
      ReadsConstraint(ts, i + 1, j, c);
  }

  lemma SkipsLabel(ts: Tokens, i: nat, j: nat, tag: Option<string>, item: TypeSyntax) returns (m: nat)
    requires Spans(ts, i, j, (if tag.Some? then [Word(tag.value)] else []) + Print(item))
    requires Valid(item) && (tag.Some? ==> IsLower(Word(tag.value)))
    ensures m <= j && SkipLabel(ts, i) == m && Spans(ts, m, j, Print(item))
  {
    var word := if tag.Some? then [Word(tag.value)] else [];
    m := Split(ts, i, j, word, Print(item));
    StartsUpper(item);
    assert ts[m] == ts[m..j][0];
    if tag.Some? {
      Only(ts, i, m, Word(tag.value));
    } else {
      Empty(ts, i, m);
    }
  }

  lemma {:induction false} ReadsList(ts: Tokens, i: nat, j: nat, b: BaseSyntax)
    requires b.ListType? && ValidBase(b) && Spans(ts, i, j, PrintBase(b))
    requires !Next(ts, j, LParen) && !Next(ts, j, LBrace)
    ensures BaseType(ts, i) == With(MeanBase(b), j)
    decreases b, 0
  {
    hide IsName, Lexical, AllLexical;
    hide Spans, Print, PrintSize, OfSize, MeanSize, ParseType, MeanType, Valid, SkipLabel, ValidSize;
    var word := if b.tag.Some? then [Word(b.tag.value)] else [];
    First(ts, i, j, if b.isSet then SET else SEQUENCE, PrintSize(b.size) + ([OF] + (word + Print(b.item))));
    var m := Split(ts, i + 1, j, PrintSize(b.size), [OF] + (word + Print(b.item)));
    First(ts, m, j, OF, word + Print(b.item));
    ReadsSize(ts, i + 1, m, b.size);
    var n := SkipsLabel(ts, m + 1, j, b.tag, b.item);
    ReadsType(ts, n, j, b.item);
  }

  lemma {:induction false} ReadsListing(ts: Tokens, i: nat, j: nat, b: BaseSyntax)
    requires b.Listing? && ValidBase(b) && Spans(ts, i, j, PrintBase(b))
    ensures BaseType(ts, i) == With(MeanBase(b), j)
    decreases b, 0
  {
    hide Spans, PrintItems, Components, MeanItems, ValidItems;
    var kw := match b.kw case Sequence => SEQUENCE case Set => SET case Alternatives => CHOICE;
    assert PrintBase(b) == [kw] + ([LBrace] + PrintItems(b.items));
    First(ts, i, j, kw, [LBrace] + PrintItems(b.items));
    First(ts, i + 1, j, LBrace, PrintItems(b.items));
    ReadsItems(ts, i + 2, j, b.items, [], Closed);
  }

  lemma ReadsEnumeration(ts: Tokens, i: nat, j: nat, b: BaseSyntax)
    requires b.Enumeration? && ValidBase(b) && Spans(ts, i, j, PrintBase(b))
    ensures BaseType(ts, i) == With(MeanBase(b), j)
  {
    hide Spans, PrintEnums, EnumItems, MeanEnums;
    assert PrintBase(b) == [ENUMERATED] + ([LBrace] + PrintEnums(b.names));
    First(ts, i, j, ENUMERATED, [LBrace] + PrintEnums(b.names));
    First(ts, i + 1, j, LBrace, PrintEnums(b.names));
    ReadsEnums(ts, i + 2, j, b.names, [], None);
  }

  lemma Two<T>(ts: seq<T>, i: nat, j: nat, a: T, b: T)
    requires Spans(ts, i, j, [a, b])
    ensures j == i + 2 && Next(ts, i, a) && Next(ts, i + 1, b)
  {
    hide Spans;
    assert [a, b] == [a] + [b];
    First(ts, i, j, a, [b]);
    Only(ts, i + 1, j, b);
  }

  lemma ReadsInteger(ts: Tokens, i: nat, j: nat, b: BaseSyntax)
    requires b.Integer? && ValidBase(b) && Spans(ts, i, j, PrintBase(b)) && !Next(ts, j, LBrace)
    ensures BaseType(ts, i) == With(MeanBase(b), j)
  {
    hide Spans, SkipList, Braced, PrintBraced;
    First(ts, i, j, INTEGER, PrintBraced(b.named));
    SkipsBraced(ts, i + 1, j, b.named);
  }

  lemma ReadsBitString(ts: Tokens, i: nat, j: nat, b: BaseSyntax)
    requires b.BitString? && ValidBase(b) && Spans(ts, i, j, PrintBase(b)) && !Next(ts, j, LBrace)
    ensures BaseType(ts, i) == With(MeanBase(b), j)
  {
    hide Spans, SkipList, Braced, PrintBraced;
    assert PrintBase(b) == [BIT] + ([STRING] + PrintBraced(b.named));
    First(ts, i, j, BIT, [STRING] + PrintBraced(b.named));
    First(ts, i + 1, j, STRING, PrintBraced(b.named));
    SkipsBraced(ts, i + 2, j, b.named);
  }

  lemma ReadsOpenType(ts: Tokens, i: nat, j: nat, b: BaseSyntax)
    requires b.OpenType? && Spans(ts, i, j, PrintBase(b))
    ensures BaseType(ts, i) == With(MeanBase(b), j)
  {
    hide Spans;
    assert PrintBase(b) == [TYPE_IDENTIFIER] + ([Dot] + [Ampersand, b.field]);
    First(ts, i, j, TYPE_IDENTIFIER, [Dot] + [Ampersand, b.field]);
    First(ts, i + 1, j, Dot, [Ampersand, b.field]);
    Two(ts, i + 2, j, Ampersand, b.field);
  }

  lemma ReadsParameterized(ts: Tokens, i: nat, j: nat, b: BaseSyntax)
    requires b.Parameterized? && ValidBase(b) && Spans(ts, i, j, PrintBase(b))
    ensures BaseType(ts, i) == With(MeanBase(b), j)
  {
    hide IsName, Lexical, AllLexical;
    hide Spans, Even, SkipBalanced;
    assert PrintBase(b) == [Word(b.name)] + ([LBrace] + (b.args + [RBrace]));
    First(ts, i, j, Word(b.name), [LBrace] + (b.args + [RBrace]));
    SkipsBracketed(ts, i + 1, j, b.args, LBrace, RBrace);
  }

  predicate Short(b: BaseSyntax) {
    b.Boolean? || b.NullType? || b.ObjectIdentifier? || b.OctetString? || b.Characters? || b.Reference?
  }

  lemma ReadsShort(ts: Tokens, i: nat, j: nat, b: BaseSyntax)
    requires Short(b) && ValidBase(b) && Spans(ts, i, j, PrintBase(b)) && !Next(ts, j, LBrace)
    ensures BaseType(ts, i) == With(MeanBase(b), j)
  {
    hide IsName, Lexical, AllLexical;
    hide Spans;
    match b {
      case Boolean => Only(ts, i, j, BOOLEAN);
      case NullType => Only(ts, i, j, NULL);
      case ObjectIdentifier => Two(ts, i, j, OBJECT, IDENTIFIER);
      case OctetString => Two(ts, i, j, OCTET, STRING);
      case Characters(kind) => Only(ts, i, j, CharString(kind));
      case Reference(_) => ReadsReference(ts, i, j, b);
    }
  }

  lemma ReadsReference(ts: Tokens, i: nat, j: nat, b: BaseSyntax)
    requires b.Reference? && ValidBase(b) && Spans(ts, i, j, PrintBase(b)) && !Next(ts, j, LBrace)
    ensures BaseType(ts, i) == With(MeanBase(b), j)
  {
    hide IsName, Lexical, AllLexical, Spans;
    Only(ts, i, j, Word(b.name));
  }

  lemma {:induction false} ReadsBase(ts: Tokens, i: nat, j: nat, b: BaseSyntax)
    requires ValidBase(b) && Spans(ts, i, j, PrintBase(b)) && !Next(ts, j, LBrace)
    requires b.ListType? ==> !Next(ts, j, LParen)
    ensures BaseType(ts, i) == With(MeanBase(b), j)
    decreases b, 1
  {
    hide Spans, PrintBase, BaseType, MeanBase, ValidBase;
    if b.Listing? {
      ReadsListing(ts, i, j, b);
    } else if b.ListType? {
      ReadsList(ts, i, j, b);
    } else if b.Enumeration? {
      ReadsEnumeration(ts, i, j, b);
    } else if b.Integer? {
      ReadsInteger(ts, i, j, b);
    } else if b.BitString? {
      ReadsBitString(ts, i, j, b);
    } else if b.OpenType? {
      ReadsOpenType(ts, i, j, b);
    } else if b.Parameterized? {
      ReadsParameterized(ts, i, j, b);
    } else {
      ReadsShort(ts, i, j, b);
    }
  }

  /**
   The parser on a written type expression, followed by anything that cannot continue it,
   returns what the expression means and stops exactly behind it; it fails exactly when the
   expression has no meaning (a constraint that does not fit, a second marker).
   */
  lemma {:induction false} ReadsType(ts: Tokens, i: nat, j: nat, t: TypeSyntax)
    requires Spans(ts, i, j, Print(t)) && Valid(t)
    requires !Next(ts, j, LParen) && !Next(ts, j, LBrace)
    ensures ParseType(ts, i) == With(MeanType(t), j)
    decreases t
  {
    hide Spans, PrintBase, MeanBase, BaseType, Narrowed, MeanNarrowed, ValidBase, PrintConstraint, ValidConstraint, Parenthesised;
    var m := Split(ts, i, j, PrintBase(t.base), PrintConstraints(t.narrowed));
    if t.narrowed == [] {
      Empty(ts, m, j);
    } else {
      var n := Split(ts, m, j, PrintConstraint(t.narrowed[0]), PrintConstraints(t.narrowed[1..]));
      ReadsConstraint(ts, m, n, t.narrowed[0]);
    }
    ReadsBase(ts, i, m, t.base);
    if MeanBase(t.base).Success? {
      ReadsNarrowed(MeanBase(t.base).value, ts, m, j, t.narrowed);
    }
  }

  // ---- what is refused ------------------------------------------------------------------

  /** Components and markers, each with a comma after it. */
  function PrintOpenItems(items: seq<ItemSyntax>): Tokens {
    if items == [] then [] else PrintItem(items[0]) + ([Comma] + PrintOpenItems(items[1..]))
  }

  /** What cannot be read after some components cannot be read with them. */
  lemma {:induction false} FailsAfterItems(ts: Tokens, i: nat, j: nat, items: seq<ItemSyntax>, root: seq<Field>, ext: Extension)
    requires Spans(ts, i, j, PrintOpenItems(items)) && ValidItems(items)
    requires forall r, e :: Components(ts, j, r, e).Failure?
    ensures Components(ts, i, root, ext).Failure?
    decreases |items|
  {
    hide Spans, PrintItem, OneComponent, MeanType, Valid, IsIdentifier, Lexical, Spelling;
    if items == [] {
      Empty(ts, i, j);
    } else {
      ItemsSplit(items);
      var m := Split(ts, i, j, PrintItem(items[0]), [Comma] + PrintOpenItems(items[1..]));
      First(ts, m, j, Comma, PrintOpenItems(items[1..]));
      if items[0].Marker? {
        ReadsMarker(ts, i, m, items[0]);
        PastComma(ts, m, m + 1, root, Open([]));
        FailsAfterItems(ts, m + 1, j, items[1..], root, Open([]));
      } else {
        ReadsComponent(ts, i, m, items[0]);
        PastComponent(ts, i, items[0].name, root, ext);
        hide Components, NamesAs;
        if MeanType(items[0].ty).Success? {
          var f := Field(items[0].name, MeanType(items[0].ty).value, items[0].optional);
          if ext.Open? {
            PastComma(ts, m, m + 1, root, Open(ext.fields + [f]));
            FailsAfterItems(ts, m + 1, j, items[1..], root, Open(ext.fields + [f]));
          } else {
            PastComma(ts, m, m + 1, root + [f], ext);
            FailsAfterItems(ts, m + 1, j, items[1..], root + [f], ext);
          }
        }
      }
    }
  }

  /** A list of components that goes on, after any of them, with version brackets is refused. */
  lemma VersionsRefused(ts: Tokens, i: nat, j: nat, kw: Keyword, items: seq<ItemSyntax>)
    requires Spans(ts, i, j, [match kw case Sequence => SEQUENCE case Set => SET case Alternatives => CHOICE, LBrace] + PrintOpenItems(items))
    requires ValidItems(items) && Next(ts, j, LVersion)
    ensures ParseType(ts, i).Failure?
  {
    forall r, e ensures Components(ts, j, r, e).Failure? {
    }
    ListRefused(ts, i, j, kw, items);
  }

  /** So is one that goes on with a component that has a default. */
  lemma DefaultsRefused(ts: Tokens, i: nat, j: nat, k: nat, kw: Keyword, items: seq<ItemSyntax>, name: string, ty: TypeSyntax)
    requires Spans(ts, i, j, [match kw case Sequence => SEQUENCE case Set => SET case Alternatives => CHOICE, LBrace] + PrintOpenItems(items))
    requires ValidItems(items) && IsIdentifier(name) && Valid(ty)
    requires Spans(ts, j, k, [NameToken(name)] + Print(ty)) && Next(ts, k, DEFAULT)
    ensures ParseType(ts, i).Failure?
  {
    hide Spans, Print, MeanType, ParseType, Valid, IsIdentifier, Lexical, Spelling, NameToken, PrintOpenItems;
    IdentifierNames(name);
    First(ts, j, k, NameToken(name), Print(ty));
    ReadsType(ts, j + 1, k, ty);
    assert OneComponent(ts, j).Failure?;
    hide OneComponent;
    forall r, e ensures Components(ts, j, r, e).Failure? {
    }
    ListRefused(ts, i, j, kw, items);
  }

  lemma ListRefused(ts: Tokens, i: nat, j: nat, kw: Keyword, items: seq<ItemSyntax>)
    requires Spans(ts, i, j, [match kw case Sequence => SEQUENCE case Set => SET case Alternatives => CHOICE, LBrace] + PrintOpenItems(items))
    requires ValidItems(items) && forall r, e :: Components(ts, j, r, e).Failure?
    ensures ParseType(ts, i).Failure?
  {
    hide Spans, PrintOpenItems, Components, ValidItems, Narrowed;
    var word := match kw case Sequence => SEQUENCE case Set => SET case Alternatives => CHOICE;
    assert [word, LBrace] + PrintOpenItems(items) == [word] + ([LBrace] + PrintOpenItems(items));
    First(ts, i, j, word, [LBrace] + PrintOpenItems(items));
    First(ts, i + 1, j, LBrace, PrintOpenItems(items));
    FailsAfterItems(ts, i + 2, j, items, [], Closed);
    assert Listed(ts, i + 1, kw.Alternatives?).Failure?;
    assert BaseType(ts, i).Failure?;
  }

  /** A union in a constraint is refused, whatever elements come before it. */
  lemma UnionsRefused(ts: Tokens, i: nat, j: nat, es: seq<ElementSyntax>)
    requires Spans(ts, i, j, [LParen] + PrintElements(es)) && ValidElements(es, true) && Next(ts, j, Bar)
    ensures Parenthesised(ts, i).Failure?
  {
    hide Spans, PrintElements, Elements, ValidElements, MeanElements;
    First(ts, i, j, LParen, PrintElements(es));
    ReadsElements(ts, i + 1, j, es, true, NOTHING);
  }
}
