/**
 The surface syntax of the type expressions the parser supports (the subset of sections 25,
 26, 29 and 51 of ITU-T X.680 (2015) that the H.323 modules use), how it is written as
 tokens, what it means, and the theorem that the parser reads back exactly that meaning.
 */
module Asn1Grammar {
  import opened Wrappers
  import opened Asn1Types
  import opened Asn1Parse
  import opened Asn1Lexer

  // ---- syntax ---------------------------------------------------------------------------

  datatype Endpoint = Min | Max | Number(n: int)

  /** `Hidden` is a constraint PER does not see: a capitalised word and whatever follows it. */
  datatype ElementSyntax =
    | InSize(c: ConstraintSyntax)
    | From(text: string)
    | Nested(c: ConstraintSyntax)
    | Single(at: Endpoint)
    | Range(lb: Endpoint, ub: Endpoint)
    | Hidden(first: Token, junk: Tokens)

  datatype ConstraintSyntax = Parens(elements: seq<ElementSyntax>, ext: bool)

  datatype SizeSyntax = NoSize | Inside(c: ConstraintSyntax) | Bare(c: ConstraintSyntax)

  datatype EnumSyntax = EnumMarker | EnumName(name: string, number: Option<Tokens>)

  datatype ItemSyntax = Marker | Component(name: string, ty: TypeSyntax, optional: bool)

  datatype Keyword = Sequence | Set | Alternatives

  datatype BaseSyntax =
    | Listing(kw: Keyword, items: seq<ItemSyntax>)
    | ListType(isSet: bool, size: SizeSyntax, tag: Option<string>, item: TypeSyntax)
    | Enumeration(names: seq<EnumSyntax>)
    | Integer(named: Option<Tokens>)
    | Boolean
    | NullType
    | ObjectIdentifier
    | OctetString
    | BitString(named: Option<Tokens>)
    | Characters(kind: CharKind)
    | OpenType(field: Token)
    | Reference(name: string)
    | Parameterized(name: string, args: Tokens)

  datatype TypeSyntax = TypeSyntax(base: BaseSyntax, narrowed: seq<ConstraintSyntax>)

  // ---- which syntax is meant ------------------------------------------------------------

  // Names and skipped tokens are such as their texts are read as: see Asn1Lexer.

  /** Brackets in `ts` match up, inside `depth` that are still open. */
  predicate Even<T(==)>(ts: seq<T>, open: T, close: T, depth: nat) {
    if ts == [] then depth == 0
    else if ts[0] == open then Even(ts[1..], open, close, depth + 1)
    else if ts[0] == close then depth > 0 && Even(ts[1..], open, close, depth - 1)
    else Even(ts[1..], open, close, depth)
  }

  predicate EvenBoth(ts: Tokens, depth: nat) {
    if ts == [] then depth == 0
    else if ts[0] == LParen || ts[0] == LBrace then EvenBoth(ts[1..], depth + 1)
    else if ts[0] == RParen || ts[0] == RBrace then depth > 0 && EvenBoth(ts[1..], depth - 1)
    else EvenBoth(ts[1..], depth)
  }

  predicate Braced(ts: Option<Tokens>) {
    ts.Some? ==> Even(ts.value, LBrace, RBrace, 0) && AllLexical(ts.value)
  }

  predicate ValidElement(e: ElementSyntax) {
    match e
    case InSize(c) => ValidConstraint(c)
    case Nested(c) => ValidConstraint(c)
    case From(text) => '"' !in text
    case Hidden(first, junk) =>
      && IsUpper(first) && first != MIN && first != MAX && first != SIZE && first != FROM && Lexical(first)
      && EvenBoth(junk, 0) && AllLexical(junk)
    case _ => true
  }

  /** A hidden element swallows the rest of its constraint, so nothing may follow it. */
  predicate ValidElements(es: seq<ElementSyntax>, ext: bool) {
    && |es| > 0
    && ValidElement(es[0])
    && if |es| == 1 then es[0].Hidden? ==> !ext else !es[0].Hidden? && ValidElements(es[1..], ext)
  }

  predicate ValidConstraint(c: ConstraintSyntax) {
    ValidElements(c.elements, c.ext)
  }

  predicate ValidSize(s: SizeSyntax) {
    s.NoSize? || ValidConstraint(s.c)
  }

  predicate ValidEnum(e: EnumSyntax) {
    e.EnumName? ==> IsIdentifier(e.name) && (e.number.Some? ==> Even(e.number.value, LParen, RParen, 0) && AllLexical(e.number.value))
  }

  predicate ValidBase(b: BaseSyntax) {
    match b
    case Listing(_, items) => ValidItems(items)
    case ListType(_, size, tag, item) =>
      ValidSize(size) && (tag.Some? ==> IsLower(Word(tag.value)) && IsName(tag.value)) && Valid(item)
    case Enumeration(names) => forall i :: 0 <= i < |names| ==> ValidEnum(names[i])
    case Integer(named) => Braced(named)
    case BitString(named) => Braced(named)
    case OpenType(field) => Lexical(field)
    case Reference(name) => IsUpper(Word(name)) && IsName(name)
    case Parameterized(name, args) => IsUpper(Word(name)) && IsName(name) && Even(args, LBrace, RBrace, 0) && AllLexical(args)
    case _ => true
  }

  predicate ValidItems(items: seq<ItemSyntax>) {
    forall i :: 0 <= i < |items| ==> (items[i].Component? ==> IsIdentifier(items[i].name) && Valid(items[i].ty))
  }

  /** A constraint after `SEQUENCE OF T` belongs to `T`. */
  predicate Valid(t: TypeSyntax) {
    && ValidBase(t.base)
    && (t.base.ListType? ==> t.narrowed == [])
    && forall i :: 0 <= i < |t.narrowed| ==> ValidConstraint(t.narrowed[i])
  }

  // ---- how it is written ----------------------------------------------------------------

  function Digit(d: nat): char
    requires d < 10
  {
    '0' + d as char
  }

  function NatText(n: nat): string {
    if n < 10 then [Digit(n)] else NatText(n / 10) + [Digit(n % 10)]
  }

  function IntText(n: int): string {
    if n < 0 then "-" + NatText(-n) else NatText(n)
  }

  function PrintEndpoint(e: Endpoint): Token {
    match e case Min => MIN case Max => MAX case Number(n) => Num(IntText(n))
  }

  function PrintElement(e: ElementSyntax): Tokens {
    match e
    case InSize(c) => [SIZE] + PrintConstraint(c)
    case From(text) => [FROM, LParen, Quoted(text), RParen]
    case Nested(c) => PrintConstraint(c)
    case Single(at) => [PrintEndpoint(at)]
    case Range(lb, ub) => [PrintEndpoint(lb), DotDot, PrintEndpoint(ub)]
    case Hidden(first, junk) => [first] + junk
  }

  function PrintElements(es: seq<ElementSyntax>): Tokens {
    if es == [] then []
    else if |es| == 1 then PrintElement(es[0])
    else PrintElement(es[0]) + ([Caret] + PrintElements(es[1..]))
  }

  function PrintConstraint(c: ConstraintSyntax): Tokens {
    [LParen] + (PrintElements(c.elements) + (if c.ext then [Comma, Ellipsis, RParen] else [RParen]))
  }

  function PrintConstraints(cs: seq<ConstraintSyntax>): Tokens {
    if cs == [] then [] else PrintConstraint(cs[0]) + PrintConstraints(cs[1..])
  }

  function PrintSize(s: SizeSyntax): Tokens {
    match s
    case NoSize => []
    case Inside(c) => PrintConstraint(c)
    case Bare(c) => [SIZE] + PrintConstraint(c)
  }

  function PrintEnum(e: EnumSyntax): Tokens {
    match e
    case EnumMarker => [Ellipsis]
    case EnumName(name, None) => [NameToken(name)]
    case EnumName(name, Some(n)) => [NameToken(name), LParen] + (n + [RParen])
  }

  /** Names between commas, up to and with the closing brace. */
  function PrintEnums(es: seq<EnumSyntax>): Tokens {
    if es == [] then [RBrace]
    else PrintEnum(es[0]) + ((if |es| > 1 then [Comma] else []) + PrintEnums(es[1..]))
  }

  function PrintItem(i: ItemSyntax): Tokens {
    match i
    case Marker => [Ellipsis]
    case Component(name, ty, optional) => [NameToken(name)] + (Print(ty) + (if optional then [OPTIONAL] else []))
  }

  function PrintItems(items: seq<ItemSyntax>): Tokens {
    if items == [] then [RBrace]
    else PrintItem(items[0]) + ((if |items| > 1 then [Comma] else []) + PrintItems(items[1..]))
  }

  function PrintBraced(ts: Option<Tokens>): Tokens {
    if ts.None? then [] else [LBrace] + (ts.value + [RBrace])
  }

  function PrintBase(b: BaseSyntax): Tokens {
    match b
    case Listing(kw, items) =>
      [match kw case Sequence => SEQUENCE case Set => SET case Alternatives => CHOICE, LBrace] + PrintItems(items)
    case ListType(isSet, size, tag, item) =>
      [if isSet then SET else SEQUENCE] + (PrintSize(size) + ([OF] + ((if tag.Some? then [Word(tag.value)] else []) + Print(item))))
    case Enumeration(names) => [ENUMERATED, LBrace] + PrintEnums(names)
    case Integer(named) => [INTEGER] + PrintBraced(named)
    case Boolean => [BOOLEAN]
    case NullType => [NULL]
    case ObjectIdentifier => [OBJECT, IDENTIFIER]
    case OctetString => [OCTET, STRING]
    case BitString(named) => [BIT, STRING] + PrintBraced(named)
    case Characters(kind) => [CharString(kind)]
    case OpenType(field) => [TYPE_IDENTIFIER, Dot, Ampersand, field]
    case Reference(name) => [Word(name)]
    case Parameterized(name, args) => [Word(name), LBrace] + (args + [RBrace])
  }

  function Print(t: TypeSyntax): Tokens {
    PrintBase(t.base) + PrintConstraints(t.narrowed)
  }

  // ---- what it means --------------------------------------------------------------------

  function MeanEndpoint(e: Endpoint): Option<int> {
    if e.Number? then Some(e.n) else None
  }

  function MeanElement(e: ElementSyntax): Constraint {
    match e
    case InSize(c) => Constraint(None, Some(MeanConstraint(c).value), None)
    case From(text) => Constraint(None, None, Some(text))
    case Nested(c) => MeanConstraint(c)
    case Single(at) => Constraint(Some(Bounds(MeanEndpoint(at), MeanEndpoint(at), false)), None, None)
    case Range(lb, ub) => Constraint(Some(Bounds(MeanEndpoint(lb), MeanEndpoint(ub), false)), None, None)
    case Hidden(_, _) => NOTHING
  }

  function MeanElements(es: seq<ElementSyntax>, sofar: Constraint): Constraint {
    if es == [] then sofar else MeanElements(es[1..], Merge(sofar, MeanElement(es[0])))
  }

  function MeanConstraint(c: ConstraintSyntax): Constraint {
    var m := MeanElements(c.elements, NOTHING);
    if c.ext then Loosen(m) else m
  }

  function MeanNarrowed(t: Type, cs: seq<ConstraintSyntax>): Result<Type, Fault>
    decreases |cs|
  {
    if cs == [] then Success(t) else
      var u :- Apply(t, MeanConstraint(cs[0]));
      MeanNarrowed(u, cs[1..])
  }

  function MeanSize(s: SizeSyntax): Bounds {
    var b := match s
      case NoSize => None
      case Inside(c) => (var m := MeanConstraint(c); if m.size.Some? then m.size.value else None)
      case Bare(c) => MeanConstraint(c).value;
    if b.Some? then b.value else Bounds(Some(0), None, false)
  }

  function MeanEnums(es: seq<EnumSyntax>, root: seq<string>, ext: Option<seq<string>>): Type
    decreases |es|
  {
    if es == [] then Enum(root, ext)
    else if es[0].EnumMarker? then MeanEnums(es[1..], root, if ext.Some? then ext else Some([]))
    else if ext.Some? then MeanEnums(es[1..], root, Some(ext.value + [es[0].name]))
    else MeanEnums(es[1..], root + [es[0].name], None)
  }

  /** Components before the marker are the root, those after it the extension. */
  function MeanItems(items: seq<ItemSyntax>, root: seq<Field>, ext: Extension): Result<(seq<Field>, Extension), Fault>
    decreases items
  {
    if items == [] then Success((root, ext))
    else if items[0].Marker? then
      if ext.Open? then Failure(Syntax) else MeanItems(items[1..], root, Open([]))
    else
      var t :- MeanType(items[0].ty);
      var f := Field(items[0].name, t, items[0].optional);
      if ext.Open? then MeanItems(items[1..], root, Open(ext.fields + [f])) else MeanItems(items[1..], root + [f], ext)
  }

  function MeanBase(b: BaseSyntax): Result<Type, Fault>
    decreases b
  {
    match b
    case Listing(kw, items) =>
      var (root, ext) :- MeanItems(items, [], Closed);
      Success(if kw.Alternatives? then Choice(root, ext) else Seq(root, ext))
    case ListType(_, size, _, item) =>
      var t :- MeanType(item);
      Success(SeqOf(Some(MeanSize(size)), t))
    case Enumeration(names) => Success(MeanEnums(names, [], None))
    case Integer(_) => Success(Int(None))
    case Boolean => Success(Bool)
    case NullType => Success(Null)
    case ObjectIdentifier => Success(Oid)
    case OctetString => Success(Octets(None))
    case BitString(_) => Success(Bits(None))
    case Characters(kind) => Success(Chars(kind, None, None))
    case OpenType(_) => Success(Opaque("TYPE-IDENTIFIER.&Type"))
    case Reference(name) => Success(Ref(name, []))
    case Parameterized(name, _) => Success(Opaque("parameterized type " + name + "{}"))
  }

  function MeanType(t: TypeSyntax): Result<Type, Fault>
    decreases t
  {
    var b :- MeanBase(t.base);
    MeanNarrowed(b, t.narrowed)
  }
}
