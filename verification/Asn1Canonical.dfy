/** One canonical way to write each type tree the notation can express, and that it reads back. */
module Asn1Canonical {
  import opened Wrappers
  import opened Asn1Types
  import opened Asn1Parse
  import opened Asn1Lexer
  import opened Asn1Grammar
  import opened Asn1RoundTrip

  const OPEN_TYPE := "TYPE-IDENTIFIER.&Type"

  function ParameterizedWhy(name: string): string {
    "parameterized type " + name + "{}"
  }

  ghost predicate WritableWhy(why: string) {
    why == OPEN_TYPE || exists name :: IsUpper(Word(name)) && IsName(name) && why == ParameterizedWhy(name)
  }

  /** An alphabet that can be quoted. */
  predicate Quotable(alphabet: Option<string>) {
    alphabet.Some? ==> '"' !in alphabet.value
  }

  predicate AllIdentifiers(names: seq<string>) {
    forall i :: 0 <= i < |names| ==> IsIdentifier(names[i])
  }

  /** Trees that some type expression stands for: sizes given, names that are identifiers, references capitalised. */
  ghost predicate Writable(t: Type) {
    match t
    case Seq(root, ext) => WritableAll(root) && (ext.Open? ==> WritableAll(ext.fields))
    case Choice(root, ext) => WritableAll(root) && (ext.Open? ==> WritableAll(ext.fields))
    case SeqOf(size, item) => size.Some? && Writable(item)
    case Opaque(why) => WritableWhy(why)
    case Ref(name, cs) => IsUpper(Word(name)) && IsName(name) && forall i :: 0 <= i < |cs| ==> Quotable(cs[i].alphabet)
    case Enum(names, ext) => AllIdentifiers(names) && (ext.Some? ==> AllIdentifiers(ext.value))
    case Chars(_, _, alphabet) => Quotable(alphabet)
    case _ => true
  }

  ghost predicate WritableAll(fs: seq<Field>) {
    forall i :: 0 <= i < |fs| ==> IsIdentifier(fs[i].name) && Writable(fs[i].ty)
  }

  function CanonBounds(b: Bounds): ConstraintSyntax {
    Parens([Range(if b.lb.Some? then Number(b.lb.value) else Min, if b.ub.Some? then Number(b.ub.value) else Max)], b.ext)
  }

  function CanonConstraint(c: VisibleConstraint): ConstraintSyntax {
    Parens((if c.value.Some? then [Nested(CanonBounds(c.value.value))] else []) +
           (if c.size.Some? then [InSize(if c.size.value.Some? then CanonBounds(c.size.value.value) else Parens([From("")], false))]
            else []) +
           (if c.alphabet.Some? then [From(c.alphabet.value)] else []), false)
  }

  function CanonConstraints(cs: seq<VisibleConstraint>): seq<ConstraintSyntax> {
    seq(|cs|, i requires 0 <= i < |cs| => CanonConstraint(cs[i]))
  }

  /** The constraint list that gives a string type this size and alphabet. */
  function CanonString(size: Option<Bounds>, alphabet: Option<string>): seq<ConstraintSyntax> {
    if size.None? && alphabet.None? then []
    else [CanonConstraint(Constraint(None, if size.Some? then Some(size) else None, alphabet))]
  }

  function CanonNames(names: seq<string>): seq<EnumSyntax> {
    seq(|names|, i requires 0 <= i < |names| => EnumName(names[i], None))
  }

  ghost function CanonFields(fs: seq<Field>): seq<ItemSyntax>
    requires WritableAll(fs)
    decreases fs
  {
    if fs == [] then [] else [Component(fs[0].name, Canon(fs[0].ty), fs[0].optional)] + CanonFields(fs[1..])
  }

  ghost function CanonOpaque(why: string): BaseSyntax
    requires WritableWhy(why)
  {
    if why == OPEN_TYPE then OpenType(Word("Type")) else
      var name :| IsUpper(Word(name)) && IsName(name) && why == ParameterizedWhy(name);
      Parameterized(name, [])
  }

  ghost function Canon(t: Type): TypeSyntax
    requires Writable(t)
    decreases t
  {
    match t
    case Seq(root, ext) =>
      TypeSyntax(Listing(Sequence, CanonFields(root) + (if ext.Open? then [Marker] + CanonFields(ext.fields) else [])), [])
    case Choice(root, ext) =>
      TypeSyntax(Listing(Alternatives, CanonFields(root) + (if ext.Open? then [Marker] + CanonFields(ext.fields) else [])), [])
    case SeqOf(size, item) => TypeSyntax(ListType(false, Bare(CanonBounds(size.value)), None, Canon(item)), [])
    case Enum(names, ext) =>
      TypeSyntax(Enumeration(CanonNames(names) + (if ext.Some? then [EnumMarker] + CanonNames(ext.value) else [])), [])
    case Int(range) => TypeSyntax(Integer(None), if range.Some? then [CanonBounds(range.value)] else [])
    case Bool => TypeSyntax(Boolean, [])
    case Null => TypeSyntax(NullType, [])
    case Oid => TypeSyntax(ObjectIdentifier, [])
    case Octets(size) => TypeSyntax(OctetString, CanonString(size, None))
    case Bits(size) => TypeSyntax(BitString(None), CanonString(size, None))
    case Chars(kind, size, alphabet) => TypeSyntax(Characters(kind), CanonString(size, alphabet))
    case Opaque(why) => TypeSyntax(CanonOpaque(why), [])
    case Ref(name, cs) => TypeSyntax(Reference(name), CanonConstraints(cs))
  }

  // ---- the canonical form means the tree ------------------------------------------------

  lemma BoundsMean(b: Bounds)
    ensures ValidConstraint(CanonBounds(b)) && MeanConstraint(CanonBounds(b)) == Constraint(Some(b), None, None)
  {
    var es := CanonBounds(b).elements;
    assert es[1..] == [];
    assert MeanElements(es, NOTHING) == MeanElements([], Merge(NOTHING, MeanElement(es[0])));
  }

  lemma OneMeans(e: ElementSyntax, sofar: Constraint)
    ensures MeanElements([e], sofar) == Merge(sofar, MeanElement(e))
  {
    assert [e][1..] == [];
  }

  lemma ConstraintMeans(c: VisibleConstraint)
    requires Quotable(c.alphabet)
    ensures ValidConstraint(CanonConstraint(c)) && MeanConstraint(CanonConstraint(c)) == c
  {
    var none := Parens([From("")], false);
    OneMeans(From(""), NOTHING);
    if c.value.Some? {
      BoundsMean(c.value.value);
    }
    if c.size.Some? && c.size.value.Some? {
      BoundsMean(c.size.value.value);
    }
    var es := CanonConstraint(c).elements;
    var v := if c.value.Some? then [Nested(CanonBounds(c.value.value))] else [];
    var s := if c.size.Some? then [InSize(if c.size.value.Some? then CanonBounds(c.size.value.value) else none)] else [];
    var a := if c.alphabet.Some? then [From(c.alphabet.value)] else [];
    assert es == v + s + a;
    MeanAppend(v, s + a, NOTHING);
    MeanAppend(s, a, MeanElements(v, NOTHING));
    assert es == v + (s + a);
    ElementsValid(es);
  }

  lemma {:induction false} MeanAppend(a: seq<ElementSyntax>, b: seq<ElementSyntax>, sofar: Constraint)
    ensures MeanElements(a + b, sofar) == MeanElements(b, MeanElements(a, sofar))
    decreases |a|
  {
    if a == [] {
      assert a + b == b;
    } else {
      assert (a + b)[1..] == a[1..] + b;
      MeanAppend(a[1..], b, Merge(sofar, MeanElement(a[0])));
    }
  }

  // ---- what a constraint says, element by element ---------------------------------------

  /** The last range, size and alphabet that any element states. */
  function LastRange(es: seq<ElementSyntax>): Option<Bounds> {
    if es == [] then None
    else
      var m := MeanElement(es[|es| - 1]);
      if m.value.Some? then m.value else LastRange(es[..|es| - 1])
  }

  function LastSize(es: seq<ElementSyntax>): Option<Option<Bounds>> {
    if es == [] then None
    else
      var m := MeanElement(es[|es| - 1]);
      if m.size.Some? then m.size else LastSize(es[..|es| - 1])
  }

  function LastAlphabet(es: seq<ElementSyntax>): Option<string> {
    if es == [] then None
    else
      var m := MeanElement(es[|es| - 1]);
      if m.alphabet.Some? then m.alphabet else LastAlphabet(es[..|es| - 1])
  }

  /** Bounds that an extension marker after them has opened. */
  function Opened(b: Option<Bounds>, ext: bool): Option<Bounds> {
    match b case None => None case Some(x) => Some(Bounds(x.lb, x.ub, x.ext || ext))
  }

  lemma {:induction false} ElementsSay(es: seq<ElementSyntax>)
    ensures MeanElements(es, NOTHING) == Constraint(LastRange(es), LastSize(es), LastAlphabet(es))
    decreases |es|
  {
    if es != [] {
      var n := |es| - 1;
      ElementsSay(es[..n]);
      MeanAppend(es[..n], [es[n]], NOTHING);
      OneMeans(es[n], MeanElements(es[..n], NOTHING));
      assert es == es[..n] + [es[n]];
    }
  }

  /** Of intersected elements the last to state something decides it, and the marker opens the range and the size. */
  lemma ConstraintSays(c: ConstraintSyntax)
    ensures var m := MeanConstraint(c);
            && m.value == Opened(LastRange(c.elements), c.ext)
            && m.size == (match LastSize(c.elements) case None => None case Some(s) => Some(Opened(s, c.ext)))
            && m.alphabet == LastAlphabet(c.elements)
  {
    ElementsSay(c.elements);
    hide LastRange, LastSize, LastAlphabet, MeanElements;
  }

  lemma {:induction false} ElementsValid(es: seq<ElementSyntax>)
    requires |es| > 0 && forall i :: 0 <= i < |es| ==> ValidElement(es[i]) && !es[i].Hidden?
    ensures ValidElements(es, false)
    decreases |es|
  {
    if |es| > 1 {
      ElementsValid(es[1..]);
    }
  }

  lemma {:induction false} ConstraintsMean(name: string, own: seq<VisibleConstraint>, cs: seq<VisibleConstraint>)
    requires forall i :: 0 <= i < |cs| ==> Quotable(cs[i].alphabet)
    ensures forall i :: 0 <= i < |cs| ==> ValidConstraint(CanonConstraints(cs)[i])
    ensures MeanNarrowed(Ref(name, own), CanonConstraints(cs)) == Success(Ref(name, own + cs))
    decreases |cs|
  {
    if cs == [] {
      assert own + cs == own;
    } else {
      ConstraintMeans(cs[0]);
      ConstraintsMean(name, own + [cs[0]], cs[1..]);
      assert CanonConstraints(cs)[1..] == CanonConstraints(cs[1..]);
      assert own + [cs[0]] + cs[1..] == own + cs;
      forall i | 0 <= i < |cs|
        ensures ValidConstraint(CanonConstraints(cs)[i])
      {
        ConstraintMeans(cs[i]);
      }
    }
  }

  lemma StringMeans(t: Type, size: Option<Bounds>, alphabet: Option<string>)
    requires t.Octets? || t.Bits? || t.Chars?
    requires t.size.None? && (t.Chars? ==> t.alphabet.None?)
    requires (!t.Chars? ==> alphabet.None?) && Quotable(alphabet)
    ensures forall i :: 0 <= i < |CanonString(size, alphabet)| ==> ValidConstraint(CanonString(size, alphabet)[i])
    ensures MeanNarrowed(t, CanonString(size, alphabet)) ==
            Success(match t case Octets(_) => Octets(size) case Bits(_) => Bits(size)
                    case Chars(kind, _, _) => Chars(kind, size, alphabet) case _ => t)
  {
    var cs := CanonString(size, alphabet);
    if cs != [] {
      ConstraintMeans(Constraint(None, if size.Some? then Some(size) else None, alphabet));
      assert cs[1..] == [];
    }
  }

  lemma {:induction false} NamesMean(names: seq<string>, rest: seq<EnumSyntax>, root: seq<string>, ext: Option<seq<string>>)
    ensures MeanEnums(CanonNames(names) + rest, root, ext) ==
            if ext.Some? then MeanEnums(rest, root, Some(ext.value + names)) else MeanEnums(rest, root + names, None)
    decreases |names|
  {
    var es := CanonNames(names) + rest;
    if names == [] {
      assert es == rest;
      assert root + names == root && (ext.Some? ==> ext.value + names == ext.value);
    } else {
      assert es[0] == EnumName(names[0], None) && es[1..] == CanonNames(names[1..]) + rest;
      if ext.Some? {
        NamesMean(names[1..], rest, root, Some(ext.value + [names[0]]));
        assert ext.value + [names[0]] + names[1..] == ext.value + names;
      } else {
        NamesMean(names[1..], rest, root + [names[0]], None);
        assert root + [names[0]] + names[1..] == root + names;
      }
    }
  }

  lemma EnumMeans(names: seq<string>, ext: Option<seq<string>>)
    requires AllIdentifiers(names) && (ext.Some? ==> AllIdentifiers(ext.value))
    ensures var es := CanonNames(names) + (if ext.Some? then [EnumMarker] + CanonNames(ext.value) else []);
            && MeanEnums(es, [], None) == Enum(names, ext)
            && forall i :: 0 <= i < |es| ==> ValidEnum(es[i])
  {
    hide IsIdentifier;
    var tail := if ext.Some? then [EnumMarker] + CanonNames(ext.value) else [];
    NamesMean(names, tail, [], None);
    assert [] + names == names;
    if ext.Some? {
      assert tail[1..] == CanonNames(ext.value) + [];
      NamesMean(ext.value, [], names, Some([]));
      assert [] + ext.value == ext.value;
    }
  }

  lemma {:induction false} FieldsMean(fs: seq<Field>, rest: seq<ItemSyntax>, root: seq<Field>, ext: Extension)
    requires WritableAll(fs)
    ensures ValidItems(CanonFields(fs))
    ensures MeanItems(CanonFields(fs) + rest, root, ext) ==
            if ext.Open? then MeanItems(rest, root, Open(ext.fields + fs)) else MeanItems(rest, root + fs, ext)
    decreases fs
  {
    hide IsName, IsIdentifier, Lexical, AllLexical;
    hide Canon, MeanType, Valid, Writable;
    var items := CanonFields(fs) + rest;
    if fs == [] {
      assert items == rest;
      assert root + fs == root && (ext.Open? ==> ext.fields + fs == ext.fields);
    } else {
      CanonMeans(fs[0].ty);
      assert items[0] == Component(fs[0].name, Canon(fs[0].ty), fs[0].optional) && items[1..] == CanonFields(fs[1..]) + rest;
      if ext.Open? {
        FieldsMean(fs[1..], rest, root, Open(ext.fields + [fs[0]]));
        assert ext.fields + [fs[0]] + fs[1..] == ext.fields + fs;
      } else {
        FieldsMean(fs[1..], rest, root + [fs[0]], ext);
        assert root + [fs[0]] + fs[1..] == root + fs;
      }
    }
  }

  lemma ItemsConcat(a: seq<ItemSyntax>, b: seq<ItemSyntax>)
    requires ValidItems(a) && ValidItems(b)
    ensures ValidItems(a + b)
  {
    hide IsIdentifier, Valid;
  }

  lemma {:induction false} ListingMeans(t: Type)
    requires Writable(t) && (t.Seq? || t.Choice?)
    ensures Valid(Canon(t)) && MeanType(Canon(t)) == Success(t)
    decreases t, 0
  {
    var tail := if t.ext.Open? then [Marker] + CanonFields(t.ext.fields) else [];
    FieldsMean(t.root, tail, [], Closed);
    assert [] + t.root == t.root;
    if t.ext.Open? {
      assert tail[1..] == CanonFields(t.ext.fields) + [];
      assert CanonFields(t.ext.fields) + [] == CanonFields(t.ext.fields);
      FieldsMean(t.ext.fields, [], t.root, Open([]));
      assert [] + t.ext.fields == t.ext.fields;
      ItemsConcat([Marker], CanonFields(t.ext.fields));
    }
    ItemsConcat(CanonFields(t.root), tail);
    hide IsName, IsIdentifier, ValidItems, CanonFields, WritableAll;
  }

  lemma IntMeans(range: Option<Bounds>)
    ensures Valid(Canon(Int(range))) && MeanType(Canon(Int(range))) == Success(Int(range))
  {
    if range.Some? {
      BoundsMean(range.value);
      var c := CanonBounds(range.value);
      assert MeanNarrowed(Int(None), [c]) == MeanNarrowed(Int(range), [c][1..]);
    }
  }

  lemma StringTypeMeans(t: Type)
    requires (t.Octets? || t.Bits? || t.Chars?) && Writable(t)
    ensures Valid(Canon(t)) && MeanType(Canon(t)) == Success(t)
  {
    hide CanonString, MeanNarrowed, ValidConstraint, Apply;
    if t.Octets? {
      StringMeans(Octets(None), t.size, None);
    } else if t.Bits? {
      StringMeans(Bits(None), t.size, None);
    } else {
      StringMeans(Chars(t.kind, None, None), t.size, t.alphabet);
    }
  }

  lemma RefMeans(t: Type)
    requires t.Ref? && Writable(t)
    ensures Valid(Canon(t)) && MeanType(Canon(t)) == Success(t)
  {
    hide CanonConstraint, MeanNarrowed, ValidConstraint, Apply;
    ConstraintsMean(t.name, [], t.constraints);
    assert [] + t.constraints == t.constraints;
  }

  lemma TypeIsName()
    ensures Lexical(Word("Type"))
  {
  }

  lemma OpaqueMeans(t: Type)
    requires t.Opaque? && Writable(t)
    ensures Valid(Canon(t)) && MeanType(Canon(t)) == Success(t)
  {
    TypeIsName();
    hide IsName, Lexical;
  }

  /** The canonical expression is well formed and means exactly the tree it was made from. */
  lemma {:induction false} CanonMeans(t: Type)
    requires Writable(t)
    ensures Valid(Canon(t)) && MeanType(Canon(t)) == Success(t)
    decreases t, 1
  {
    hide IsName, IsIdentifier, Lexical, AllLexical;
    if t.Seq? || t.Choice? {
      ListingMeans(t);
    } else if t.SeqOf? {
      BoundsMean(t.size.value);
      CanonMeans(t.item);
    } else if t.Enum? {
      EnumMeans(t.names, t.extNames);
    } else if t.Int? {
      IntMeans(t.range);
    } else if t.Octets? || t.Bits? || t.Chars? {
      StringTypeMeans(t);
    } else if t.Ref? {
      RefMeans(t);
    } else if t.Opaque? {
      OpaqueMeans(t);
    }
  }

  /**
   Every writable type tree, written canonically anywhere in the tokens and followed by
   anything that cannot continue it, parses to exactly that tree and exactly that span.
   */
  lemma CanonicalRoundTrip(ts: Tokens, i: nat, j: nat, t: Type)
    requires Writable(t) && Spans(ts, i, j, Print(Canon(t)))
    requires !Next(ts, j, LParen) && !Next(ts, j, LBrace)
    ensures ParseType(ts, i) == Success((t, j))
  {
    CanonMeans(t);
    ReadsType(ts, i, j, Canon(t));
  }
}
