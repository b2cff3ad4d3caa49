/**
 The flat table the emitter prints, what an index in it denotes, and the invariant that ties
 a table under construction to the modules it is built from.
 */
module PerTable {
  import opened Wrappers
  import opened Asn1Types

  datatype Size = Size(lb: int, ub: Option<int>, ext: bool)

  datatype FieldRef = FieldRef(name: string, ty: nat, optional: bool)

  /** One table entry; the numbers are indices into the same table. */
  datatype Ty =
    | TyNull
    | TyBoolean
    | TyOid
    | TyOpaque(why: string)
    | TyInt(lb: Option<int>, ub: Option<int>, ext: bool)
    | TyEnum(names: seq<string>, extNames: Option<seq<string>>)
    | TyOctets(size: Size)
    | TyBits(size: Size)
    | TyChars(kind: CharKind, size: Size, alphabet: Option<string>)
    | TySeqOf(size: Size, item: nat)
    | TySeq(root: seq<FieldRef>, extension: Option<seq<FieldRef>>)
    | TyChoice(root: seq<FieldRef>, extension: Option<seq<FieldRef>>)
    | TyAlias(target: nat)

  datatype Entry = Entry(name: string, expr: Ty)

  function SizeOf(s: Option<Bounds>): Size {
    match s
    case None => Size(0, None, false)
    case Some(b) => Size(if b.lb.Some? then b.lb.value else 0, b.ub, b.ext)
  }

  predicate IsLeaf(t: Type) {
    !t.Seq? && !t.Choice? && !t.SeqOf? && !t.Ref?
  }

  function LeafTy(t: Type): (e: Ty)
    requires IsLeaf(t)
    ensures !e.TyAlias? && !e.TySeqOf? && !e.TySeq? && !e.TyChoice?
  {
    match t
    case Null => TyNull
    case Bool => TyBoolean
    case Oid => TyOid
    case Opaque(why) => TyOpaque(why)
    case Int(None) => TyInt(None, None, false)
    case Int(Some(b)) => TyInt(b.lb, b.ub, b.ext)
    case Enum(names, ext) => TyEnum(names, ext)
    case Octets(s) => TyOctets(SizeOf(s))
    case Bits(s) => TyBits(SizeOf(s))
    case Chars(k, s, a) => TyChars(k, SizeOf(s), a)
  }

  // ---- what a leaf means ----------------------------------------------------------------

  datatype Form =
    | Nothing
    | Truth
    | ObjectId
    | Foreign(why: string)
    | Number
    | OneOf(names: seq<string>, more: Option<seq<string>>)
    | Bytes
    | BitString
    | Text(kind: CharKind, alphabet: Option<string>)

  /** What values a leaf has: their form, which numbers or lengths, and whether others may come. */
  datatype Sense = Sense(form: Form, admits: iset<int>, ext: bool)

  predicate Lies(n: int, lb: Option<int>, ub: Option<int>) {
    (lb.Some? ==> lb.value <= n) && (ub.Some? ==> n <= ub.value)
  }

  ghost function Between(lb: Option<int>, ub: Option<int>): iset<int> {
    iset n: int | Lies(n, lb, ub)
  }

  /** The numbers a range leaves: all, if there is none. */
  ghost function Numbers(r: Option<Bounds>): iset<int> {
    iset n: int | r.Some? ==> Lies(n, r.value.lb, r.value.ub)
  }

  /** The lengths a size constraint leaves: all, if there is none. */
  ghost function Lengths(s: Option<Bounds>): iset<int> {
    iset n: int | 0 <= n && (s.Some? ==> Lies(n, s.value.lb, s.value.ub))
  }

  predicate MayGrow(s: Option<Bounds>) {
    s.Some? && s.value.ext
  }

  /** The lengths a size in the table leaves. */
  ghost function Counts(z: Size): iset<int> {
    iset n: int | 0 <= n && Lies(n, Some(z.lb), z.ub)
  }

  /** A leaf of the notation, by what the notation says. */
  ghost function TypeSense(t: Type): Sense
    requires IsLeaf(t)
  {
    match t
    case Null => Sense(Nothing, iset{}, false)
    case Bool => Sense(Truth, iset{}, false)
    case Oid => Sense(ObjectId, iset{}, false)
    case Opaque(why) => Sense(Foreign(why), iset{}, false)
    case Int(r) => Sense(Number, Numbers(r), MayGrow(r))
    case Enum(names, more) => Sense(OneOf(names, more), iset{}, more.Some?)
    case Octets(s) => Sense(Bytes, Lengths(s), MayGrow(s))
    case Bits(s) => Sense(BitString, Lengths(s), MayGrow(s))
    case Chars(kind, s, alphabet) => Sense(Text(kind, alphabet), Lengths(s), MayGrow(s))
  }

  /** A leaf of the table, by what the table says. */
  ghost function EntrySense(e: Ty): Sense
    requires !e.TyAlias? && !e.TySeqOf? && !e.TySeq? && !e.TyChoice?
  {
    match e
    case TyNull => Sense(Nothing, iset{}, false)
    case TyBoolean => Sense(Truth, iset{}, false)
    case TyOid => Sense(ObjectId, iset{}, false)
    case TyOpaque(why) => Sense(Foreign(why), iset{}, false)
    case TyInt(lb, ub, ext) => Sense(Number, Between(lb, ub), ext)
    case TyEnum(names, more) => Sense(OneOf(names, more), iset{}, more.Some?)
    case TyOctets(z) => Sense(Bytes, Counts(z), z.ext)
    case TyBits(z) => Sense(BitString, Counts(z), z.ext)
    case TyChars(kind, z, alphabet) => Sense(Text(kind, alphabet), Counts(z), z.ext)
  }

  lemma SizeAgrees(s: Option<Bounds>)
    ensures Counts(SizeOf(s)) == Lengths(s) && SizeOf(s).ext == MayGrow(s)
  {
  }

  lemma NumbersAgree(r: Option<Bounds>)
    ensures Numbers(r) == if r.Some? then Between(r.value.lb, r.value.ub) else Between(None, None)
  {
  }

  /** What is written for a leaf means what the leaf means. */
  lemma LeafAgrees(t: Type)
    requires IsLeaf(t)
    ensures EntrySense(LeafTy(t)) == TypeSense(t)
  {
    if t.Octets? || t.Bits? || t.Chars? {
      SizeAgrees(t.size);
    }
    hide Counts, Lengths, SizeOf, MayGrow;
    if t.Int? {
      NumbersAgree(t.range);
    }
  }

  // ---- what a type and an index denote --------------------------------------------------

  datatype Branch = Branch(name: string, tree: Tree, optional: bool)

  /** A type unfolded to a finite depth, with every reference and alias seen through. */
  datatype Tree =
    | Cut
    | Broken
    | Leaf(sense: Sense)
    | Many(lengths: iset<int>, grows: bool, item: Tree)
    | Record(root: seq<Branch>, ext: Option<seq<Branch>>)
    | Union(root: seq<Branch>, ext: Option<seq<Branch>>)

  ghost function UnfoldType(mods: Modules, mod: string, t: Type, depth: nat): Tree
    decreases depth, 0
  {
    if depth == 0 then Cut else
      match Head(mods, mod, t)
      case Failure(_) => Broken
      case Success(h) => UnfoldNode(mods, h, depth - 1)
  }

  ghost function UnfoldNode(mods: Modules, h: Scoped, depth: nat): Tree
    requires !h.ty.Ref?
    decreases depth, 3
  {
    if IsLeaf(h.ty) then Leaf(TypeSense(h.ty)) else
      match h.ty
      case SeqOf(s, item) => Many(Lengths(s), MayGrow(s), UnfoldType(mods, h.mod, item, depth))
      case Seq(root, ext) => Record(UnfoldFields(mods, h.mod, root, depth), UnfoldExt(mods, h.mod, ext, depth))
      case Choice(root, ext) => Union(UnfoldFields(mods, h.mod, root, depth), UnfoldExt(mods, h.mod, ext, depth))
  }

  ghost function UnfoldFields(mods: Modules, mod: string, fs: seq<Field>, depth: nat): seq<Branch>
    decreases depth, 1
  {
    seq(|fs|, i requires 0 <= i < |fs| => Branch(fs[i].name, UnfoldType(mods, mod, fs[i].ty, depth), fs[i].optional))
  }

  ghost function UnfoldExt(mods: Modules, mod: string, fs: Extension, depth: nat): Option<seq<Branch>>
    decreases depth, 2
  {
    if fs.Closed? then None else Some(UnfoldFields(mods, mod, fs.fields, depth))
  }

  type Entries = seq<Option<Entry>>

  /** The index reached from `i` by following aliases, if that ends at an entry. */
  function Target(entries: Entries, i: nat, seen: set<nat> := {}): (r: Option<nat>)
    ensures r.Some? ==> r.value < |entries| && entries[r.value].Some? && !entries[r.value].value.expr.TyAlias?
    decreases (set j | 0 <= j < |entries| && entries[j].Some?) - seen
  {
    if i >= |entries| || entries[i].None? || i in seen then None
    else if entries[i].value.expr.TyAlias? then Target(entries, entries[i].value.expr.target, seen + {i})
    else Some(i)
  }

  ghost function UnfoldIndex(entries: Entries, i: nat, depth: nat): Tree
    decreases depth, 0
  {
    if depth == 0 then Cut else
      match Target(entries, i)
      case None => Broken
      case Some(j) => UnfoldEntry(entries, entries[j].value.expr, depth - 1)
  }

  ghost function UnfoldEntry(entries: Entries, e: Ty, depth: nat): Tree
    decreases depth, 3
  {
    match e
    case TySeqOf(z, item) => Many(Counts(z), z.ext, UnfoldIndex(entries, item, depth))
    case TySeq(root, ext) => Record(UnfoldRefs(entries, root, depth), UnfoldRefsExt(entries, ext, depth))
    case TyChoice(root, ext) => Union(UnfoldRefs(entries, root, depth), UnfoldRefsExt(entries, ext, depth))
    case TyAlias(_) => Broken
    case _ => Leaf(EntrySense(e))
  }

  ghost function UnfoldRefs(entries: Entries, fs: seq<FieldRef>, depth: nat): seq<Branch>
    decreases depth, 1
  {
    seq(|fs|, i requires 0 <= i < |fs| => Branch(fs[i].name, UnfoldIndex(entries, fs[i].ty, depth), fs[i].optional))
  }

  ghost function UnfoldRefsExt(entries: Entries, fs: Option<seq<FieldRef>>, depth: nat): Option<seq<Branch>>
    decreases depth, 2
  {
    if fs.None? then None else Some(UnfoldRefs(entries, fs.value, depth))
  }

  // ---- the invariant of a table under construction --------------------------------------

  /**
   `entries`, `index` and `anon` are the emitter's own; `claims` records, for each unnamed
   type written out so far, the index that stands for it.
   */
  datatype Table = Table(entries: Entries, index: map<Key, nat>, anon: map<Ty, nat>, claims: map<Scoped, nat>)

  /** Index `i` is the one that a use of `t` in `mod` has to name. */
  predicate Points(mods: Modules, tb: Table, mod: string, t: Type, i: nat) {
    if t.Ref? && t.constraints == [] then
      var k := Resolve(mods, mod, t.name);
      k.Success? && k.value in tb.index && tb.index[k.value] == i
    else
      var h := Head(mods, mod, t);
      h.Success? && h.value in tb.claims && tb.claims[h.value] == i
  }

  predicate PointsAll(mods: Modules, tb: Table, mod: string, fs: seq<Field>, rs: seq<FieldRef>) {
    && |fs| == |rs|
    && forall i :: 0 <= i < |fs| ==>
         && rs[i].name == fs[i].name
         && rs[i].optional == fs[i].optional
         && Points(mods, tb, mod, fs[i].ty, rs[i].ty)
  }

  predicate PointsExt(mods: Modules, tb: Table, mod: string, fs: Extension, rs: Option<seq<FieldRef>>) {
    && (fs.Open? <==> rs.Some?)
    && (fs.Open? ==> PointsAll(mods, tb, mod, fs.fields, rs.value))
  }

  /** `e` is `t` written out, every part of it by the index that part has to have. */
  predicate Written(mods: Modules, tb: Table, mod: string, t: Type, e: Ty) {
    match t
    case Ref(_, _) => e.TyAlias? && Points(mods, tb, mod, t, e.target)
    case SeqOf(s, item) => e.TySeqOf? && e.size == SizeOf(s) && Points(mods, tb, mod, item, e.item)
    case Seq(root, ext) =>
      e.TySeq? && PointsAll(mods, tb, mod, root, e.root) && PointsExt(mods, tb, mod, ext, e.extension)
    case Choice(root, ext) =>
      e.TyChoice? && PointsAll(mods, tb, mod, root, e.root) && PointsExt(mods, tb, mod, ext, e.extension)
    case _ => e == LeafTy(t)
  }

  /** The anonymous entry `i` is the one and only entry shared under its expression. */
  predicate Anonymous(tb: Table, i: nat) {
    && i < |tb.entries|
    && tb.entries[i].Some?
    && tb.entries[i].value.expr in tb.anon
    && tb.anon[tb.entries[i].value.expr] == i
  }

  predicate SharedAt(tb: Table, e: Ty, i: nat) {
    i < |tb.entries| && tb.entries[i].Some? && tb.entries[i].value.expr == e
  }

  /** Entry `i` belongs to a name. */
  ghost predicate Owned(tb: Table, i: nat) {
    exists k :: k in tb.index && tb.index[k] == i
  }

  /** Entry `i` stands for some unnamed type. */
  ghost predicate Claimed(tb: Table, i: nat) {
    exists c :: c in tb.claims && tb.claims[c] == i
  }

  predicate NamedOk(mods: Modules, tb: Table, k: Key)
    requires k in tb.index
  {
    var i := tb.index[k];
    && Defined(mods, k)
    && i < |tb.entries|
    && (tb.entries[i].Some? ==>
          && tb.entries[i].value.name == k.mod + "." + k.name
          && Written(mods, tb, k.mod, Def(mods, k), tb.entries[i].value.expr))
  }

  predicate ClaimOk(mods: Modules, tb: Table, c: Scoped)
    requires c in tb.claims
  {
    var i := tb.claims[c];
    !c.ty.Ref? && Anonymous(tb, i) && Written(mods, tb, c.mod, c.ty, tb.entries[i].value.expr)
  }

  /** Every entry is the single one of its name or, unnamed, the single one of its shape. */
  ghost predicate Shape(tb: Table) {
    && (forall k :: k in tb.index ==> tb.index[k] < |tb.entries| && !Anonymous(tb, tb.index[k]))
    && (forall k, l :: k in tb.index && l in tb.index && tb.index[k] == tb.index[l] ==> k == l)
    && (forall e :: e in tb.anon ==> SharedAt(tb, e, tb.anon[e]))
    && (forall i {:trigger Owned(tb, i)} :: 0 <= i < |tb.entries| ==> (Anonymous(tb, i) && Claimed(tb, i)) || Owned(tb, i))
  }

  /** Every entry filled so far says what its name or its shape stands for. */
  ghost predicate Meaning(mods: Modules, tb: Table) {
    && (forall k {:trigger NamedOk(mods, tb, k)} :: k in tb.index ==> NamedOk(mods, tb, k))
    && (forall c {:trigger ClaimOk(mods, tb, c)} :: c in tb.claims ==> ClaimOk(mods, tb, c))
  }

  ghost predicate Inv(mods: Modules, tb: Table) {
    Shape(tb) && Meaning(mods, tb)
  }

  predicate SubMap<X, Y(==)>(a: map<X, Y>, b: map<X, Y>) {
    forall x :: x in a ==> x in b && b[x] == a[x]
  }

  /** What emitting one more type may do: add entries, all of them filled, and touch no other. */
  ghost predicate Grows(a: Table, b: Table) {
    && |a.entries| <= |b.entries|
    && (forall i :: 0 <= i < |a.entries| ==> b.entries[i] == a.entries[i])
    && (forall i :: |a.entries| <= i < |b.entries| ==> b.entries[i].Some?)
    && SubMap(a.index, b.index) && SubMap(a.anon, b.anon) && SubMap(a.claims, b.claims)
  }

  ghost predicate Complete(tb: Table) {
    forall i :: 0 <= i < |tb.entries| ==> tb.entries[i].Some?
  }

  lemma WrittenGrows(mods: Modules, a: Table, b: Table, mod: string, t: Type, e: Ty)
    requires SubMap(a.index, b.index) && SubMap(a.claims, b.claims)
    requires Written(mods, a, mod, t, e)
    ensures Written(mods, b, mod, t, e)
  {
  }

  /** The indices determine the expression, so writing a type twice gives the same entry. */
  lemma WrittenOnce(mods: Modules, tb: Table, mod: string, t: Type, d: Ty, e: Ty)
    requires Written(mods, tb, mod, t, d) && Written(mods, tb, mod, t, e)
    ensures d == e
  {
    if t.Seq? || t.Choice? {
      assert d.root == e.root;
      assert d.extension.Some? ==> d.extension.value == e.extension.value;
    }
  }

  // ---- the table denotes the same types -------------------------------------------------

  /** An unnamed type, or a constrained reference, is found at its index directly. */
  lemma ClaimTarget(mods: Modules, tb: Table, mod: string, t: Type, i: nat, seenAt: set<nat>)
    requires Inv(mods, tb)
    requires t.Ref? ==> t.constraints != []
    requires Points(mods, tb, mod, t, i)
    requires i in seenAt ==> !Anonymous(tb, i)
    ensures var h := Head(mods, mod, t).value;
            Target(tb.entries, i, seenAt) == Some(i) && Written(mods, tb, h.mod, h.ty, tb.entries[i].value.expr)
  {
    assert ClaimOk(mods, tb, Head(mods, mod, t).value);
  }

  /** Every alias already followed is farther from a type than `k` is, if it is at any distance. */
  ghost predicate Farther(mods: Modules, seen: set<Key>, k: Key)
    requires Defined(mods, k)
  {
    forall s {:trigger s in seen} :: s in seen && Defined(mods, s) && Distance(mods, s.mod, Def(mods, s), {}).Some? ==>
      && Distance(mods, k.mod, Def(mods, k), {}).Some?
      && Distance(mods, k.mod, Def(mods, k), {}).value < Distance(mods, s.mod, Def(mods, s), {}).value
  }

  lemma FartherNext(mods: Modules, seen: set<Key>, k: Key, next: Key)
    requires Defined(mods, k) && Def(mods, k).Ref? && Resolve(mods, k.mod, Def(mods, k).name) == Success(next)
    requires Farther(mods, seen, k)
    ensures Farther(mods, seen + {k}, next)
  {
    if Distance(mods, k.mod, Def(mods, k), {}).Some? {
      assert {} + {next} == {next};
      DistanceForgets(mods, next.mod, Def(mods, next), {next}, {});
    }
  }

  /** A constrained definition that was written out is not on a cycle through the aliases followed to it. */
  lemma WrittenIsNoCycle(mods: Modules, k: Key, seen: set<Key>)
    requires Defined(mods, k) && Farther(mods, seen, k)
    requires Head(mods, k.mod, Def(mods, k)).Success?
    ensures Head(mods, k.mod, Def(mods, k), seen + {k}) == Head(mods, k.mod, Def(mods, k))
  {
    var d := Def(mods, k);
    CycleHasNoDistance(mods, k.mod, d, {});
    DistanceClear(mods, k.mod, d, {}, seen + {k});
    assert {} + (seen + {k}) == seen + {k};
    CycleHasNoDistance(mods, k.mod, d, seen + {k});
    HeadForgets(mods, k.mod, d, seen + {k}, {});
  }

  /**
   Following aliases in the table arrives where following references in the modules does, and
   goes round for ever exactly when they do.
   */
  lemma {:induction false} TargetIsHead(mods: Modules, tb: Table, k: Key, seen: set<Key>, seenAt: set<nat>)
    requires Inv(mods, tb) && Complete(tb)
    requires Defined(mods, k) && k in tb.index && k !in seen && Farther(mods, seen, k)
    requires forall s :: s in tb.index ==> (s in seen <==> tb.index[s] in seenAt)
    requires forall i :: i in seenAt ==> !Anonymous(tb, i)
    ensures var h := Head(mods, k.mod, Def(mods, k), seen + {k});
            var j := Target(tb.entries, tb.index[k], seenAt);
            && (h.Success? <==> j.Some?)
            && (h.Success? ==> Written(mods, tb, h.value.mod, h.value.ty, tb.entries[j.value].value.expr))
    decreases Keys(mods) - seen
  {
    assert NamedOk(mods, tb, k);
    var d := Def(mods, k);
    var i := tb.index[k];
    var e := tb.entries[i].value.expr;
    assert i !in seenAt;
    if d.Ref? {
      if d.constraints == [] {
        var next := Resolve(mods, k.mod, d.name).value;
        FartherNext(mods, seen, k, next);
        if next !in seen + {k} {
          TargetIsHead(mods, tb, next, seen + {k}, seenAt + {i});
        }
      } else {
        WrittenIsNoCycle(mods, k, seen);
        ClaimTarget(mods, tb, k.mod, d, e.target, seenAt + {i});
      }
    }
  }

  lemma PointsTarget(mods: Modules, tb: Table, mod: string, t: Type, i: nat)
    requires Inv(mods, tb) && Complete(tb)
    requires Points(mods, tb, mod, t, i)
    ensures var h := Head(mods, mod, t);
            var j := Target(tb.entries, i);
            && (h.Success? <==> j.Some?)
            && (h.Success? ==> Written(mods, tb, h.value.mod, h.value.ty, tb.entries[j.value].value.expr))
  {
    if t.Ref? && t.constraints == [] {
      var k := Resolve(mods, mod, t.name).value;
      assert NamedOk(mods, tb, k);
      assert {} + {k} == {k};
      TargetIsHead(mods, tb, k, {}, {});
    } else {
      ClaimTarget(mods, tb, mod, t, i, {});
    }
  }

  /**
   An index denotes exactly the type it stands for, however deep either is unfolded, through
   mutually recursive definitions, imports, aliases and constrained references.
   */
  lemma {:induction false} IndexDenotesType(mods: Modules, tb: Table, mod: string, t: Type, i: nat, depth: nat)
    requires Inv(mods, tb) && Complete(tb)
    requires Points(mods, tb, mod, t, i)
    ensures UnfoldIndex(tb.entries, i, depth) == UnfoldType(mods, mod, t, depth)
    decreases depth, 0
  {
    if depth > 0 {
      PointsTarget(mods, tb, mod, t, i);
      if Head(mods, mod, t).Success? {
        var e := tb.entries[Target(tb.entries, i).value].value.expr;
        EntryDenotes(mods, tb, Head(mods, mod, t).value, e, depth - 1);
      }
    }
  }

  lemma {:induction false} EntryDenotes(mods: Modules, tb: Table, h: Scoped, e: Ty, depth: nat)
    requires Inv(mods, tb) && Complete(tb)
    requires !h.ty.Ref? && Written(mods, tb, h.mod, h.ty, e)
    ensures UnfoldEntry(tb.entries, e, depth) == UnfoldNode(mods, h, depth)
    decreases depth, 3
  {
    hide Lengths, Counts, MayGrow, TypeSense, EntrySense, SizeOf, LeafTy;
    if h.ty.SeqOf? {
      SizeAgrees(h.ty.size);
      IndexDenotesType(mods, tb, h.mod, h.ty.item, e.item, depth);
    } else if h.ty.Seq? || h.ty.Choice? {
      FieldsDenote(mods, tb, h.mod, h.ty.root, e.root, depth);
      ExtDenotes(mods, tb, h.mod, h.ty.ext, e.extension, depth);
    } else {
      LeafAgrees(h.ty);
    }
  }

  lemma {:induction false} ExtDenotes(mods: Modules, tb: Table, mod: string, fs: Extension, rs: Option<seq<FieldRef>>, depth: nat)
    requires Inv(mods, tb) && Complete(tb)
    requires PointsExt(mods, tb, mod, fs, rs)
    ensures UnfoldRefsExt(tb.entries, rs, depth) == UnfoldExt(mods, mod, fs, depth)
    decreases depth, 2
  {
    if fs.Open? {
      FieldsDenote(mods, tb, mod, fs.fields, rs.value, depth);
    }
  }

  lemma {:induction false} FieldsDenote(mods: Modules, tb: Table, mod: string, fs: seq<Field>, rs: seq<FieldRef>, depth: nat)
    requires Inv(mods, tb) && Complete(tb)
    requires PointsAll(mods, tb, mod, fs, rs)
    ensures UnfoldRefs(tb.entries, rs, depth) == UnfoldFields(mods, mod, fs, depth)
    decreases depth, 1
  {
    forall i | 0 <= i < |fs|
      ensures UnfoldIndex(tb.entries, rs[i].ty, depth) == UnfoldType(mods, mod, fs[i].ty, depth)
    {
      IndexDenotesType(mods, tb, mod, fs[i].ty, rs[i].ty, depth);
    }
  }
}
