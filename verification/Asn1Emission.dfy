/**
 What one call of the emitter achieves, stated over the modules and the table before and after
 it, and how the calls it makes add up to that.
 */
module Asn1Emission {
  import opened Wrappers
  import opened Asn1Types
  import opened Asn1Sharing
  import opened PerTable
  import opened TableGrowth

  // ---- the state between two calls ------------------------------------------------------

  /** Shared expressions and names are where they say, whatever has become of the modules. */
  predicate Lookups(tb: Table) {
    && (forall e :: e in tb.anon ==> SharedAt(tb, e, tb.anon[e]))
    && (forall k :: k in tb.index ==> tb.index[k] < |tb.entries|)
  }

  /** Every definition written out so far was calm. */
  ghost predicate CalmSoFar(mods: Modules, tb: Table) {
    forall k {:trigger k in tb.index} ::
      k in tb.index && Defined(mods, k) && tb.index[k] < |tb.entries| && tb.entries[tb.index[k]].Some? ==>
        Calm(mods, tb.index.Keys, k.mod, Def(mods, k), {})
  }

  /** As long as the modules are the original ones, the table says what they say. */
  ghost predicate ReadyAt(origin: Modules, mods: Modules, tb: Table) {
    && Extends(origin, mods) && Lookups(tb)
    && (mods == origin ==> Inv(mods, tb) && CalmSoFar(mods, tb))
  }

  lemma ReadyAfter(origin: Modules, a: Modules, b: Modules, tb: Table)
    requires ReadyAt(origin, a, tb) && Extends(a, b)
    ensures ReadyAt(origin, b, tb)
    ensures b == origin ==> a == origin
  {
    hide Inv, CalmSoFar, Lookups;
    ExtendsTrans(origin, a, b);
    if b == origin {
      NeverBack(a, b);
    }
  }

  lemma CalmGrows(mods: Modules, a: Table, b: Table)
    requires CalmSoFar(mods, a) && SubMap(a.index, b.index)
    requires forall k :: k in b.index && b.index[k] < |b.entries| && b.entries[b.index[k]].Some? && Defined(mods, k) ==>
               || (k in a.index && a.index[k] < |a.entries| && a.entries[a.index[k]].Some?)
               || Calm(mods, b.index.Keys, k.mod, Def(mods, k), {})
    ensures CalmSoFar(mods, b)
  {
    forall k | k in b.index && Defined(mods, k) && b.index[k] < |b.entries| && b.entries[b.index[k]].Some?
      ensures Calm(mods, b.index.Keys, k.mod, Def(mods, k), {})
    {
      if k in a.index && a.index[k] < |a.entries| && a.entries[a.index[k]].Some? {
        assert a.index.Keys <= b.index.Keys;
        CalmMore(mods, a.index.Keys, b.index.Keys, k.mod, Def(mods, k), {});
      }
    }
  }

  lemma ReserveLookups(tb: Table, k: Key)
    requires Lookups(tb)
    ensures Lookups(Reserve(tb, k))
  {
  }

  lemma ReserveCalm(mods: Modules, tb: Table, k: Key)
    requires CalmSoFar(mods, tb) && k !in tb.index
    ensures CalmSoFar(mods, Reserve(tb, k))
  {
    hide Calm;
    CalmGrows(mods, tb, Reserve(tb, k));
  }

  lemma ReserveReady(origin: Modules, mods: Modules, tb: Table, k: Key)
    requires ReadyAt(origin, mods, tb) && Defined(mods, k) && k !in tb.index
    ensures ReadyAt(origin, mods, Reserve(tb, k))
    ensures |Keys(mods) - Reserve(tb, k).index.Keys| < |Keys(mods) - tb.index.Keys|
  {
    hide Calm, Ends, Inv, CalmSoFar, Lookups, Extends, Reserve;
    ReserveLookups(tb, k);
    ReserveLeaves(mods, tb, k);
    if mods == origin {
      ReserveKeepsInv(mods, tb, k);
      ReserveCalm(mods, tb, k);
    }
  }

  lemma ReserveLeaves(mods: Modules, tb: Table, k: Key)
    requires Defined(mods, k) && k !in tb.index
    ensures |Keys(mods) - Reserve(tb, k).index.Keys| < |Keys(mods) - tb.index.Keys|
  {
    FewerLeft(Keys(mods), tb.index.Keys, k);
    assert Reserve(tb, k).index.Keys == tb.index.Keys + {k};
  }

  lemma FewerLeft(all: set<Key>, done: set<Key>, k: Key)
    requires k in all && k !in done
    ensures |all - (done + {k})| < |all - done|
  {
    assert all - (done + {k}) == all - done - {k};
  }

  lemma NoMoreLeft(all: set<Key>, done: set<Key>, more: set<Key>)
    requires done <= more
    ensures |all - more| <= |all - done|
  {
    var gone := (all - done) - (all - more);
    assert all - done == (all - more) + gone;
  }

  /** Filling a reserved entry moves nothing else. */
  lemma FillGrows(a: Table, b: Table, k: Key, e: Ty)
    requires k !in a.index && Grows(Reserve(a, k), b) && Lookups(b)
    ensures k in b.index && b.index[k] == |a.entries| < |b.entries| && b.entries[|a.entries|].None?
    ensures Grows(a, Fill(b, k, e)) && Lookups(Fill(b, k, e))
  {
    var r := Reserve(a, k);
    assert k in r.index && r.index[k] == |a.entries| && r.entries[|a.entries|] == None;
  }

  lemma FillCalm(mods: Modules, b: Table, k: Key, e: Ty)
    requires CalmSoFar(mods, b) && Inv(mods, b) && Defined(mods, k) && k in b.index && b.index[k] < |b.entries|
    requires Calm(mods, b.index.Keys, k.mod, Def(mods, k), {})
    ensures CalmSoFar(mods, Fill(b, k, e))
  {
    assert forall l :: l in b.index && b.index[l] == b.index[k] ==> l == k;
    hide Calm, Inv;
    CalmGrows(mods, b, Fill(b, k, e));
  }

  /** A reserved entry filled, in any state of the modules. */
  lemma FillReady(origin: Modules, mods: Modules, a: Table, b: Table, mod: string, k: Key, e: Ty)
    requires k !in a.index && Grows(Reserve(a, k), b) && Defined(mods, k)
    requires ReadyAt(origin, mods, b)
    requires mods == origin ==>
               && Inv(mods, a) && Resolve(mods, mod, k.name) == Success(k)
               && Rendered(mods, Reserve(a, k), b, k.mod, Def(mods, k), e)
               && Calm(mods, b.index.Keys, k.mod, Def(mods, k), {})
    ensures k in b.index && b.index[k] == |a.entries| < |b.entries|
    ensures ReadyAt(origin, mods, Fill(b, k, e)) && Grows(a, Fill(b, k, e))
    ensures mods == origin ==> Emitted(mods, a, Fill(b, k, e), mod, Ref(k.name, []), |a.entries|)
  {
    hide Calm, Ends, Inv, Emitted, Rendered, CalmSoFar, Lookups, Extends, Grows, Fill, Reserve;
    FillGrows(a, b, k, e);
    if mods == origin {
      FillEmits(mods, a, b, mod, k, e);
      FillCalm(mods, b, k, e);
    }
  }

  /** What an unnamed type leaves: found or added, and claimed while the modules are the original ones. */
  function Shared(tb: Table, name: string, e: Ty): Table {
    if e in tb.anon then tb
    else tb.(entries := tb.entries + [Some(Entry(name, e))], anon := tb.anon[e := |tb.entries|])
  }

  lemma SharedGrows(a: Table, b: Table, name: string, c: Scoped, e: Ty)
    requires Grows(a, b) && Lookups(b)
    ensures var d := Shared(b, name, e);
            && e in d.anon && Lookups(d) && Grows(a, d) && SharedAt(d, e, d.anon[e]) && d.index == b.index
            && Share(b, name, c, e) == d.(claims := b.claims[c := d.anon[e]])
  {
    SharedLookups(b, name, e);
    SharedAdds(b, name, e);
    GrowsTrans(a, b, Shared(b, name, e));
    hide Lookups, Grows;
  }

  lemma SharedLookups(b: Table, name: string, e: Ty)
    requires Lookups(b)
    ensures var d := Shared(b, name, e);
            e in d.anon && Lookups(d) && SharedAt(d, e, d.anon[e])
  {
  }

  lemma SharedAdds(b: Table, name: string, e: Ty)
    ensures Grows(b, Shared(b, name, e))
  {
  }

  lemma ShareCalm(mods: Modules, b: Table, name: string, c: Scoped, e: Ty)
    requires CalmSoFar(mods, b) && Lookups(b)
    ensures CalmSoFar(mods, Share(b, name, c, e))
  {
    hide Calm;
    CalmGrows(mods, b, Share(b, name, c, e));
  }

  lemma ShareReady(origin: Modules, mods: Modules, a: Table, b: Table, name: string, c: Scoped, e: Ty)
    requires ReadyAt(origin, mods, b) && Grows(a, b) && !c.ty.Ref?
    requires mods == origin ==> Rendered(mods, a, b, c.mod, c.ty, e)
    ensures var d := if mods == origin then Share(b, name, c, e) else Shared(b, name, e);
            && e in d.anon && d.anon == Shared(b, name, e).anon && ReadyAt(origin, mods, d) && Grows(a, d)
            && SharedAt(d, e, d.anon[e]) && d.index == b.index
            && (mods == origin ==> Emitted(mods, a, d, c.mod, c.ty, d.anon[e]))
  {
    SharedGrows(a, b, name, c, e);
    if mods == origin {
      ShareEmits(mods, a, b, name, c, e);
      ShareCalm(mods, b, name, c, e);
      ShareLookups(b, name, c, e);
      hide Calm, Ends, Inv, Rendered, CalmSoFar, Extends, Shared, Lookups, Covers, Points;
    }
  }

  lemma ShareLookups(b: Table, name: string, c: Scoped, e: Ty)
    requires Lookups(b)
    ensures Lookups(Share(b, name, c, e))
  {
  }

  /** A constrained reference to a type with no parts. */
  predicate LeafRef(mods: Modules, mod: string, t: Type) {
    t.Ref? && t.constraints != [] && Head(mods, mod, t).Success? && IsLeaf(Head(mods, mod, t).value.ty)
  }

  /** Entry `i` says the leaf type `ty`. */
  predicate LeafAt(tb: Table, i: nat, ty: Type) {
    IsLeaf(ty) && SharedAt(tb, LeafTy(ty), i)
  }

  /** Entry `i` is an alias of one that says the leaf type `ty`. */
  predicate AliasTo(tb: Table, i: nat, ty: Type) {
    i < |tb.entries| && tb.entries[i].Some? && tb.entries[i].value.expr.TyAlias? && LeafAt(tb, tb.entries[i].value.expr.target, ty)
  }

  lemma DefinitionEnds(mods: Modules, k: Key)
    requires k in Ending(mods)
    ensures Defined(mods, k) && Ends(mods, k.mod, Def(mods, k), {})
    ensures AllSound(mods) ==> Sound(mods, k.mod, Def(mods, k))
  {
    EndingEnds(mods, k);
    hide Ends, Ending, Sound;
  }

  lemma SoundDefinition(mods: Modules, k: Key)
    requires AllSound(mods) && Defined(mods, k)
    ensures Sound(mods, k.mod, Def(mods, k))
  {
    hide Sound;
  }

  lemma PlainEnds(mods: Modules, mod: string, name: string, seen: set<Key>)
    ensures Ends(mods, mod, Ref(name, []), seen) <==> Resolve(mods, mod, name).Failure? || Resolve(mods, mod, name).value in Ending(mods)
  {
    hide Ending;
  }

  lemma CalmDefinition(mods: Modules, reach: set<Key>, k: Key)
    requires AllCalm(mods, reach) && k in reach && Defined(mods, k)
    ensures Calm(mods, reach, k.mod, Def(mods, k), {})
  {
    hide Calm;
  }

  lemma CalmPlain(mods: Modules, reach: set<Key>, mod: string, name: string, seen: set<Key>)
    ensures Calm(mods, reach, mod, Ref(name, []), seen) <==>
            Resolve(mods, mod, name).Failure? || Resolve(mods, mod, name).value in reach
  {
  }

  lemma DefinedStill(a: Modules, b: Modules, k: Key)
    requires Extends(a, b) && Defined(a, k)
    ensures Defined(b, k)
  {
  }

  /** From one call to the next: what ends still ends, and less is left to name. */
  lemma Onward(origin: Modules, a: Modules, b: Modules, ta: Table, tb: Table, mod: string, t: Type, seen: set<Key>)
    requires Extends(a, b) && Grows(ta, tb)
    ensures Ends(a, mod, t, seen) == Ends(b, mod, t, seen)
    ensures Keys(a) == Keys(b) && |Keys(b) - tb.index.Keys| <= |Keys(a) - ta.index.Keys|
    ensures Extends(origin, a) && b == origin ==> a == origin
  {
    EndsExtends(a, b, mod, t, seen);
    SameKeys(a, b);
    assert ta.index.Keys <= tb.index.Keys;
    NoMoreLeft(Keys(a), ta.index.Keys, tb.index.Keys);
    if Extends(origin, a) && b == origin {
      NeverBack(a, b);
    }
  }

  // ---- what a call achieves -------------------------------------------------------------

  /** The modules only ever grow, and not at all if the references met share nothing. */
  ghost predicate Moved(origin: Modules, a: Modules, b: Modules, ta: Table, tb: Table, calm: bool, ok: bool) {
    && Extends(a, b)
    && (calm ==> b == a)
    && (ok ==> ReadyAt(origin, b, tb) && Grows(ta, tb))
  }

  ghost predicate CalmIn(mods: Modules, reach: set<Key>, mod: string, t: Type, seen: set<Key>) {
    AllCalm(mods, reach) && Calm(mods, reach, mod, t, seen)
  }

  /** A type was given index `r`. */
  ghost predicate Indexed(origin: Modules, reach: set<Key>, a: Modules, b: Modules, ta: Table, tb: Table,
                          mod: string, t: Type, seen: set<Key>, r: Result<nat, Fault>) {
    && Moved(origin, a, b, ta, tb, CalmIn(a, reach, mod, t, seen), r.Success?)
    && (r.Success? && b == origin ==> Emitted(b, ta, tb, mod, t, r.value) && Calm(b, tb.index.Keys, mod, t, seen))
    && (b == origin && AllSound(b) && Sound(b, mod, t) ==> r.Success?)
    && (LeafRef(a, mod, t) ==> r.Success? && LeafDone(ta, tb, AfterRef(a, mod, t), b, r.value, Head(a, mod, t).value.ty))
    && (IsLeaf(t) ==> r.Success? && LeafDone(ta, tb, a, b, r.value, t))
  }

  /** No name was added, the modules are as expected, and entry `i` says the leaf type `ty`. */
  predicate LeafDone(ta: Table, tb: Table, expected: Modules, b: Modules, i: nat, ty: Type) {
    b == expected && tb.index == ta.index && LeafAt(tb, i, ty)
  }

  /** A type was written as `r`. */
  ghost predicate Wrote(origin: Modules, reach: set<Key>, a: Modules, b: Modules, ta: Table, tb: Table,
                        mod: string, t: Type, seen: set<Key>, r: Result<Ty, Fault>) {
    && Moved(origin, a, b, ta, tb, CalmIn(a, reach, mod, t, seen), r.Success?)
    && (r.Success? && b == origin ==> Rendered(b, ta, tb, mod, t, r.value) && Calm(b, tb.index.Keys, mod, t, seen))
    && (b == origin && AllSound(b) && Sound(b, mod, t) ==> r.Success?)
    && (LeafRef(a, mod, t) ==>
          r.Success? && r.value.TyAlias? && LeafDone(ta, tb, AfterRef(a, mod, t), b, r.value.target, Head(a, mod, t).value.ty))
    && (IsLeaf(t) ==> r == Success(LeafTy(t)) && b == a && tb == ta)
  }

  /** A list of fields was written as `r`. */
  ghost predicate WroteAll(origin: Modules, reach: set<Key>, a: Modules, b: Modules, ta: Table, tb: Table,
                           mod: string, fs: seq<Field>, seen: set<Key>, r: Result<seq<FieldRef>, Fault>) {
    && Moved(origin, a, b, ta, tb, AllCalm(a, reach) && CalmAll(a, reach, mod, fs, seen), r.Success?)
    && (r.Success? && b == origin ==> Listed(b, ta, tb, mod, fs, r.value) && CalmAll(b, tb.index.Keys, mod, fs, seen))
    && (b == origin && AllSound(b) && SoundAll(b, mod, fs) ==> r.Success?)
  }

  /** A definition was given its entry. */
  ghost predicate DefinedAs(origin: Modules, reach: set<Key>, a: Modules, b: Modules, ta: Table, tb: Table,
                            mod: string, k: Key, r: Result<(), Fault>)
    requires Defined(a, k)
  {
    && Moved(origin, a, b, ta, tb, AllCalm(a, reach) && k in reach, r.Success?)
    && (r.Success? ==> k in tb.index && tb.index[k] == |ta.entries|)
    && (r.Success? && b == origin ==> Emitted(b, ta, tb, mod, Ref(k.name, []), |ta.entries|))
    && (b == origin && AllSound(b) ==> r.Success?)
    && (LeafRef(a, k.mod, Def(a, k)) ==> r.Success? && LeafNamed(a, b, ta, tb, k))
  }

  /** A definition that is a constrained reference to a leaf type got an entry that is an alias of it. */
  predicate LeafNamed(a: Modules, b: Modules, ta: Table, tb: Table, k: Key)
    requires Defined(a, k)
  {
    LeafRef(a, k.mod, Def(a, k)) ==>
      && b == AfterRef(a, k.mod, Def(a, k))
      && tb.index == ta.index[k := |ta.entries|]
      && AliasTo(tb, |ta.entries|, Head(a, k.mod, Def(a, k)).value.ty)
  }

  // ---- one call from others -------------------------------------------------------------

  lemma MovedOn(origin: Modules, a: Modules, b: Modules, c: Modules, ta: Table, tb: Table, tc: Table, first: bool, second: bool, ok: bool)
    requires Moved(origin, a, b, ta, tb, first, true) && Moved(origin, b, c, tb, tc, second, ok)
    ensures Moved(origin, a, c, ta, tc, first && second, ok)
    ensures c == origin ==> b == origin
  {
    hide ReadyAt, Extends, Grows;
    ExtendsTrans(a, b, c);
    if ok {
      GrowsTrans(ta, tb, tc);
    }
    ReadyAfterCall(origin, b, tb, c);
  }

  /** Nothing has been done yet. */
  lemma MovedNot(origin: Modules, a: Modules, ta: Table, calm: bool)
    requires ReadyAt(origin, a, ta)
    ensures Moved(origin, a, a, ta, ta, calm, true)
  {
    hide ReadyAt, Extends, Grows;
    ExtendsSelf(a);
    GrowsSelf(ta);
  }

  lemma LeafWritten(origin: Modules, reach: set<Key>, a: Modules, ta: Table, mod: string, t: Type, seen: set<Key>)
    requires ReadyAt(origin, a, ta) && IsLeaf(t)
    ensures Wrote(origin, reach, a, a, ta, ta, mod, t, seen, Success(LeafTy(t)))
  {
    hide ReadyAt, Grows, Extends, Rendered, AllSound;
    MovedNot(origin, a, ta, CalmIn(a, reach, mod, t, seen));
    if a == origin {
      ReadyInv(origin, a, ta);
      RenderedLeaf(a, ta, mod, t);
    }
  }

  lemma RefWritten(origin: Modules, reach: set<Key>, a: Modules, b: Modules, ta: Table, tb: Table,
                   mod: string, t: Type, seen: set<Key>, r: Result<nat, Fault>)
    requires t.Ref? && Indexed(origin, reach, a, b, ta, tb, mod, t, seen, r)
    ensures Wrote(origin, reach, a, b, ta, tb, mod, t, seen, if r.Success? then Success(TyAlias(r.value)) else Failure(r.error))
  {
    hide Moved, Emitted, Rendered, AllSound, Sound, LeafRef, LeafDone, Calm, CalmIn;
    if r.Success? && b == origin {
      RenderedAlias(b, ta, tb, mod, t, r.value);
    }
  }

  lemma ItemWritten(origin: Modules, reach: set<Key>, a: Modules, b: Modules, ta: Table, tb: Table,
                    mod: string, t: Type, seen: set<Key>, r: Result<nat, Fault>)
    requires t.SeqOf? && Indexed(origin, reach, a, b, ta, tb, mod, t.item, seen, r)
    ensures Wrote(origin, reach, a, b, ta, tb, mod, t, seen,
                  if r.Success? then Success(TySeqOf(SizeOf(t.size), r.value)) else Failure(r.error))
  {
    CalmItem(a, reach, mod, t, seen);
    CalmItem(b, tb.index.Keys, mod, t, seen);
    hide Moved, Emitted, Rendered, AllSound, LeafDone, Calm, AllCalm;
    if r.Success? && b == origin {
      RenderedItem(b, ta, tb, mod, t, r.value);
    }
  }

  lemma CalmItem(mods: Modules, reach: set<Key>, mod: string, t: Type, seen: set<Key>)
    requires t.SeqOf?
    ensures Calm(mods, reach, mod, t, seen) == Calm(mods, reach, mod, t.item, seen)
  {
  }

  lemma CalmParts(mods: Modules, reach: set<Key>, mod: string, t: Type, seen: set<Key>)
    requires t.Seq? || t.Choice?
    ensures Calm(mods, reach, mod, t, seen) <==>
            CalmAll(mods, reach, mod, t.root, seen) && (t.ext.Open? ==> CalmAll(mods, reach, mod, t.ext.fields, seen))
  {
  }

  /** The parts of a SEQUENCE or CHOICE: the root, and the extension if there is one. */
  lemma PartsWritten(origin: Modules, reach: set<Key>, a: Modules, b: Modules, c: Modules, ta: Table, tb: Table, tc: Table,
                     mod: string, t: Type, seen: set<Key>, root: seq<FieldRef>, more: Result<seq<FieldRef>, Fault>)
    requires t.Seq? || t.Choice?
    requires WroteAll(origin, reach, a, b, ta, tb, mod, t.root, seen, Success(root))
    requires if t.ext.Open? then WroteAll(origin, reach, b, c, tb, tc, mod, t.ext.fields, seen, more) else c == b && tc == tb
    ensures var ext := if t.ext.Open? && more.Success? then Some(more.value) else None;
            Wrote(origin, reach, a, c, ta, tc, mod, t, seen,
                  if t.ext.Open? && more.Failure? then Failure(more.error)
                  else Success(if t.Seq? then TySeq(root, ext) else TyChoice(root, ext)))
  {
    CalmParts(a, reach, mod, t, seen);
    CalmParts(c, tc.index.Keys, mod, t, seen);
    PartsMoved(origin, reach, a, b, c, ta, tb, tc, mod, t, seen, root, more);
    if c == origin && (t.ext.Open? ==> more.Success?) {
      PartsCalm(origin, reach, b, c, tb, tc, mod, t, seen, root, more);
      RenderedComponents(c, ta, tb, tc, mod, t, root, if t.ext.Open? then Some(more.value) else None);
    }
    hide Moved, Listed, Rendered, AllSound, Calm, CalmAll, AllCalm, SoundAll;
  }

  lemma PartsMoved(origin: Modules, reach: set<Key>, a: Modules, b: Modules, c: Modules, ta: Table, tb: Table, tc: Table,
                   mod: string, t: Type, seen: set<Key>, root: seq<FieldRef>, more: Result<seq<FieldRef>, Fault>)
    requires t.Seq? || t.Choice?
    requires WroteAll(origin, reach, a, b, ta, tb, mod, t.root, seen, Success(root))
    requires if t.ext.Open? then WroteAll(origin, reach, b, c, tb, tc, mod, t.ext.fields, seen, more) else c == b && tc == tb
    ensures Moved(origin, a, c, ta, tc, CalmIn(a, reach, mod, t, seen), t.ext.Open? ==> more.Success?)
    ensures c == origin ==> b == origin
  {
    CalmParts(a, reach, mod, t, seen);
    hide Moved, Listed, AllSound, Calm, CalmAll, AllCalm, SoundAll;
    if t.ext.Open? {
      MovedOn(origin, a, b, c, ta, tb, tc, AllCalm(a, reach) && CalmAll(a, reach, mod, t.root, seen),
              AllCalm(b, reach) && CalmAll(b, reach, mod, t.ext.fields, seen), more.Success?);
      MovedCalm(origin, a, b, ta, tb, AllCalm(a, reach) && CalmAll(a, reach, mod, t.root, seen), true);
      MovedLess(origin, a, c, ta, tc,
                (AllCalm(a, reach) && CalmAll(a, reach, mod, t.root, seen)) && (AllCalm(b, reach) && CalmAll(b, reach, mod, t.ext.fields, seen)),
                CalmIn(a, reach, mod, t, seen), more.Success?);
    } else {
      MovedLess(origin, a, c, ta, tc, AllCalm(a, reach) && CalmAll(a, reach, mod, t.root, seen), CalmIn(a, reach, mod, t, seen), true);
    }
  }

  lemma MovedCalm(origin: Modules, a: Modules, b: Modules, ta: Table, tb: Table, calm: bool, ok: bool)
    requires Moved(origin, a, b, ta, tb, calm, ok)
    ensures calm ==> b == a
  {
  }

  lemma MovedLess(origin: Modules, a: Modules, b: Modules, ta: Table, tb: Table, calm: bool, less: bool, ok: bool)
    requires Moved(origin, a, b, ta, tb, calm, ok) && (less ==> calm)
    ensures Moved(origin, a, b, ta, tb, less, ok)
  {
  }

  lemma PartsCalm(origin: Modules, reach: set<Key>, b: Modules, c: Modules, tb: Table, tc: Table,
                  mod: string, t: Type, seen: set<Key>, root: seq<FieldRef>, more: Result<seq<FieldRef>, Fault>)
    requires t.Seq? || t.Choice?
    requires b == c && CalmAll(b, tb.index.Keys, mod, t.root, seen)
    requires if t.ext.Open? then more.Success? && WroteAll(origin, reach, b, c, tb, tc, mod, t.ext.fields, seen, more) && c == origin
             else tc == tb
    ensures CalmAll(c, tc.index.Keys, mod, t.root, seen)
    ensures t.ext.Open? ==> CalmAll(c, tc.index.Keys, mod, t.ext.fields, seen)
  {
    hide Listed, AllSound, CalmAll, AllCalm, SoundAll, ReadyAt, Extends;
    if t.ext.Open? {
      assert tb.index.Keys <= tc.index.Keys;
      CalmAllMore(b, tb.index.Keys, tc.index.Keys, mod, t.root, seen);
    }
  }

  /** A field more, written or not. */
  lemma FieldWritten(origin: Modules, reach: set<Key>, a: Modules, b: Modules, c: Modules, ta: Table, tb: Table, tc: Table,
                     mod: string, fs: seq<Field>, n: nat, seen: set<Key>, out: seq<FieldRef>, i: nat)
    requires n < |fs| && WroteAll(origin, reach, a, b, ta, tb, mod, fs[..n], seen, Success(out))
    requires Indexed(origin, reach, b, c, tb, tc, mod, fs[n].ty, seen, Success(i))
    ensures WroteAll(origin, reach, a, c, ta, tc, mod, fs[..n + 1], seen, Success(out + [FieldRef(fs[n].name, i, fs[n].optional)]))
  {
    CalmOneMore(a, reach, mod, fs, n, seen);
    FieldMoved(origin, reach, a, b, c, ta, tb, tc, mod, fs, n, seen, out, Success(i));
    hide Moved, Emitted, Listed, AllSound, Sound, SoundAll, Calm, CalmAll, AllCalm, LeafRef;
    if c == origin {
      FieldCalm(c, tb, tc, mod, fs, n, seen);
      ListedOneMore(c, ta, tb, tc, mod, fs, n, out, i);
    }
  }

  lemma FieldFails(origin: Modules, reach: set<Key>, a: Modules, b: Modules, c: Modules, ta: Table, tb: Table, tc: Table,
                   mod: string, fs: seq<Field>, n: nat, seen: set<Key>, out: seq<FieldRef>, f: Fault)
    requires n < |fs| && WroteAll(origin, reach, a, b, ta, tb, mod, fs[..n], seen, Success(out))
    requires Indexed(origin, reach, b, c, tb, tc, mod, fs[n].ty, seen, Failure(f))
    ensures WroteAll(origin, reach, a, c, ta, tc, mod, fs, seen, Failure(f))
  {
    CalmOneMore(a, reach, mod, fs, n, seen);
    CalmFirst(a, reach, mod, fs, n + 1, seen);
    FieldMoved(origin, reach, a, b, c, ta, tb, tc, mod, fs, n, seen, out, Failure(f));
    MovedLess(origin, a, c, ta, tc, AllCalm(a, reach) && CalmAll(a, reach, mod, fs[..n + 1], seen),
              AllCalm(a, reach) && CalmAll(a, reach, mod, fs, seen), false);
    hide Moved, Emitted, Listed, AllSound, Sound, Calm, CalmAll, AllCalm, LeafRef;
  }

  lemma FieldMoved(origin: Modules, reach: set<Key>, a: Modules, b: Modules, c: Modules, ta: Table, tb: Table, tc: Table,
                   mod: string, fs: seq<Field>, n: nat, seen: set<Key>, out: seq<FieldRef>, r: Result<nat, Fault>)
    requires n < |fs| && WroteAll(origin, reach, a, b, ta, tb, mod, fs[..n], seen, Success(out))
    requires Indexed(origin, reach, b, c, tb, tc, mod, fs[n].ty, seen, r)
    ensures Moved(origin, a, c, ta, tc, AllCalm(a, reach) && CalmAll(a, reach, mod, fs[..n + 1], seen), r.Success?)
    ensures c == origin ==> b == origin
    ensures r.Success? ==> tb.index.Keys <= tc.index.Keys
  {
    CalmOneMore(a, reach, mod, fs, n, seen);
    hide Emitted, Listed, AllSound, Sound, SoundAll, Calm, CalmAll, AllCalm, LeafRef, ReadyAt, Extends;
    var first := AllCalm(a, reach) && CalmAll(a, reach, mod, fs[..n], seen);
    MovedOn(origin, a, b, c, ta, tb, tc, first, CalmIn(b, reach, mod, fs[n].ty, seen), r.Success?);
    MovedLess(origin, a, c, ta, tc, first && CalmIn(b, reach, mod, fs[n].ty, seen),
              AllCalm(a, reach) && CalmAll(a, reach, mod, fs[..n + 1], seen), r.Success?);
  }

  lemma CalmOneMore(mods: Modules, reach: set<Key>, mod: string, fs: seq<Field>, n: nat, seen: set<Key>)
    requires n < |fs|
    ensures CalmAll(mods, reach, mod, fs[..n + 1], seen) <==>
            CalmAll(mods, reach, mod, fs[..n], seen) && Calm(mods, reach, mod, fs[n].ty, seen)
  {
    hide Calm;
    assert forall i :: 0 <= i < n ==> fs[..n + 1][i] == fs[..n][i];
    assert fs[..n + 1][n] == fs[n];
  }

  lemma CalmFirst(mods: Modules, reach: set<Key>, mod: string, fs: seq<Field>, n: nat, seen: set<Key>)
    requires n <= |fs|
    ensures CalmAll(mods, reach, mod, fs, seen) ==> CalmAll(mods, reach, mod, fs[..n], seen)
  {
    hide Calm;
    assert forall i :: 0 <= i < n ==> fs[..n][i] == fs[i];
  }

  lemma FieldCalm(mods: Modules, tb: Table, tc: Table, mod: string, fs: seq<Field>, n: nat, seen: set<Key>)
    requires n < |fs| && tb.index.Keys <= tc.index.Keys
    requires CalmAll(mods, tb.index.Keys, mod, fs[..n], seen) && Calm(mods, tc.index.Keys, mod, fs[n].ty, seen)
    ensures CalmAll(mods, tc.index.Keys, mod, fs[..n + 1], seen)
  {
    CalmAllMore(mods, tb.index.Keys, tc.index.Keys, mod, fs[..n], seen);
    CalmOneMore(mods, tc.index.Keys, mod, fs, n, seen);
  }

  lemma NoFields(origin: Modules, reach: set<Key>, a: Modules, ta: Table, mod: string, fs: seq<Field>, seen: set<Key>)
    requires ReadyAt(origin, a, ta)
    ensures WroteAll(origin, reach, a, a, ta, ta, mod, fs[..0], seen, Success([]))
  {
    hide ReadyAt, Listed, AllSound, Calm, AllCalm;
    MovedNot(origin, a, ta, AllCalm(a, reach) && CalmAll(a, reach, mod, fs[..0], seen));
    if a == origin {
      ReadyInv(origin, a, ta);
      ListedNone(a, ta, mod, fs);
    }
  }

  /** An unnamed type, once written, is found under its expression or added. */
  lemma AnonIndexed(origin: Modules, reach: set<Key>, a: Modules, b: Modules, ta: Table, tb: Table,
                    mod: string, t: Type, seen: set<Key>, name: string, e: Ty)
    requires !t.Ref? && Wrote(origin, reach, a, b, ta, tb, mod, t, seen, Success(e))
    ensures var c := Scoped(mod, t);
            var d := if b == origin then Share(tb, name, c, e) else Shared(tb, name, e);
            && e in d.anon && d.anon == Shared(tb, name, e).anon && d.index == tb.index
            && Indexed(origin, reach, a, b, ta, d, mod, t, seen, Success(d.anon[e]))
  {
    hide Emitted, Rendered, AllSound, Sound, Calm, CalmIn, Extends, ReadyAt, Grows, Shared, Share;
    ShareReady(origin, b, ta, tb, name, Scoped(mod, t), e);
  }

  lemma AnonFails(origin: Modules, reach: set<Key>, a: Modules, b: Modules, ta: Table, tb: Table,
                  mod: string, t: Type, seen: set<Key>, f: Fault)
    requires !t.Ref? && Wrote(origin, reach, a, b, ta, tb, mod, t, seen, Failure(f))
    ensures Indexed(origin, reach, a, b, ta, tb, mod, t, seen, Failure(f))
  {
    hide Moved, Emitted, Rendered, AllSound, Sound, Calm, CalmIn;
  }

  /** A constrained reference: followed, then the type it leads to given an index. */
  lemma ConstrainedIndexed(origin: Modules, reach: set<Key>, a: Modules, b: Modules, c: Modules, ta: Table, tc: Table,
                           mod: string, t: Type, seen: set<Key>, last: Key, r: Result<nat, Fault>)
    requires t.Ref? && t.constraints != [] && Ends(a, mod, t, seen) && ReadyAt(origin, a, ta)
    requires Head(a, mod, t).Success? && b == AfterRef(a, mod, t) && Extends(a, b) && (b == a <==> !SharesRef(a, mod, t))
    requires Resolve(a, mod, t.name).Success? && HeadKey(a, Resolve(a, mod, t.name).value) == Success(last)
    requires var h := Head(a, mod, t).value; Indexed(origin, reach, b, c, ta, tc, h.mod, h.ty, seen + {last}, r)
    ensures Indexed(origin, reach, a, c, ta, tc, mod, t, seen, r)
  {
    hide Moved, Emitted, AllSound, Calm, CalmIn, AfterRef, SharesRef, Shares, Ends, ReadyAt, Extends, LeafDone;
    var h := Head(a, mod, t).value;
    ConstrainedMoved(origin, reach, a, b, c, ta, tc, mod, t, seen, last, r);
    EndsChase(a, mod, t, seen);
    if c == origin {
      CalmChase(a, tc.index.Keys, mod, t, seen);
      if r.Success? {
        EmittedHead(a, ta, tc, mod, t, h, r.value);
      }
    }
  }

  lemma ConstrainedMoved(origin: Modules, reach: set<Key>, a: Modules, b: Modules, c: Modules, ta: Table, tc: Table,
                         mod: string, t: Type, seen: set<Key>, last: Key, r: Result<nat, Fault>)
    requires t.Ref? && t.constraints != [] && Ends(a, mod, t, seen) && ReadyAt(origin, a, ta)
    requires Head(a, mod, t).Success? && Extends(a, b) && (b == a <==> !SharesRef(a, mod, t))
    requires Resolve(a, mod, t.name).Success? && HeadKey(a, Resolve(a, mod, t.name).value) == Success(last)
    requires var h := Head(a, mod, t).value; Indexed(origin, reach, b, c, ta, tc, h.mod, h.ty, seen + {last}, r)
    ensures Moved(origin, a, c, ta, tc, CalmIn(a, reach, mod, t, seen), r.Success?)
    ensures c == origin ==> b == origin && a == origin && !SharesRef(a, mod, t)
  {
    var h := Head(a, mod, t).value;
    CalmChase(a, reach, mod, t, seen);
    hide Emitted, AllSound, Calm, AllCalm, SharesRef, ReadyAt, Extends, LeafRef, Ends;
    ReadyAfter(origin, a, b, ta);
    ReadyAfterCall(origin, a, ta, b);
    GrowsSelf(ta);
    assert Moved(origin, a, b, ta, ta, CalmIn(a, reach, mod, t, seen), true);
    MovedOn(origin, a, b, c, ta, ta, tc, CalmIn(a, reach, mod, t, seen), CalmIn(b, reach, h.mod, h.ty, seen + {last}), r.Success?);
    MovedLess(origin, a, c, ta, tc, CalmIn(a, reach, mod, t, seen) && CalmIn(b, reach, h.mod, h.ty, seen + {last}),
              CalmIn(a, reach, mod, t, seen), r.Success?);
  }

  lemma ConstrainedFails(origin: Modules, reach: set<Key>, a: Modules, b: Modules, ta: Table,
                         mod: string, t: Type, seen: set<Key>, f: Fault)
    requires t.Ref? && t.constraints != [] && ReadyAt(origin, a, ta)
    requires Head(a, mod, t).Failure? && Extends(a, b) && (b == a <==> !SharesRef(a, mod, t))
    ensures Indexed(origin, reach, a, b, ta, ta, mod, t, seen, Failure(f))
  {
    CalmShares(a, reach, mod, t, seen);
    SoundRef(a, mod, t);
    ReadyAfterCall(origin, a, ta, b);
    hide Emitted, AllSound, Calm, AllCalm, SharesRef, ReadyAt, Extends, Sound;
  }

  lemma NamedIndexed(origin: Modules, reach: set<Key>, a: Modules, b: Modules, ta: Table, tb: Table,
                     mod: string, name: string, k: Key, seen: set<Key>, r: Result<(), Fault>)
    requires Resolve(a, mod, name) == Success(k) && DefinedAs(origin, reach, a, b, ta, tb, mod, k, r)
    ensures Indexed(origin, reach, a, b, ta, tb, mod, Ref(name, []), seen, if r.Success? then Success(|ta.entries|) else Failure(r.error))
  {
    CalmPlain(a, reach, mod, name, seen);
    CalmPlain(b, tb.index.Keys, mod, name, seen);
    MovedLess(origin, a, b, ta, tb, AllCalm(a, reach) && k in reach, CalmIn(a, reach, mod, Ref(name, []), seen), r.Success?);
    MovedExtends(origin, a, b, ta, tb, AllCalm(a, reach) && k in reach, r.Success?);
    ResolveExtends(a, b, mod, name, {});
    hide Moved, Emitted, AllSound, Calm, AllCalm;
  }

  lemma MovedExtends(origin: Modules, a: Modules, b: Modules, ta: Table, tb: Table, calm: bool, ok: bool)
    requires Moved(origin, a, b, ta, tb, calm, ok)
    ensures Extends(a, b) && (ok ==> ReadyAt(origin, b, tb) && Grows(ta, tb))
  {
  }

  lemma NamedAlready(origin: Modules, reach: set<Key>, a: Modules, ta: Table, mod: string, name: string, k: Key, seen: set<Key>)
    requires ReadyAt(origin, a, ta) && Resolve(a, mod, name) == Success(k) && k in ta.index
    ensures Indexed(origin, reach, a, a, ta, ta, mod, Ref(name, []), seen, Success(ta.index[k]))
  {
    CalmPlain(a, ta.index.Keys, mod, name, seen);
    MovedNot(origin, a, ta, CalmIn(a, reach, mod, Ref(name, []), seen));
    if a == origin {
      ReadyInv(origin, a, ta);
      EmittedAlready(a, ta, mod, name);
    }
    hide Moved, Emitted, AllSound, Calm, ReadyAt, Inv;
  }

  lemma NamedUnknown(origin: Modules, reach: set<Key>, a: Modules, ta: Table, mod: string, name: string, seen: set<Key>, f: Fault)
    requires ReadyAt(origin, a, ta) && Resolve(a, mod, name).Failure?
    ensures Indexed(origin, reach, a, a, ta, ta, mod, Ref(name, []), seen, Failure(f))
  {
    MovedNot(origin, a, ta, CalmIn(a, reach, mod, Ref(name, []), seen));
    hide ReadyAt, AllSound, Calm, Extends;
  }

  /** A definition: its index reserved, its type written, its entry filled. */
  lemma EntryDefined(origin: Modules, reach: set<Key>, a: Modules, b: Modules, ta: Table, tb: Table, mod: string, k: Key, e: Ty)
    requires ReadyAt(origin, a, ta) && Resolve(a, mod, k.name) == Success(k) && k !in ta.index
    requires Wrote(origin, reach, a, b, Reserve(ta, k), tb, k.mod, Def(a, k), {}, Success(e))
    ensures k in tb.index && tb.index[k] == |ta.entries| < |tb.entries|
    ensures DefinedAs(origin, reach, a, b, ta, Fill(tb, k, e), mod, k, Success(()))
  {
    var tr := Reserve(ta, k);
    var calm := CalmIn(a, reach, k.mod, Def(a, k), {});
    MovedExtends(origin, a, b, tr, tb, calm, true);
    ReadyAfterCall(origin, a, ta, b);
    DefinedStill(a, b, k);
    if AllCalm(a, reach) && k in reach {
      CalmDefinition(a, reach, k);
    }
    if b == origin {
      ReadyInv(origin, a, ta);
    }
    FillReady(origin, b, ta, tb, mod, k, e);
    FillLeaf(a, b, ta, tb, k, e);
    hide Emitted, Rendered, AllSound, Calm, AllCalm, ReadyAt, Extends, Grows, LeafNamed, LeafDone, Inv, Fill, Reserve, LeafRef, IsLeaf;
  }

  lemma FillLeaf(a: Modules, b: Modules, ta: Table, tb: Table, k: Key, e: Ty)
    requires Defined(a, k) && k !in ta.index && Grows(Reserve(ta, k), tb)
    requires k in tb.index && tb.index[k] == |ta.entries| < |tb.entries|
    requires LeafRef(a, k.mod, Def(a, k)) ==>
               e.TyAlias? && LeafDone(Reserve(ta, k), tb, AfterRef(a, k.mod, Def(a, k)), b, e.target, Head(a, k.mod, Def(a, k)).value.ty)
    ensures LeafNamed(a, b, ta, Fill(tb, k, e), k)
  {
    hide LeafRef, AfterRef;
    assert Reserve(ta, k).entries[|ta.entries|] == None;
  }

  lemma EntryFails(origin: Modules, reach: set<Key>, a: Modules, b: Modules, ta: Table, tb: Table, mod: string, k: Key, f: Fault)
    requires ReadyAt(origin, a, ta) && Resolve(a, mod, k.name) == Success(k)
    requires Wrote(origin, reach, a, b, Reserve(ta, k), tb, k.mod, Def(a, k), {}, Failure(f))
    ensures DefinedAs(origin, reach, a, b, ta, tb, mod, k, Failure(f))
  {
    if AllCalm(a, reach) && k in reach {
      CalmDefinition(a, reach, k);
    }
    ReadyAfterCall(origin, a, ta, b);
    if b == origin && AllSound(a) {
      SoundDefinition(a, k);
    }
    hide Emitted, Rendered, Sound, Calm, AllCalm, ReadyAt, Extends, Grows, LeafDone, Inv, Reserve;
  }

  // ---- small steps the methods take -----------------------------------------------------

  lemma GrowsSelf(a: Table)
    ensures Grows(a, a)
  {
  }

  lemma ReadyInv(origin: Modules, mods: Modules, tb: Table)
    requires ReadyAt(origin, mods, tb) && mods == origin
    ensures Inv(mods, tb)
  {
    hide Inv, CalmSoFar, Lookups, Extends;
  }

  lemma SoundRef(mods: Modules, mod: string, t: Type)
    requires t.Ref? && t.constraints != [] && Head(mods, mod, t).Failure?
    ensures !Sound(mods, mod, t)
  {
  }

  lemma LastDefined(mods: Modules, last: Key, seen: set<Key>)
    requires Defined(mods, last) && last !in seen
    ensures |Keys(mods) - (seen + {last})| < |Keys(mods) - seen|
  {
    FewerLeft(Keys(mods), seen, last);
  }

  lemma CalmShares(mods: Modules, reach: set<Key>, mod: string, t: Type, seen: set<Key>)
    requires t.Ref? && t.constraints != []
    ensures Calm(mods, reach, mod, t, seen) ==> !SharesRef(mods, mod, t)
  {
  }

  lemma ReadyAfterCall(origin: Modules, a: Modules, ta: Table, b: Modules)
    requires ReadyAt(origin, a, ta) && Extends(a, b)
    ensures b == origin ==> a == origin
  {
    if b == origin {
      NeverBack(a, b);
    }
  }

  lemma OnwardAll(origin: Modules, a: Modules, b: Modules, ta: Table, tb: Table, mod: string, fs: seq<Field>, seen: set<Key>)
    requires Extends(a, b) && Grows(ta, tb)
    ensures EndsAll(a, mod, fs, seen) == EndsAll(b, mod, fs, seen)
    ensures Keys(a) == Keys(b) && |Keys(b) - tb.index.Keys| <= |Keys(a) - ta.index.Keys|
    ensures ta.index.Keys <= tb.index.Keys
  {
    EndsAllExtends(a, b, mod, fs, seen);
    SameKeys(a, b);
    assert ta.index.Keys <= tb.index.Keys;
    NoMoreLeft(Keys(a), ta.index.Keys, tb.index.Keys);
  }

  /** The expression of a SEQUENCE or CHOICE from its written parts. */
  function Assembled(t: Type, r: Result<(seq<FieldRef>, Option<seq<FieldRef>>), Fault>): Result<Ty, Fault> {
    match r
    case Failure(f) => Failure(f)
    case Success(c) => Success(if t.Seq? then TySeq(c.0, c.1) else TyChoice(c.0, c.1))
  }

  lemma PartsFail(origin: Modules, reach: set<Key>, a: Modules, b: Modules, ta: Table, tb: Table,
                  mod: string, t: Type, seen: set<Key>, f: Fault)
    requires t.Seq? || t.Choice?
    requires WroteAll(origin, reach, a, b, ta, tb, mod, t.root, seen, Failure(f))
    ensures Wrote(origin, reach, a, b, ta, tb, mod, t, seen, Failure(f))
  {
    CalmParts(a, reach, mod, t, seen);
    MovedLess(origin, a, b, ta, tb, AllCalm(a, reach) && CalmAll(a, reach, mod, t.root, seen), CalmIn(a, reach, mod, t, seen), false);
    hide Moved, Listed, Rendered, AllSound, Calm, CalmAll, AllCalm, SoundAll;
  }

  lemma IndexedReady(origin: Modules, reach: set<Key>, a: Modules, b: Modules, ta: Table, tb: Table,
                     mod: string, t: Type, seen: set<Key>, r: Result<nat, Fault>)
    requires Indexed(origin, reach, a, b, ta, tb, mod, t, seen, r) && r.Success?
    ensures ReadyAt(origin, b, tb)
  {
    hide ReadyAt, Emitted, Calm, AllCalm, Sound, AllSound, LeafRef;
  }

  lemma IndexedGrows(origin: Modules, reach: set<Key>, a: Modules, b: Modules, ta: Table, tb: Table,
                     mod: string, t: Type, seen: set<Key>, r: Result<nat, Fault>)
    requires Indexed(origin, reach, a, b, ta, tb, mod, t, seen, r) && r.Success?
    ensures Grows(ta, tb)
  {
    hide ReadyAt, Emitted, Calm, AllCalm, Sound, AllSound, LeafRef, Grows;
  }

  /** Between two fields: what ends still ends, and no more is left to name. */
  lemma FieldsOnward(origin: Modules, reach: set<Key>, a: Modules, b: Modules, ta: Table, tb: Table,
                     mod: string, fs: seq<Field>, n: nat, seen: set<Key>, out: seq<FieldRef>)
    requires n < |fs| && EndsAll(a, mod, fs, seen)
    requires WroteAll(origin, reach, a, b, ta, tb, mod, fs[..n], seen, Success(out))
    ensures Ends(b, mod, fs[n].ty, seen)
    ensures Keys(a) == Keys(b) && |Keys(b) - tb.index.Keys| <= |Keys(a) - ta.index.Keys|
  {
    hide Listed, CalmAll, AllCalm, SoundAll, AllSound, ReadyAt, Extends, Grows, Ends;
    EndsField(a, mod, fs, seen, n);
    Onward(origin, a, b, ta, tb, mod, fs[n].ty, seen);
  }

  lemma PartsOnward(origin: Modules, reach: set<Key>, a: Modules, b: Modules, ta: Table, tb: Table,
                    mod: string, root: seq<Field>, fs: seq<Field>, seen: set<Key>, r: Result<seq<FieldRef>, Fault>)
    requires EndsAll(a, mod, fs, seen) && r.Success?
    requires WroteAll(origin, reach, a, b, ta, tb, mod, root, seen, r)
    ensures EndsAll(b, mod, fs, seen) && ReadyAt(origin, b, tb)
    ensures Keys(a) == Keys(b) && |Keys(b) - tb.index.Keys| <= |Keys(a) - ta.index.Keys|
  {
    hide Listed, CalmAll, AllCalm, SoundAll, AllSound, ReadyAt, Extends, Grows, Ends;
    OnwardAll(origin, a, b, ta, tb, mod, fs, seen);
  }

  lemma EmptyReady(mods: Modules)
    ensures ReadyAt(mods, mods, Table([], map[], map[], map[]))
  {
    ExtendsSelf(mods);
  }
}
