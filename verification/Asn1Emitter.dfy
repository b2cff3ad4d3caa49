/**
 The emitter of `scripts/h323_asn1_schema.py`: it gives every named type one index, shares
 unnamed types by shape, and reserves a placeholder while a definition is written out so
 that definitions may refer to each other.
 */
module Asn1Emitter {
  import opened Wrappers
  import opened Asn1Types
  import opened Asn1Sharing
  import opened PerTable
  import opened TableGrowth
  import opened Asn1Emission

  class Emitter {
    ghost const origin: Modules
    var modules: Modules
    var entries: Entries
    var index: map<Key, nat>
    var anonIndex: map<Ty, nat>
    ghost var claims: map<Scoped, nat>

    /** Apply constraints one after the other to a type that shares nothing. */
    static method ApplyEach(t: Type, cs: seq<Constraint>) returns (r: Result<Type, Fault>)
      ensures r == ApplyAll(t, cs)
    {
      var u := t;
      for i := 0 to |cs|
        invariant ApplyAll(t, cs[..i]) == Success(u)
      {
        ApplyAllConcat(t, cs[..i], cs[i..]);
        ApplyAllConcat(t, cs[..i], [cs[i]]);
        assert cs[..i] + cs[i..] == cs && cs[..i] + [cs[i]] == cs[..i + 1];
        u :- Apply(u, cs[i]);
      }
      assert cs[..|cs|] == cs;
      return Success(u);
    }

    /**
     Copy the definition of `k` and carry constraints onto the copy. A constraint list is
     copied by reference: when the definition has one, every append lands in it too.
     */
    method CarryOnto(k: Key, cs: seq<VisibleConstraint>) returns (r: Result<Type, Fault>)
      requires Defined(modules, k)
      modifies this`modules
      ensures r == ApplyAll(Def(old(modules), k), cs)
      ensures modules == Carried(old(modules), k, cs)
    {
      var nb := Def(modules, k);
      var shared := nb.Ref? && nb.constraints != [];
      ghost var mods, d := modules, nb;
      for i := 0 to |cs|
        invariant ApplyAll(d, cs[..i]) == Success(nb)
        invariant shared ==> nb == Ref(d.name, d.constraints + cs[..i])
        invariant Defined(modules, k)
        invariant modules == if shared && i > 0 then Redefine(mods, k, nb) else mods
      {
        ApplyAllConcat(d, cs[..i], cs[i..]);
        ApplyAllConcat(d, cs[..i], [cs[i]]);
        assert cs[..i] + cs[i..] == cs && cs[..i] + [cs[i]] == cs[..i + 1];
        nb :- Apply(nb, cs[i]);
        if shared {
          modules := Redefine(modules, k, nb);
          assert mods[k.mod].types[k.name := nb] == modules[k.mod].types;
        }
      }
      assert cs[..|cs|] == cs;
      return Success(nb);
    }

    /**
     The type a constrained reference stands for, found by walking the aliases in a loop.
     The answer is always right; the walk leaves the modules as they were exactly when it
     never carries a constraint onto a definition that already has one.
     */
    method Chase(mod: string, t: Type) returns (r: Result<Scoped, Fault>)
      requires t.Ref? && t.constraints != []
      requires Head(modules, mod, t) != Failure(AliasCycle)
      modifies this`modules
      ensures r == Head(old(modules), mod, t)
      ensures r.Success? ==> modules == AfterRef(old(modules), mod, t)
      ensures Extends(old(modules), modules)
      ensures modules == old(modules) <==> !SharesRef(old(modules), mod, t)
    {
      ghost var mods := modules;
      ExtendsSelf(mods);
      var start := Resolve(modules, mod, t.name);
      if start.Failure? {
        return Failure(start.error);
      }
      var rmod, base := start.value.mod, Def(modules, start.value);
      ghost var seen, at := {start.value}, start.value;
      assert {} + {start.value} == {start.value};
      ghost var head, shares := Head(mods, rmod, base, seen), Shares(mods, rmod, base, seen);
      ghost var finally := After(mods, rmod, base, seen);
      while base.Ref?
        invariant Walked(mods, modules, seen, at) && Extends(mods, modules)
        invariant Head(mods, rmod, base, seen) == head
        invariant shares <==> modules != mods || Shares(mods, rmod, base, seen)
        invariant After(modules, rmod, base, seen) == finally
        decreases Keys(mods) - seen
      {
        hide Shares, Extends, Walked;
        var cons := base.constraints;
        ResolveExtends(mods, modules, rmod, base.name, {});
        var found := Resolve(modules, rmod, base.name);
        if found.Failure? {
          return Failure(found.error);
        }
        var next := found.value;
        ChaseStep(mods, rmod, base, seen);
        WalkedStep(mods, modules, seen, at, next, cons);
        CarriedExtends(modules, next, cons);
        ExtendsTrans(mods, modules, Carried(modules, next, cons));
        at := if Carried(modules, next, cons) != modules then next else at;
        base :- CarryOnto(next, cons);
        rmod, seen := next.mod, seen + {next};
      }
      var b := ApplyEach(base, t.constraints);
      return if b.Success? then Success(Scoped(rmod, b.value)) else Failure(b.error);
    }

    ghost function Tb(): Table
      reads this
    {
      Table(entries, index, anonIndex, claims)
    }

    ghost predicate Ready()
      reads this
    {
      ReadyAt(origin, modules, Tb())
    }

    /** How many definitions have no index yet. */
    ghost function Unnamed(): nat
      reads this
    {
      |Keys(modules) - index.Keys|
    }

    /** Give `key` the next index, with a placeholder for its entry. */
    method ReserveIndex(key: Key)
      requires Ready() && Defined(modules, key) && key !in index
      modifies this`index, this`entries
      ensures Ready() && Tb() == Reserve(old(Tb()), key)
      ensures Unnamed() < old(Unnamed())
    {
      hide ReadyAt;
      ReserveReady(origin, modules, Tb(), key);
      index := index[key := |entries|];
      entries := entries + [None];
    }

    method Define(mod: string, key: Key, ghost reach: set<Key>) returns (r: Result<(), Fault>)
      requires Ready() && Resolve(modules, mod, key.name) == Success(key) && key !in index && key in Ending(modules)
      modifies this
      ensures DefinedAs(origin, reach, old(modules), modules, old(Tb()), Tb(), mod, key, r)
      decreases Unnamed(), 0
    {
      hide ReadyAt, Wrote, DefinedAs, Ends, Sound, AllSound;
      ghost var mods, a := modules, Tb();
      var idx := |entries|;
      ReserveIndex(key);
      DefinitionEnds(modules, key);
      var expr := Render(key.mod, key.name, Def(modules, key), {}, reach);
      if expr.Failure? {
        EntryFails(origin, reach, mods, modules, a, Tb(), mod, key, expr.error);
        return Failure(expr.error);
      }
      EntryDefined(origin, reach, mods, modules, a, Tb(), mod, key, expr.value);
      entries := entries[idx := Some(Entry(key.mod + "." + key.name, expr.value))];
      return Success(());
    }

    method Named(mod: string, name: string, ghost seen: set<Key>, ghost reach: set<Key>) returns (r: Result<nat, Fault>)
      requires Ready() && Ends(modules, mod, Ref(name, []), seen)
      modifies this
      ensures Indexed(origin, reach, old(modules), modules, old(Tb()), Tb(), mod, Ref(name, []), seen, r)
      ensures var k := Resolve(old(modules), mod, name);
              k.Success? && k.value !in old(index) ==>
                && (r.Success? ==> r.value == old(|entries|))
                && (LeafRef(old(modules), k.value.mod, Def(old(modules), k.value)) ==>
                      r.Success? && LeafNamed(old(modules), modules, old(Tb()), Tb(), k.value))
      decreases Unnamed(), 1
    {
      hide ReadyAt, Indexed, Moved, Emitted, AllSound, LeafRef, LeafNamed, Ends, Ending;
      ghost var mods, a := modules, Tb();
      PlainEnds(modules, mod, name, seen);
      var found := Resolve(modules, mod, name);
      if found.Failure? {
        NamedUnknown(origin, reach, mods, a, mod, name, seen, found.error);
        return Failure(found.error);
      }
      var key := found.value;
      if key in index {
        NamedAlready(origin, reach, mods, a, mod, name, key, seen);
        return Success(index[key]);
      }
      var done := Define(mod, key, reach);
      NamedIndexed(origin, reach, mods, modules, a, Tb(), mod, name, key, seen, done);
      return if done.Success? then Success(index[key]) else Failure(done.error);
    }

    method Anon(mod: string, path: string, t: Type, ghost seen: set<Key>, ghost reach: set<Key>) returns (r: Result<nat, Fault>)
      requires Ready() && !t.Ref? && Ends(modules, mod, t, seen)
      modifies this
      ensures Indexed(origin, reach, old(modules), modules, old(Tb()), Tb(), mod, t, seen, r)
      decreases Unnamed(), 2 + |Keys(modules) - seen|, t, 4
    {
      hide ReadyAt, Indexed, Wrote, Ends;
      ghost var mods, a := modules, Tb();
      var expr := Render(mod, path, t, seen, reach);
      if expr.Failure? {
        AnonFails(origin, reach, mods, modules, a, Tb(), mod, t, seen, expr.error);
        return Failure(expr.error);
      }
      var e, name := expr.value, mod + "." + path;
      AnonIndexed(origin, reach, mods, modules, a, Tb(), mod, t, seen, name, e);
      if e !in anonIndex {
        anonIndex := anonIndex[e := |entries|];
        entries := entries + [Some(Entry(name, e))];
      }
      if modules == origin {
        claims := claims[Scoped(mod, t) := anonIndex[e]];
      }
      return Success(anonIndex[e]);
    }

    /** A constrained reference: the referenced type with these constraints applied. */
    method ConstrainedIndex(mod: string, path: string, t: Type, ghost seen: set<Key>, ghost reach: set<Key>)
      returns (r: Result<nat, Fault>)
      requires Ready() && t.Ref? && t.constraints != [] && Ends(modules, mod, t, seen)
      modifies this
      ensures Indexed(origin, reach, old(modules), modules, old(Tb()), Tb(), mod, t, seen, r)
      decreases Unnamed(), 2 + |Keys(modules) - seen|, t, 4
    {
      hide ReadyAt, Indexed, Ends, Extends, AfterRef, SharesRef, AllSound, Sound;
      ghost var mods, a := modules, Tb();
      EndsChase(modules, mod, t, seen);
      var base := Chase(mod, t);
      if base.Failure? {
        ConstrainedFails(origin, reach, mods, modules, a, mod, t, seen, base.error);
        return Failure(base.error);
      }
      ghost var last, between := HeadKey(mods, Resolve(mods, mod, t.name).value).value, modules;
      ReadyAfter(origin, mods, modules, a);
      GrowsSelf(a);
      Onward(origin, mods, modules, a, a, base.value.mod, base.value.ty, seen + {last});
      LastDefined(mods, last, seen);
      r := Anon(base.value.mod, path, base.value.ty, seen + {last}, reach);
      ConstrainedIndexed(origin, reach, mods, between, modules, a, Tb(), mod, t, seen, last, r);
    }

    method TypeIndex(mod: string, path: string, t: Type, ghost seen: set<Key>, ghost reach: set<Key>)
      returns (r: Result<nat, Fault>)
      requires Ready() && Ends(modules, mod, t, seen)
      modifies this
      ensures Indexed(origin, reach, old(modules), modules, old(Tb()), Tb(), mod, t, seen, r)
      decreases Unnamed(), 2 + |Keys(modules) - seen|, t, 5
    {
      hide ReadyAt, Indexed, Ends;
      if t.Ref? && t.constraints == [] {
        r := Named(mod, t.name, seen, reach);
      } else if t.Ref? {
        r := ConstrainedIndex(mod, path, t, seen, reach);
      } else {
        r := Anon(mod, path, t, seen, reach);
      }
    }

    /** One more field of a list. */
    method RenderField(mod: string, path: string, fs: seq<Field>, i: nat, out: seq<FieldRef>, ghost owner: Type,
                       ghost seen: set<Key>, ghost reach: set<Key>, ghost mods: Modules, ghost a: Table)
      returns (r: Result<seq<FieldRef>, Fault>)
      requires i < |fs| && (owner.Seq? || owner.Choice?) && (fs == owner.root || owner.ext == Open(fs))
      requires Ready() && EndsAll(mods, mod, fs, seen)
      requires WroteAll(origin, reach, mods, modules, a, Tb(), mod, fs[..i], seen, Success(out))
      modifies this
      ensures r.Success? ==> Ready() && WroteAll(origin, reach, mods, modules, a, Tb(), mod, fs[..i + 1], seen, r)
      ensures r.Failure? ==> WroteAll(origin, reach, mods, modules, a, Tb(), mod, fs, seen, r)
      decreases Unnamed(), 2 + |Keys(modules) - seen|, owner, 0
    {
      hide ReadyAt, Indexed, WroteAll, Ends, EndsAll;
      ghost var between, b := modules, Tb();
      FieldsOnward(origin, reach, mods, between, a, b, mod, fs, i, seen, out);
      var idx := TypeIndex(mod, path + "." + fs[i].name, fs[i].ty, seen, reach);
      if idx.Failure? {
        FieldFails(origin, reach, mods, between, modules, a, b, Tb(), mod, fs, i, seen, out, idx.error);
        return Failure(idx.error);
      }
      FieldWritten(origin, reach, mods, between, modules, a, b, Tb(), mod, fs, i, seen, out, idx.value);
      IndexedReady(origin, reach, between, modules, b, Tb(), mod, fs[i].ty, seen, idx);
      return Success(out + [FieldRef(fs[i].name, idx.value, fs[i].optional)]);
    }

    method RenderFields(mod: string, path: string, fs: seq<Field>, ghost owner: Type, ghost seen: set<Key>, ghost reach: set<Key>)
      returns (r: Result<seq<FieldRef>, Fault>)
      requires Ready() && EndsAll(modules, mod, fs, seen)
      requires owner.Seq? || owner.Choice?
      requires fs == owner.root || owner.ext == Open(fs)
      modifies this
      ensures WroteAll(origin, reach, old(modules), modules, old(Tb()), Tb(), mod, fs, seen, r)
      decreases Unnamed(), 2 + |Keys(modules) - seen|, owner, 1
    {
      hide ReadyAt, WroteAll, Ends, EndsAll;
      var out := [];
      ghost var mods, a := modules, Tb();
      NoFields(origin, reach, mods, a, mod, fs, seen);
      for i := 0 to |fs|
        invariant Ready() && WroteAll(origin, reach, mods, modules, a, Tb(), mod, fs[..i], seen, Success(out))
      {
        FieldsOnward(origin, reach, mods, modules, a, Tb(), mod, fs, i, seen, out);
        out :- RenderField(mod, path, fs, i, out, owner, seen, reach, mods, a);
      }
      assert fs[..|fs|] == fs;
      return Success(out);
    }

    method RenderComponents(mod: string, path: string, t: Type, ghost seen: set<Key>, ghost reach: set<Key>)
      returns (r: Result<(seq<FieldRef>, Option<seq<FieldRef>>), Fault>)
      requires Ready() && (t.Seq? || t.Choice?) && Ends(modules, mod, t, seen)
      modifies this
      ensures Wrote(origin, reach, old(modules), modules, old(Tb()), Tb(), mod, t, seen, Assembled(t, r))
      decreases Unnamed(), 2 + |Keys(modules) - seen|, t, 2
    {
      hide ReadyAt, WroteAll, Wrote, EndsAll;
      ghost var mods, a := modules, Tb();
      EndsParts(modules, mod, t, seen);
      var root := RenderFields(mod, path, t.root, t, seen, reach);
      if root.Failure? {
        PartsFail(origin, reach, mods, modules, a, Tb(), mod, t, seen, root.error);
        return Failure(root.error);
      }
      ghost var between, b := modules, Tb();
      var more: Result<seq<FieldRef>, Fault> := Success([]);
      if t.ext.Open? {
        PartsOnward(origin, reach, mods, modules, a, b, mod, t.root, t.ext.fields, seen, root);
        more := RenderFields(mod, path, t.ext.fields, t, seen, reach);
      }
      PartsWritten(origin, reach, mods, between, modules, a, b, Tb(), mod, t, seen, root.value, more);
      if more.Failure? {
        return Failure(more.error);
      }
      return Success((root.value, if t.ext.Open? then Some(more.value) else None));
    }

    method Render(mod: string, path: string, t: Type, ghost seen: set<Key>, ghost reach: set<Key>) returns (r: Result<Ty, Fault>)
      requires Ready() && Ends(modules, mod, t, seen)
      modifies this
      ensures Wrote(origin, reach, old(modules), modules, old(Tb()), Tb(), mod, t, seen, r)
      decreases Unnamed(), 2 + |Keys(modules) - seen|, t, if t.Ref? then 6 else 3
    {
      hide ReadyAt, Indexed, Wrote, EndsAll, HeadKey;
      ghost var mods, a := modules, Tb();
      match t
      case Ref(_, _) =>
        var target := TypeIndex(mod, path, t, seen, reach);
        RefWritten(origin, reach, mods, modules, a, Tb(), mod, t, seen, target);
        return if target.Success? then Success(TyAlias(target.value)) else Failure(target.error);
      case SeqOf(s, item) =>
        var i := TypeIndex(mod, path + ".item", item, seen, reach);
        ItemWritten(origin, reach, mods, modules, a, Tb(), mod, t, seen, i);
        return if i.Success? then Success(TySeqOf(SizeOf(s), i.value)) else Failure(i.error);
      case Seq(_, _) =>
        var c := RenderComponents(mod, path, t, seen, reach);
        return Assembled(t, c);
      case Choice(_, _) =>
        var c := RenderComponents(mod, path, t, seen, reach);
        return Assembled(t, c);
      case _ =>
        LeafWritten(origin, reach, mods, a, mod, t, seen);
        return Success(LeafTy(t));
    }

    constructor (mods: Modules)
      ensures origin == mods && modules == mods && Tb() == Table([], map[], map[], map[])
    {
      origin, modules, entries, index, anonIndex := mods, mods, [], map[], map[];
      claims := map[];
    }

    /**
     The indices of the root types, once everything they need is in the table. The modules are
     left alone exactly when no constrained reference that is reached shares a constraint list,
     and then the table is finished.
     */
    method EmitRoots(roots: seq<Key>) returns (r: Result<seq<nat>, Fault>)
      requires modules == origin && Tb() == Table([], map[], map[], map[]) && RootsEnd(modules, roots)
      modifies this
      ensures r.Success? ==> (modules == old(modules) <==> Untouched(old(modules), roots))
      ensures AllSound(old(modules)) && AllResolve(old(modules), roots) ==>
                (modules == old(modules) <==> Untouched(old(modules), roots)) && (Untouched(old(modules), roots) ==> r.Success?)
      ensures r.Success? && modules == old(modules) ==> Finished(modules, Tb(), roots, r.value)
    {
      hide ReadyAt, Indexed, AllCalm, Calm, Finished, AllSound, Untouched, Extends, Ends;
      EmptyReady(modules);
      ghost var reach := if Untouched(modules, roots) then Reach(modules, roots) else {};
      var out := [];
      ghost var mods := modules;
      ExtendsSelf(mods);
      FinishedNone(modules, roots);
      for i := 0 to |roots|
        invariant Ready() && Extends(mods, modules)
        invariant Untouched(mods, roots) ==> modules == mods
        invariant modules == mods ==> Finished(modules, Tb(), roots[..i], out) && ReachHolds(modules, index.Keys, roots[..i])
      {
        ghost var between, b := modules, Tb();
        EndsExtends(mods, modules, roots[i].mod, Ref(roots[i].name, []), {});
        var idx := Named(roots[i].mod, roots[i].name, {}, reach);
        RootStep(mods, reach, between, modules, b, Tb(), roots, i, out, idx);
        if idx.Failure? {
          return Failure(idx.error);
        }
        out := out + [idx.value];
      }
      assert roots[..|roots|] == roots;
      if modules == mods {
        FinishedAll(modules, Tb(), roots, out);
        FinishedUntouched(modules, Tb(), roots, out);
      }
      return Success(out);
    }
  }

  /** Writing out the roots, and all that they reach, ends. */
  ghost predicate RootsEnd(mods: Modules, roots: seq<Key>) {
    forall i :: 0 <= i < |roots| ==> Ends(mods, roots[i].mod, Ref(roots[i].name, []), {})
  }

  /** Every root has its index, every entry is filled, and every entry is reached from a root. */
  ghost predicate Finished(mods: Modules, tb: Table, roots: seq<Key>, at: seq<nat>) {
    && Inv(mods, tb) && Complete(tb)
    && |at| == |roots|
    && (forall i :: 0 <= i < |roots| ==> Points(mods, tb, roots[i].mod, Ref(roots[i].name, []), at[i]))
    && Covers(tb.entries, 0, set i | 0 <= i < |at| :: at[i])
  }

  lemma FinishedNone(mods: Modules, roots: seq<Key>)
    ensures Inv(mods, Table([], map[], map[], map[]))
    ensures Finished(mods, Table([], map[], map[], map[]), roots[..0], [])
  {
  }

  lemma FinishedOneMore(mods: Modules, b: Table, c: Table, roots: seq<Key>, n: nat, at: seq<nat>, i: nat)
    requires n < |roots| && Finished(mods, b, roots[..n], at)
    requires Emitted(mods, b, c, roots[n].mod, Ref(roots[n].name, []), i)
    ensures Finished(mods, c, roots[..n + 1], at + [i])
  {
    var was, now := set j | 0 <= j < |at| :: at[j], set j | 0 <= j < |at + [i]| :: (at + [i])[j];
    CoversMore(b.entries, c.entries, 0, was, {i});
    assert now == was + {i} by {
      assert (at + [i])[|at|] == i;
      assert forall j :: 0 <= j < |at| ==> (at + [i])[j] == at[j];
    }
  }

  lemma FinishedAll(mods: Modules, tb: Table, roots: seq<Key>, at: seq<nat>)
    requires Finished(mods, tb, roots[..|roots|], at)
    ensures Finished(mods, tb, roots, at)
  {
    assert roots[..|roots|] == roots;
  }

  /** Each root's index denotes the root's type at every depth. */
  lemma RootsDenote(mods: Modules, tb: Table, roots: seq<Key>, at: seq<nat>, i: nat, depth: nat)
    requires Finished(mods, tb, roots, at) && i < |roots|
    ensures UnfoldIndex(tb.entries, at[i], depth) == UnfoldType(mods, roots[i].mod, Ref(roots[i].name, []), depth)
  {
    IndexDenotesType(mods, tb, roots[i].mod, Ref(roots[i].name, []), at[i], depth);
  }

  lemma PointsInRange(mods: Modules, tb: Table, mod: string, t: Type, i: nat)
    requires Inv(mods, tb) && Points(mods, tb, mod, t, i)
    ensures i < |tb.entries|
  {
    if !(t.Ref? && t.constraints == []) {
      assert ClaimOk(mods, tb, Head(mods, mod, t).value);
    }
  }

  lemma WrittenInRange(mods: Modules, tb: Table, mod: string, t: Type, e: Ty, j: nat)
    requires Inv(mods, tb) && Written(mods, tb, mod, t, e) && j in Kids(e)
    ensures j < |tb.entries|
  {
    if t.Ref? {
      PointsInRange(mods, tb, mod, t, j);
    } else if t.SeqOf? {
      PointsInRange(mods, tb, mod, t.item, j);
    } else if t.Seq? || t.Choice? {
      if i :| 0 <= i < |e.root| && e.root[i].ty == j {
        PointsInRange(mods, tb, mod, t.root[i].ty, j);
      } else {
        var i :| 0 <= i < |e.extension.value| && e.extension.value[i].ty == j;
        PointsInRange(mods, tb, mod, t.ext.fields[i].ty, j);
      }
    }
  }

  /**
   In a finished table every index an entry names is in range, and two different entries
   with the same expression are not both anonymous: one of them is a name's own entry.
   */
  lemma FinishedTable(mods: Modules, tb: Table, roots: seq<Key>, at: seq<nat>, i: nat, j: nat)
    requires Finished(mods, tb, roots, at) && i < |tb.entries| && j < |tb.entries|
    ensures forall k :: k in Kids(tb.entries[i].value.expr) ==> k < |tb.entries|
    ensures i != j && tb.entries[i].value.expr == tb.entries[j].value.expr ==> Owned(tb, i) || Owned(tb, j)
  {
    var e := tb.entries[i].value.expr;
    forall k | k in Kids(e)
      ensures k < |tb.entries|
    {
      if Owned(tb, i) {
        var key :| key in tb.index && tb.index[key] == i;
        assert NamedOk(mods, tb, key);
        WrittenInRange(mods, tb, key.mod, Def(mods, key), e, k);
      } else {
        var c :| c in tb.claims && tb.claims[c] == i;
        assert ClaimOk(mods, tb, c);
        WrittenInRange(mods, tb, c.mod, c.ty, e, k);
      }
    }
    assert Owned(tb, j) || Anonymous(tb, j);
  }

  // ---- the roots, one after the other ---------------------------------------------------

  predicate AllResolve(mods: Modules, roots: seq<Key>) {
    forall i :: 0 <= i < |roots| ==> Resolve(mods, roots[i].mod, roots[i].name).Success?
  }

  /** Definitions that emission stays within, where it shares nothing. */
  ghost function Reach(mods: Modules, roots: seq<Key>): (reach: set<Key>)
    requires Untouched(mods, roots)
    ensures AllCalm(mods, reach) && ReachHolds(mods, reach, roots)
  {
    var reach: set<Key> :| AllCalm(mods, reach) && ReachHolds(mods, reach, roots);
    reach
  }

  lemma RootStep(mods: Modules, reach: set<Key>, between: Modules, after: Modules, b: Table, c: Table,
                 roots: seq<Key>, i: nat, out: seq<nat>, idx: Result<nat, Fault>)
    requires i < |roots| && Extends(mods, between) && ReadyAt(mods, between, b)
    requires Untouched(mods, roots) ==> between == mods && AllCalm(mods, reach) && ReachHolds(mods, reach, roots)
    requires between == mods ==> Finished(between, b, roots[..i], out) && ReachHolds(between, b.index.Keys, roots[..i])
    requires Indexed(mods, reach, between, after, b, c, roots[i].mod, Ref(roots[i].name, []), {}, idx)
    ensures Extends(mods, after)
    ensures Untouched(mods, roots) ==> after == mods
    ensures idx.Success? ==> ReadyAt(mods, after, c)
    ensures idx.Success? && after == mods ==>
              Finished(after, c, roots[..i + 1], out + [idx.value]) && ReachHolds(after, c.index.Keys, roots[..i + 1])
    ensures idx.Failure? && AllSound(mods) && AllResolve(mods, roots) ==> after != mods
  {
    hide ReadyAt, AllCalm, Calm, Emitted, Finished, AllSound, Untouched, Extends, Grows, LeafRef;
    ExtendsTrans(mods, between, after);
    ReadyAfterCall(mods, between, b, after);
    if idx.Success? && after == mods {
      FinishedOneMore(mods, b, c, roots, i, out, idx.value);
      RootsCalm(mods, b, c, roots, i);
    }
  }

  lemma RootsCalm(mods: Modules, b: Table, c: Table, roots: seq<Key>, n: nat)
    requires n < |roots| && Grows(b, c) && ReachHolds(mods, b.index.Keys, roots[..n])
    requires Calm(mods, c.index.Keys, roots[n].mod, Ref(roots[n].name, []), {})
    ensures ReachHolds(mods, c.index.Keys, roots[..n + 1])
  {
    hide Calm;
    assert b.index.Keys <= c.index.Keys;
    var more := roots[..n + 1];
    forall i | 0 <= i < |more|
      ensures Calm(mods, c.index.Keys, more[i].mod, Ref(more[i].name, []), {})
    {
      if i < n {
        assert roots[..n][i] == more[i];
        CalmMore(mods, b.index.Keys, c.index.Keys, roots[i].mod, Ref(roots[i].name, []), {});
      }
    }
  }

  /** A finished table holds everything that was reached, so nothing that was reached shares. */
  lemma FinishedUntouched(mods: Modules, tb: Table, roots: seq<Key>, at: seq<nat>)
    requires ReadyAt(mods, mods, tb) && Finished(mods, tb, roots, at) && ReachHolds(mods, tb.index.Keys, roots)
    ensures Untouched(mods, roots)
  {
    hide Calm;
    assert AllCalm(mods, tb.index.Keys);
  }

  // ---- what sharing a constraint list does ----------------------------------------------

  /** Constraints carried onto a shared list narrow the definition itself from then on. */
  lemma SharedListNarrows(mods: Modules, k: Key, cs: seq<VisibleConstraint>)
    requires Defined(mods, k) && Def(mods, k).Ref? && Def(mods, k).constraints != [] && cs != []
    ensures var after := Carried(mods, k, cs);
            Defined(after, k) && Head(mods, k.mod, Def(after, k)) == Narrow(Head(mods, k.mod, Def(mods, k)), cs)
  {
    var d := Def(mods, k);
    ApplyAllRef(d.name, d.constraints, cs);
    HeadCarries(mods, k.mod, d, cs, {});
  }

  /** What a definition stands for, by its own name. */
  lemma HeadByName(mods: Modules, k: Key)
    requires Defined(mods, k) && Head(mods, k.mod, Def(mods, k)).Success?
    ensures Head(mods, k.mod, Ref(k.name, [])) == Head(mods, k.mod, Def(mods, k))
  {
    WrittenIsNoCycle(mods, k, {});
    assert {} + {k} == {k};
    assert Resolve(mods, k.mod, k.name) == Success(k);
  }

  /**
   A constrained reference to a type without parts, written when the modules were `mods`: its
   index denotes what its own definition says if and only if the lists on its chain, grown or
   not, then still came to the same type.
   */
  lemma LeafDenotesIff(origin: Modules, mods: Modules, a: Table, b: Table, tb: Table, k: Key, depth: nat)
    requires Defined(origin, k) && LeafRef(origin, k.mod, Def(origin, k)) && Defined(mods, k) && LeafRef(mods, k.mod, Def(mods, k))
    requires LeafNamed(mods, AfterRef(mods, k.mod, Def(mods, k)), a, b, k) && Grows(b, tb) && depth > 0
    ensures UnfoldIndex(tb.entries, |a.entries|, depth) == UnfoldType(origin, k.mod, Ref(k.name, []), depth)
            <==> TypeSense(Head(mods, k.mod, Def(mods, k)).value.ty) == TypeSense(Head(origin, k.mod, Def(origin, k)).value.ty)
  {
    HeadByName(origin, k);
    AliasStays(b, tb, |a.entries|, Head(mods, k.mod, Def(mods, k)).value.ty);
    LeafAgrees(Head(mods, k.mod, Def(mods, k)).value.ty);
    hide AfterRef, Head, Grows, TypeSense, EntrySense;
    var j := tb.entries[|a.entries|].value.expr.target;
    assert Target(tb.entries, j, {} + {|a.entries|}) == Some(j);
  }

  function UpTo(n: int): VisibleConstraint {
    Constraint(Some(Bounds(Some(0), Some(n), false)), None, None)
  }

  /** The numbers from 0 to `n`. */
  ghost function UpToTree(n: int): Tree {
    Leaf(Sense(Number, (iset k: int | Lies(k, Some(0), Some(n))), false))
  }

  lemma UpToApart(m: int, n: int)
    requires 0 <= m < n
    ensures UpToTree(m) != UpToTree(n)
  {
    assert n in UpToTree(n).sense.admits && n !in UpToTree(m).sense.admits;
  }

  /** A module with B ::= C (`bs`), where also X ::= A (0..3), A ::= B (0..5) and C ::= INTEGER. */
  function LeakyWith(bs: seq<VisibleConstraint>): Modules {
    map["M" := Module(map[], map["X" := Ref("A", [UpTo(3)]), "A" := Ref("B", [UpTo(5)]), "B" := Ref("C", bs), "C" := Int(None)])]
  }

  const Leaky: Modules := LeakyWith([UpTo(9)])

  lemma LeakyEnds(bs: seq<VisibleConstraint>)
    ensures Ends(LeakyWith(bs), "M", Ref("X", []), {}) && Ends(LeakyWith(bs), "M", Ref("B", []), {})
  {
    var mods := LeakyWith(bs);
    var x, a, b, c := Key("M", "X"), Key("M", "A"), Key("M", "B"), Key("M", "C");
    var within := {x, a, b, c};
    LeakyConfined(bs);
    hide Confined;
    assert IsEnding(mods, x) && IsEnding(mods, b);
    LeakyNames(bs);
  }

  lemma LeakyConfined(bs: seq<VisibleConstraint>)
    ensures Confined(LeakyWith(bs), {Key("M", "X"), Key("M", "A"), Key("M", "B"), Key("M", "C")})
  {
    var mods := LeakyWith(bs);
    var x, a, b, c := Key("M", "X"), Key("M", "A"), Key("M", "B"), Key("M", "C");
    var within := {x, a, b, c};
    assert Resolve(mods, "M", "A") == Success(a) && Resolve(mods, "M", "B") == Success(b) && Resolve(mods, "M", "C") == Success(c);
    assert HeadKey(mods, c, {a, b}) == Success(c) && HeadKey(mods, c, {b}) == Success(c) && HeadKey(mods, c) == Success(c);
    assert {} + {a} == {a} && {a} + {b} == {a, b} && {} + {b} == {b};
    assert HeadKey(mods, b, {a}) == Success(c) && HeadKey(mods, b) == Success(c);
    assert HeadKey(mods, a) == Success(c);
    forall k | k in within
      ensures EndsIn(mods, within, k.mod, Def(mods, k), {})
    {
    }
  }

  lemma AppliesLast(cs: seq<VisibleConstraint>, n: int)
    requires forall i :: 0 <= i < |cs| ==> cs[i].value.Some?
    ensures ApplyAll(Int(None), cs + [UpTo(n)]) == Success(Int(UpTo(n).value))
  {
    AppliesInt(None, cs);
    ApplyAllConcat(Int(None), cs, [UpTo(n)]);
    var u := ApplyAll(Int(None), cs).value;
    assert [UpTo(n)][1..] == [];
    assert ApplyAll(u, [UpTo(n)]) == ApplyAll(Int(UpTo(n).value), []);
  }

  lemma {:induction false} AppliesInt(r: Option<Bounds>, cs: seq<VisibleConstraint>)
    requires forall i :: 0 <= i < |cs| ==> cs[i].value.Some?
    ensures ApplyAll(Int(r), cs).Success? && ApplyAll(Int(r), cs).value.Int?
    decreases |cs|
  {
    if cs != [] {
      AppliesInt(cs[0].value, cs[1..]);
    }
  }

  /** B stands for the last of its constraints. */
  lemma LeakyB(cs: seq<VisibleConstraint>, n: int, seen: set<Key>)
    requires forall i :: 0 <= i < |cs| ==> cs[i].value.Some?
    requires Key("M", "C") !in seen
    ensures Head(LeakyWith(cs + [UpTo(n)]), "M", Ref("C", cs + [UpTo(n)]), seen) == Success(Scoped("M", Int(UpTo(n).value)))
  {
    var mods := LeakyWith(cs + [UpTo(n)]);
    AppliesLast(cs, n);
    assert Resolve(mods, "M", "C") == Success(Key("M", "C"));
    assert Head(mods, "M", Int(None), seen + {Key("M", "C")}) == Success(Scoped("M", Int(None)));
  }

  lemma LeakyCarried()
    ensures Carried(Leaky, Key("M", "B"), [UpTo(5)]) == LeakyWith([UpTo(9), UpTo(5)])
  {
    var after := Carried(Leaky, Key("M", "B"), [UpTo(5)]);
    var want := LeakyWith([UpTo(9), UpTo(5)]);
    assert [UpTo(9)] + [UpTo(5)] == [UpTo(9), UpTo(5)];
    assert after["M"].types == want["M"].types;
    assert after["M"] == want["M"];
  }

  lemma LeakyX()
    ensures LeafRef(Leaky, "M", Ref("A", [UpTo(3)]))
    ensures AfterRef(Leaky, "M", Ref("A", [UpTo(3)])) == LeakyWith([UpTo(9), UpTo(5)])
  {
    var a, b, c := Key("M", "A"), Key("M", "B"), Key("M", "C");
    LeakyXHead();
    hide Head;
    assert Resolve(Leaky, "M", "A") == Success(a) && Resolve(Leaky, "M", "B") == Success(b);
    assert {a} + {b} == {a, b};
    ApplyAllRef("C", [UpTo(9)], [UpTo(5)]);
    assert [UpTo(9)] + [UpTo(5)] == [UpTo(9), UpTo(5)];
    LeakyCarried();
    var after := Carried(Leaky, b, [UpTo(5)]);
    assert Resolve(after, "M", "C") == Success(c);
    AppliesInt(None, [UpTo(9), UpTo(5)]);
    assert After(after, "M", Ref("C", [UpTo(9), UpTo(5)]), {a, b}) == after;
  }

  lemma LeakyXHead()
    ensures Head(Leaky, "M", Ref("A", [UpTo(3)])) == Success(Scoped("M", Int(UpTo(3).value)))
  {
    var a, b := Key("M", "A"), Key("M", "B");
    assert [] + [UpTo(9)] == [UpTo(9)];
    LeakyB([], 9, {a, b});
    assert Resolve(Leaky, "M", "A") == Success(a) && Resolve(Leaky, "M", "B") == Success(b);
    assert {} + {a} == {a} && {a} + {b} == {a, b};
    AppliesOne(UpTo(9).value, 5);
    assert Head(Leaky, "M", Ref("B", [UpTo(5)]), {a}) == Success(Scoped("M", Int(UpTo(5).value)));
    AppliesOne(UpTo(5).value, 3);
  }

  lemma AppliesOne(r: Option<Bounds>, n: int)
    ensures ApplyAll(Int(r), [UpTo(n)]) == Success(Int(UpTo(n).value))
  {
    assert [UpTo(n)][1..] == [];
    assert ApplyAll(Int(r), [UpTo(n)]) == ApplyAll(Int(UpTo(n).value), []);
  }

  /**
   Emitting X and then B changes the modules. X's index denotes 0..3 at every depth, as its
   definition says; B's denotes 0..5, where its definition says 0..9.
   */
  method EmitLeaky() returns (em: Emitter)
    ensures fresh(em) && em.origin == Leaky && em.modules == LeakyWith([UpTo(9), UpTo(5)])
    ensures em.index.Keys == {Key("M", "X"), Key("M", "B")}
    ensures forall depth: nat :: depth > 0 ==>
              && UnfoldIndex(em.entries, em.index[Key("M", "X")], depth) == UpToTree(3) == UnfoldType(Leaky, "M", Ref("X", []), depth)
              && UnfoldIndex(em.entries, em.index[Key("M", "B")], depth) == UpToTree(5)
              && UnfoldType(Leaky, "M", Ref("B", []), depth) == UpToTree(9)
  {
    hide ReadyAt, Indexed, LeafRef, AfterRef, Head, Ends, Grows;
    var x, b := Key("M", "X"), Key("M", "B");
    LeakyEnds([UpTo(9)]);
    LeakyX();
    LeakyXHead();
    EmptyReady(Leaky);
    em := new Emitter(Leaky);
    LeakyNames([UpTo(9)]);
    var first := em.Named("M", "X", {}, {});
    ghost var tb := em.Tb();
    IndexedReady(Leaky, {}, Leaky, em.modules, Table([], map[], map[], map[]), tb, "M", Ref("X", []), {}, first);
    LeakyNames([UpTo(9), UpTo(5)]);
    LeakyEnds([UpTo(9), UpTo(5)]);
    LeakyBNow();
    ghost var mods := em.modules;
    var second := em.Named("M", "B", {}, {});
    IndexedGrows(Leaky, {}, mods, em.modules, tb, em.Tb(), "M", Ref("B", []), {}, second);
    AliasStays(tb, em.Tb(), em.index[x], Int(UpTo(3).value));
    LeakyUnfolds(em.entries, em.index[x], 3);
    LeakyUnfolds(em.entries, em.index[b], 5);
    LeakyTypes();
  }

  lemma AliasStays(ta: Table, tb: Table, i: nat, ty: Type)
    requires AliasTo(ta, i, ty) && Grows(ta, tb)
    ensures AliasTo(tb, i, ty)
  {
  }

  lemma LeakyNames(bs: seq<VisibleConstraint>)
    ensures Resolve(LeakyWith(bs), "M", "X") == Success(Key("M", "X")) && Resolve(LeakyWith(bs), "M", "B") == Success(Key("M", "B"))
  {
  }

  lemma LeakyBNow()
    ensures var mods := LeakyWith([UpTo(9), UpTo(5)]);
            && LeafRef(mods, "M", Ref("C", [UpTo(9), UpTo(5)]))
            && AfterRef(mods, "M", Ref("C", [UpTo(9), UpTo(5)])) == mods
            && Head(mods, "M", Ref("C", [UpTo(9), UpTo(5)])) == Success(Scoped("M", Int(UpTo(5).value)))
  {
    LeakyB([UpTo(9)], 5, {});
    assert [UpTo(9)] + [UpTo(5)] == [UpTo(9), UpTo(5)];
    assert Resolve(LeakyWith([UpTo(9), UpTo(5)]), "M", "C") == Success(Key("M", "C"));
  }

  lemma LeakyUnfolds(table: Entries, b: nat, n: int)
    requires b < |table| && table[b].Some? && table[b].value.expr.TyAlias?
    requires var j := table[b].value.expr.target;
             j < |table| && table[j].Some? && table[j].value.expr == TyInt(Some(0), Some(n), false)
    ensures forall depth: nat :: depth > 0 ==> UnfoldIndex(table, b, depth) == UpToTree(n)
  {
    var j := table[b].value.expr.target;
    assert Target(table, j, {} + {b}) == Some(j);
  }

  lemma LeakyTypes()
    ensures forall depth: nat :: depth > 0 ==> UnfoldType(Leaky, "M", Ref("X", []), depth) == UpToTree(3)
    ensures forall depth: nat :: depth > 0 ==> UnfoldType(Leaky, "M", Ref("B", []), depth) == UpToTree(9)
  {
    assert [] + [UpTo(9)] == [UpTo(9)];
    LeakyB([], 9, {});
    LeakyXHead();
    HeadByName(Leaky, Key("M", "B"));
    HeadByName(Leaky, Key("M", "X"));
    hide Head;
  }

  lemma IntSharesNothing(mods: Modules, mod: string, range: Option<Bounds>, seen: set<Key>)
    ensures !Shares(mods, mod, Int(range), seen)
  {
  }

  /** Without X nothing is touched: no constrained reference to A is reached. */
  lemma LeakyWithoutX()
    ensures Untouched(Leaky, [Key("M", "A"), Key("M", "B")])
  {
    var a, b, c := Key("M", "A"), Key("M", "B"), Key("M", "C");
    var reach := {a, b};
    LeakyNames([UpTo(9)]);
    assert Resolve(Leaky, "M", "A") == Success(a) && Resolve(Leaky, "M", "C") == Success(c);
    AppliesInt(None, [UpTo(9)]);
    IntSharesNothing(Leaky, "M", None, {c});
    IntSharesNothing(Leaky, "M", UpTo(9).value, {b} + {c});
    assert !Shares(Leaky, "M", Ref("C", [UpTo(9)]), {b});
    LeakyEnds([UpTo(9)]);
    assert HeadKey(Leaky, b, {}) == Success(c) && HeadKey(Leaky, c, {}) == Success(c);
    assert AllCalm(Leaky, reach) && ReachHolds(Leaky, reach, [a, b]);
  }

  /** With it, B is. */
  lemma LeakyIsTouched()
    ensures !Untouched(Leaky, [Key("M", "X")])
  {
    var a := Key("M", "A");
    LeakyNames([UpTo(9)]);
    assert Resolve(Leaky, "M", "A") == Success(a);
    ApplyAllRef("C", [UpTo(9)], [UpTo(5)]);
    assert Shares(Leaky, "M", Ref("B", [UpTo(5)]), {a});
    if Untouched(Leaky, [Key("M", "X")]) {
      var all := Reach(Leaky, [Key("M", "X")]);
      assert Calm(Leaky, all, "M", Ref([Key("M", "X")][0].name, []), {});
      assert !Calm(Leaky, all, "M", Ref("A", [UpTo(3)]), {});
    }
  }
}
