/**
 What a name, a reference and a list of constraints come to, said without following them: where
 an import ends, which definition an alias stands for, and which constraint decides.
 */
module Asn1Reference {
  import opened Wrappers
  import opened Asn1Types

  // ---- names ----------------------------------------------------------------------------

  /** From module to module the name is imported, and the last one defines it. */
  predicate ImportPath(mods: Modules, name: string, path: seq<string>) {
    && |path| > 0
    && (forall i :: 0 <= i < |path| ==> path[i] in mods)
    && name in mods[path[|path| - 1]].types
    && forall i :: 0 <= i < |path| - 1 ==>
         && name !in mods[path[i]].types
         && name in mods[path[i]].imports && mods[path[i]].imports[name] == path[i + 1]
  }

  lemma {:induction false} PathIsSimple(mods: Modules, name: string, path: seq<string>, i: nat, j: nat)
    requires ImportPath(mods, name, path) && i < j < |path|
    ensures path[i] != path[j]
    decreases |path| - j
  {
    if j < |path| - 1 {
      PathIsSimple(mods, name, path, i + 1, j + 1);
    }
  }

  lemma {:induction false} PathResolves(mods: Modules, name: string, path: seq<string>, i: nat, seen: set<string>)
    requires ImportPath(mods, name, path) && i < |path|
    requires forall m :: m in seen ==> exists j :: 0 <= j < i && path[j] == m
    ensures Resolve(mods, path[i], name, seen) == Success(Key(path[|path| - 1], name))
    decreases |path| - i
  {
    if i < |path| - 1 {
      if path[i] in seen {
        var j :| 0 <= j < i && path[j] == path[i];
        PathIsSimple(mods, name, path, j, i);
      }
      forall m | m in seen + {path[i]} ensures exists j :: 0 <= j < i + 1 && path[j] == m {
        if m in seen {
          var j :| 0 <= j < i && path[j] == m;
          assert 0 <= j < i + 1;
        } else {
          assert path[i] == m;
        }
      }
      PathResolves(mods, name, path, i + 1, seen + {path[i]});
    }
  }

  lemma {:induction false} ResolvesByPath(mods: Modules, mod: string, name: string, seen: set<string>) returns (path: seq<string>)
    requires Resolve(mods, mod, name, seen).Success?
    ensures ImportPath(mods, name, path) && path[0] == mod
    ensures Resolve(mods, mod, name, seen) == Success(Key(path[|path| - 1], name))
    decreases mods.Keys - seen
  {
    if name in mods[mod].types {
      path := [mod];
    } else {
      var rest := ResolvesByPath(mods, mods[mod].imports[name], name, seen + {mod});
      path := [mod] + rest;
    }
  }

  /** A name is resolved to a definition exactly if imports lead from the module to it. */
  lemma ResolveIff(mods: Modules, mod: string, name: string, k: Key)
    ensures Resolve(mods, mod, name) == Success(k)
            <==> exists path: seq<string> :: ImportPath(mods, name, path) && path[0] == mod && k == Key(path[|path| - 1], name)
  {
    if Resolve(mods, mod, name) == Success(k) {
      var path := ResolvesByPath(mods, mod, name, {});
    }
    if exists path: seq<string> :: ImportPath(mods, name, path) && path[0] == mod && k == Key(path[|path| - 1], name) {
      var path: seq<string> :| ImportPath(mods, name, path) && path[0] == mod && k == Key(path[|path| - 1], name);
      PathResolves(mods, name, path, 0, {});
    }
  }

  // ---- constraints ----------------------------------------------------------------------

  /** The constraint says something about the type, or nothing at all. */
  predicate Takes(t: Type, c: Constraint) {
    !c.Visible() ||
    match t
    case Int(_) => c.value.Some?
    case Octets(_) => c.size.Some?
    case Bits(_) => c.size.Some?
    case SeqOf(_, _) => c.size.Some?
    case Chars(_, _, _) => true
    case Opaque(_) => true
    case _ => false
  }

  /** The last range, size or alphabet stated, or the type's own. */
  function LastValue(own: Option<Bounds>, cs: seq<Constraint>): Option<Bounds> {
    if cs == [] then own
    else
      var c := cs[|cs| - 1];
      if c.value.Some? then c.value else LastValue(own, cs[..|cs| - 1])
  }

  function LastSize(own: Option<Bounds>, cs: seq<Constraint>): Option<Bounds> {
    if cs == [] then own
    else
      var c := cs[|cs| - 1];
      if c.size.Some? then c.size.value else LastSize(own, cs[..|cs| - 1])
  }

  function LastAlphabet(own: Option<string>, cs: seq<Constraint>): Option<string> {
    if cs == [] then own
    else
      var c := cs[|cs| - 1];
      if c.alphabet.Some? then c.alphabet else LastAlphabet(own, cs[..|cs| - 1])
  }

  lemma ApplySnoc(t: Type, cs: seq<Constraint>, c: Constraint)
    ensures ApplyAll(t, cs + [c]) == (match ApplyAll(t, cs) case Success(u) => Apply(u, c) case Failure(f) => Failure(f))
  {
    ApplyAllConcat(t, cs, [c]);
    assert [c][1..] == [];
    if ApplyAll(t, cs).Success? && Apply(ApplyAll(t, cs).value, c).Failure? {
      assert ApplyAll(t, cs + [c]).Failure?;
    }
  }

  /**
   Constraints may be applied exactly if each says something the type has, and then the type
   keeps its kind and everything it has that no constraint speaks of; what is spoken of is as
   the last constraint says that does.
   */
  lemma {:induction false} LastConstraintDecides(t: Type, cs: seq<Constraint>)
    requires !t.Ref?
    ensures ApplyAll(t, cs).Success? <==> forall i :: 0 <= i < |cs| ==> Takes(t, cs[i])
    ensures ApplyAll(t, cs).Success? ==>
              ApplyAll(t, cs).value ==
              match t
              case Int(r) => Int(LastValue(r, cs))
              case Octets(s) => Octets(LastSize(s, cs))
              case Bits(s) => Bits(LastSize(s, cs))
              case SeqOf(s, item) => SeqOf(LastSize(s, cs), item)
              case Chars(kind, s, alphabet) => Chars(kind, LastSize(s, cs), LastAlphabet(alphabet, cs))
              case _ => t
    decreases |cs|
  {
    if cs != [] {
      var n := |cs| - 1;
      LastConstraintDecides(t, cs[..n]);
      ApplySnoc(t, cs[..n], cs[n]);
      assert cs == cs[..n] + [cs[n]];
      hide ApplyAll;
      assert (forall i :: 0 <= i < |cs| ==> Takes(t, cs[i])) <==> (forall i :: 0 <= i < n ==> Takes(t, cs[..n][i])) && Takes(t, cs[n]);
    }
  }

  // ---- references -----------------------------------------------------------------------

  /** From definition to definition the type is a reference, and the last one is not. */
  predicate Chain(mods: Modules, mod: string, t: Type, ks: seq<Key>)
    decreases |ks|
  {
    if ks == [] then !t.Ref?
    else
      && t.Ref? && Resolve(mods, mod, t.name) == Success(ks[0])
      && Chain(mods, ks[0].mod, Def(mods, ks[0]), ks[1..])
  }

  /** The constraints along a chain, those of the last definition first. */
  function Collected(mods: Modules, mod: string, t: Type, ks: seq<Key>): seq<VisibleConstraint>
    requires Chain(mods, mod, t, ks)
    decreases |ks|
  {
    if ks == [] then [] else Collected(mods, ks[0].mod, Def(mods, ks[0]), ks[1..]) + t.constraints
  }

  /** The type at the end of a chain, in its module. */
  function End(mods: Modules, mod: string, t: Type, ks: seq<Key>): Scoped
    requires Chain(mods, mod, t, ks)
    decreases |ks|
  {
    if ks == [] then Scoped(mod, t) else End(mods, ks[0].mod, Def(mods, ks[0]), ks[1..])
  }

  lemma {:induction false} ChainUnique(mods: Modules, mod: string, t: Type, ks: seq<Key>, ls: seq<Key>)
    requires Chain(mods, mod, t, ks) && Chain(mods, mod, t, ls)
    ensures ks == ls
    decreases |ks|
  {
    if ks != [] {
      ChainUnique(mods, ks[0].mod, Def(mods, ks[0]), ks[1..], ls[1..]);
      assert ks == [ks[0]] + ks[1..] && ls == [ls[0]] + ls[1..];
    }
  }

  lemma {:induction false} ChainFrom(mods: Modules, mod: string, t: Type, ks: seq<Key>, i: nat)
    requires Chain(mods, mod, t, ks) && i < |ks|
    ensures Defined(mods, ks[i]) && Chain(mods, ks[i].mod, Def(mods, ks[i]), ks[i + 1..])
    decreases i
  {
    if i > 0 {
      ChainFrom(mods, ks[0].mod, Def(mods, ks[0]), ks[1..], i - 1);
      assert ks[1..][i..] == ks[i + 1..];
    }
  }

  lemma ChainIsSimple(mods: Modules, mod: string, t: Type, ks: seq<Key>)
    requires Chain(mods, mod, t, ks)
    ensures forall i, j :: 0 <= i < j < |ks| ==> ks[i] != ks[j]
  {
    forall i, j | 0 <= i < j < |ks| ensures ks[i] != ks[j] {
      ChainFrom(mods, mod, t, ks, i);
      ChainFrom(mods, mod, t, ks, j);
      if ks[i] == ks[j] {
        ChainUnique(mods, ks[i].mod, Def(mods, ks[i]), ks[i + 1..], ks[j + 1..]);
      }
    }
  }

  lemma {:induction false} ChainHeads(mods: Modules, mod: string, t: Type, ks: seq<Key>, seen: set<Key>)
    requires Chain(mods, mod, t, ks) && forall i :: 0 <= i < |ks| ==> ks[i] !in seen
    ensures var (end, cs) := (End(mods, mod, t, ks), Collected(mods, mod, t, ks));
            Head(mods, mod, t, seen) == match ApplyAll(end.ty, cs) case Success(b) => Success(Scoped(end.mod, b)) case Failure(f) => Failure(f)
    decreases |ks|
  {
    if ks != [] {
      var (k, rest) := (ks[0], ks[1..]);
      ChainIsSimple(mods, mod, t, ks);
      forall i | 0 <= i < |rest| ensures rest[i] !in seen + {k} {
        assert rest[i] == ks[i + 1] && ks[0] != ks[i + 1];
      }
      ChainHeads(mods, k.mod, Def(mods, k), rest, seen + {k});
      ApplyAllConcat(End(mods, mod, t, ks).ty, Collected(mods, k.mod, Def(mods, k), rest), t.constraints);
    }
  }

  lemma {:induction false} HeadHasChain(mods: Modules, mod: string, t: Type, seen: set<Key>) returns (ks: seq<Key>)
    requires Head(mods, mod, t, seen).Success?
    ensures Chain(mods, mod, t, ks) && forall i :: 0 <= i < |ks| ==> ks[i] !in seen
    decreases Keys(mods) - seen
  {
    ks := [];
    if t.Ref? {
      var k := Resolve(mods, mod, t.name).value;
      var rest := HeadHasChain(mods, k.mod, Def(mods, k), seen + {k});
      ks := [k] + rest;
      assert ks[1..] == rest;
    }
  }

  /**
   A reference stands for a type exactly if a chain of definitions leads from it to one that is
   no reference, and that type, with the constraints along the chain applied from the last
   definition back to the reference's own, is what it stands for.
   */
  lemma HeadIff(mods: Modules, mod: string, t: Type, h: Scoped)
    ensures Head(mods, mod, t) == Success(h)
            <==> exists ks: seq<Key> ::
                   && Chain(mods, mod, t, ks)
                   && h.mod == End(mods, mod, t, ks).mod
                   && ApplyAll(End(mods, mod, t, ks).ty, Collected(mods, mod, t, ks)) == Success(h.ty)
  {
    if Head(mods, mod, t) == Success(h) {
      var ks := HeadHasChain(mods, mod, t, {});
      ChainHeads(mods, mod, t, ks, {});
      assert Chain(mods, mod, t, ks);
    }
    forall ks: seq<Key> | Chain(mods, mod, t, ks)
      ensures h.mod == End(mods, mod, t, ks).mod && ApplyAll(End(mods, mod, t, ks).ty, Collected(mods, mod, t, ks)) == Success(h.ty) ==>
                Head(mods, mod, t) == Success(h)
    {
      ChainHeads(mods, mod, t, ks, {});
    }
  }
}
