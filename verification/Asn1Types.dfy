/**
 The type trees that `scripts/h323_asn1_schema.py` passes from its parser to its emitter,
 the way a constraint narrows one, and the meaning of a reference: the type it finally
 stands for, through imports and chains of aliases.
 */
module Asn1Types {
  import opened Wrappers

  datatype Fault =
    | Syntax
    | BadConstraint
    | UnknownModule(mod: string)
    | UnknownType(mod: string, name: string)
    | ImportCycle(mod: string, name: string)
    | AliasCycle

  /** `(lb, ub, ext)`; a missing bound is MIN or MAX. */
  datatype Bounds = Bounds(lb: Option<int>, ub: Option<int>, ext: bool)

  /** What one parenthesised constraint says. `size` may be stated and yet empty. */
  datatype Constraint = Constraint(value: Option<Bounds>, size: Option<Option<Bounds>>, alphabet: Option<string>) {
    predicate Visible() {
      value.Some? || size.Some? || alphabet.Some?
    }
  }

  /** A constraint PER can see; only these are ever recorded on a reference. */
  type VisibleConstraint = c: Constraint | c.Visible() witness Constraint(None, Some(None), None)

  datatype CharKind = Ia5 | Bmp | Numeric | Printable | General

  /** Whether a component list has an extension marker, and what follows it. */
  datatype Extension = Closed | Open(fields: seq<Field>)

  datatype Field = Field(name: string, ty: Type, optional: bool)

  datatype Type =
    | Seq(root: seq<Field>, ext: Extension)
    | Choice(root: seq<Field>, ext: Extension)
    | SeqOf(size: Option<Bounds>, item: Type)
    | Enum(names: seq<string>, extNames: Option<seq<string>>)
    | Int(range: Option<Bounds>)
    | Bool
    | Null
    | Oid
    | Octets(size: Option<Bounds>)
    | Bits(size: Option<Bounds>)
    | Chars(kind: CharKind, size: Option<Bounds>, alphabet: Option<string>)
    | Opaque(why: string)
    | Ref(name: string, constraints: seq<VisibleConstraint>)

  function Apply(t: Type, c: Constraint): Result<Type, Fault> {
    if !c.Visible() then Success(t) else
      match t
      case Ref(name, cs) => Success(Ref(name, cs + [c]))
      case Int(_) => if c.value.Some? then Success(Int(c.value)) else Failure(BadConstraint)
      case Octets(_) => if c.size.Some? then Success(Octets(c.size.value)) else Failure(BadConstraint)
      case Bits(_) => if c.size.Some? then Success(Bits(c.size.value)) else Failure(BadConstraint)
      case Chars(k, s, a) =>
        Success(Chars(k, if c.size.Some? then c.size.value else s, if c.alphabet.Some? then c.alphabet else a))
      case SeqOf(_, item) => if c.size.Some? then Success(SeqOf(c.size.value, item)) else Failure(BadConstraint)
      case Opaque(_) => Success(t)
      case _ => Failure(BadConstraint)
  }

  /** Constraints applied in the order written. */
  function ApplyAll(t: Type, cs: seq<Constraint>): (r: Result<Type, Fault>)
    ensures r.Success? && !t.Ref? ==> !r.value.Ref?
    ensures r.Failure? ==> r.error == BadConstraint
    decreases |cs|
  {
    if cs == [] then Success(t) else
      var u :- Apply(t, cs[0]);
      ApplyAll(u, cs[1..])
  }

  lemma {:induction false} ApplyAllConcat(t: Type, a: seq<Constraint>, b: seq<Constraint>)
    ensures ApplyAll(t, a + b) == (match ApplyAll(t, a) case Success(u) => ApplyAll(u, b) case Failure(f) => Failure(f))
    decreases |a|
  {
    if a == [] {
      assert a + b == b;
    } else {
      assert (a + b)[1..] == a[1..] + b;
      if Apply(t, a[0]).Success? {
        ApplyAllConcat(Apply(t, a[0]).value, a[1..], b);
      }
    }
  }

  lemma {:induction false} ApplyAllRef(name: string, own: seq<VisibleConstraint>, cs: seq<VisibleConstraint>)
    ensures ApplyAll(Ref(name, own), cs) == Success(Ref(name, own + cs))
    decreases |cs|
  {
    if cs == [] {
      assert own + cs == own;
    } else {
      ApplyAllRef(name, own + [cs[0]], cs[1..]);
      assert own + [cs[0]] + cs[1..] == own + cs;
    }
  }

  /** A constraint never changes what kind of type it narrows, nor an element type. */
  lemma {:induction false} ApplyAllShape(t: Type, cs: seq<VisibleConstraint>)
    requires !t.Ref?
    requires ApplyAll(t, cs).Success?
    ensures var u := ApplyAll(t, cs).value;
            && !u.Ref?
            && (cs == [] ==> u == t)
            && (cs != [] ==> !u.Seq? && !u.Choice?)
            && (u.Seq? ==> t == u) && (u.Choice? ==> t == u)
            && (u.SeqOf? <==> t.SeqOf?) && (u.SeqOf? ==> u.item == t.item)
    decreases |cs|
  {
    if cs != [] {
      ApplyAllShape(Apply(t, cs[0]).value, cs[1..]);
    }
  }

  // ---- modules and references -----------------------------------------------------------

  datatype Module = Module(imports: map<string, string>, types: map<string, Type>)

  type Modules = map<string, Module>

  datatype Key = Key(mod: string, name: string)

  predicate Defined(mods: Modules, k: Key) {
    k.mod in mods && k.name in mods[k.mod].types
  }

  function Def(mods: Modules, k: Key): Type
    requires Defined(mods, k)
  {
    mods[k.mod].types[k.name]
  }

  function Keys(mods: Modules): (ks: set<Key>)
    ensures forall k :: k in ks <==> Defined(mods, k)
  {
    set m, n | m in mods && n in mods[m].types :: Key(m, n)
  }

  /** Where a name used in `mod` is defined; `seen` are the modules already asked for it. */
  function Resolve(mods: Modules, mod: string, name: string, seen: set<string> := {}): (r: Result<Key, Fault>)
    ensures r.Success? ==> Defined(mods, r.value) && r.value.name == name
    ensures r.Failure? ==> r.error != AliasCycle
    decreases mods.Keys - seen
  {
    if mod !in mods then Failure(UnknownModule(mod))
    else if name in mods[mod].types then Success(Key(mod, name))
    else if name !in mods[mod].imports then Failure(UnknownType(mod, name))
    else if mod in seen then Failure(ImportCycle(mod, name))
    else Resolve(mods, mods[mod].imports[name], name, seen + {mod})
  }

  /** A type together with the module its own references are resolved in. */
  datatype Scoped = Scoped(mod: string, ty: Type)

  /** Constraints applied to what a reference turned out to stand for. */
  function Narrow(h: Result<Scoped, Fault>, cs: seq<Constraint>): Result<Scoped, Fault> {
    var s :- h;
    var b :- ApplyAll(s.ty, cs);
    Success(Scoped(s.mod, b))
  }

  /**
   The type a (constrained) reference stands for: the definition, itself taken through any
   further alias, with the reference's own constraints applied last.
   */
  function Head(mods: Modules, mod: string, t: Type, seen: set<Key> := {}): (r: Result<Scoped, Fault>)
    ensures r.Success? ==> !r.value.ty.Ref?
    ensures !t.Ref? ==> r == Success(Scoped(mod, t))
    decreases Keys(mods) - seen
  {
    if !t.Ref? then Success(Scoped(mod, t)) else
      var k :- Resolve(mods, mod, t.name);
      if k in seen then Failure(AliasCycle)
      else Narrow(Head(mods, k.mod, Def(mods, k), seen + {k}), t.constraints)
  }

  /** The last definition on the chain of aliases that starts at `k`. */
  function HeadKey(mods: Modules, k: Key, seen: set<Key> := {}): (r: Result<Key, Fault>)
    requires Defined(mods, k)
    ensures r.Success? ==> Defined(mods, r.value) && !Def(mods, r.value).Ref?
    decreases Keys(mods) - seen
  {
    if k in seen then Failure(AliasCycle)
    else if !Def(mods, k).Ref? then Success(k)
    else
      var next :- Resolve(mods, k.mod, Def(mods, k).name);
      HeadKey(mods, next, seen + {k})
  }

  /** Remembering fewer aliases changes nothing on a chain that never came back to one. */
  lemma {:induction false} HeadForgets(mods: Modules, mod: string, t: Type, seen: set<Key>, fewer: set<Key>)
    requires fewer <= seen
    requires Head(mods, mod, t, seen) != Failure(AliasCycle)
    ensures Head(mods, mod, t, fewer) == Head(mods, mod, t, seen)
    decreases Keys(mods) - seen
  {
    if t.Ref? && Resolve(mods, mod, t.name).Success? {
      var k := Resolve(mods, mod, t.name).value;
      HeadForgets(mods, k.mod, Def(mods, k), seen + {k}, fewer + {k});
    }
  }

  /** The head of a reference is its last definition, narrowed, in that definition's module. */
  lemma {:induction false} HeadIsNarrowedKey(mods: Modules, mod: string, t: Type, seen: set<Key>)
    requires t.Ref? && Resolve(mods, mod, t.name).Success?
    ensures var k := Resolve(mods, mod, t.name).value;
            var h := Head(mods, mod, t, seen);
            && (h == Failure(AliasCycle) <==> HeadKey(mods, k, seen) == Failure(AliasCycle))
            && (h.Success? ==>
                  && HeadKey(mods, k, seen).Success?
                  && var last := HeadKey(mods, k, seen).value;
                  && h.value.mod == last.mod
                  && (h.value.ty.SeqOf? <==> Def(mods, last).SeqOf?)
                  && (h.value.ty.SeqOf? ==> h.value.ty.item == Def(mods, last).item)
                  && (h.value.ty.Seq? || h.value.ty.Choice? ==> t.constraints == []))
    decreases Keys(mods) - seen
  {
    var k := Resolve(mods, mod, t.name).value;
    if k !in seen {
      var d := Def(mods, k);
      if d.Ref? && Resolve(mods, k.mod, d.name).Success? {
        HeadIsNarrowedKey(mods, k.mod, d, seen + {k});
      }
      var inner := Head(mods, k.mod, d, seen + {k});
      if inner.Success? && ApplyAll(inner.value.ty, t.constraints).Success? {
        ApplyAllShape(inner.value.ty, t.constraints);
      }
    }
  }

  /** How many aliases a reference is away from a type, or `None` if they form a cycle. */
  function Distance(mods: Modules, mod: string, t: Type, seen: set<Key>): Option<nat>
    decreases Keys(mods) - seen
  {
    if !t.Ref? || Resolve(mods, mod, t.name).Failure? then Some(0)
    else
      var k := Resolve(mods, mod, t.name).value;
      if k in seen then None
      else
        var rest := Distance(mods, k.mod, Def(mods, k), seen + {k});
        if rest.None? then None else Some(rest.value + 1)
  }

  lemma {:induction false} DistanceForgets(mods: Modules, mod: string, t: Type, seen: set<Key>, fewer: set<Key>)
    requires fewer <= seen && Distance(mods, mod, t, seen).Some?
    ensures Distance(mods, mod, t, fewer) == Distance(mods, mod, t, seen)
    decreases Keys(mods) - seen
  {
    if t.Ref? && Resolve(mods, mod, t.name).Success? {
      var k := Resolve(mods, mod, t.name).value;
      DistanceForgets(mods, k.mod, Def(mods, k), seen + {k}, fewer + {k});
    }
  }

  /** A reference is a cycle of aliases exactly when it is at no distance. */
  lemma {:induction false} CycleHasNoDistance(mods: Modules, mod: string, t: Type, seen: set<Key>)
    ensures Head(mods, mod, t, seen) == Failure(AliasCycle) <==> Distance(mods, mod, t, seen).None?
    decreases Keys(mods) - seen
  {
    if t.Ref? && Resolve(mods, mod, t.name).Success? {
      var k := Resolve(mods, mod, t.name).value;
      if k !in seen {
        CycleHasNoDistance(mods, k.mod, Def(mods, k), seen + {k});
      }
    }
  }

  /** A chain that ends meets no alias at its own distance or farther. */
  lemma {:induction false} DistanceClear(mods: Modules, mod: string, t: Type, seen: set<Key>, more: set<Key>)
    requires Distance(mods, mod, t, seen).Some?
    requires forall s :: s in more && Defined(mods, s) && Distance(mods, s.mod, Def(mods, s), {}).Some? ==>
               Distance(mods, s.mod, Def(mods, s), {}).value >= Distance(mods, mod, t, seen).value
    ensures Distance(mods, mod, t, seen + more) == Distance(mods, mod, t, seen)
    decreases Keys(mods) - seen
  {
    if t.Ref? && Resolve(mods, mod, t.name).Success? {
      var k := Resolve(mods, mod, t.name).value;
      DistanceForgets(mods, k.mod, Def(mods, k), seen + {k}, {});
      assert k !in more;
      DistanceClear(mods, k.mod, Def(mods, k), seen + {k}, more);
      assert seen + {k} + more == seen + more + {k};
    }
  }
}
