/**
 Which modules the emitter of `scripts/h323_asn1_schema.py` can write out, and what following a
 constrained reference does to the modules: a constraint list is copied by reference, so
 constraints carried onto an alias that has some of its own stay there.
 */
module Asn1Sharing {
  import opened Wrappers
  import opened Asn1Types

  // ---- which modules can be emitted -----------------------------------------------------

  /**
   Writing out `t` ends, given that it refers by name only to `within`: no constrained reference
   leads back to a definition already being repeated (`seen`), and none is to a cycle of aliases.
   */
  predicate EndsIn(mods: Modules, within: set<Key>, mod: string, t: Type, seen: set<Key>)
    decreases Keys(mods) - seen, t
  {
    match t
    case Ref(name, cs) =>
      Resolve(mods, mod, name).Failure? ||
      (if cs == [] then Resolve(mods, mod, name).value in within
       else
         match HeadKey(mods, Resolve(mods, mod, name).value)
         case Failure(f) => f != AliasCycle
         case Success(last) =>
           last !in seen && (Def(mods, last).SeqOf? ==> EndsIn(mods, within, last.mod, Def(mods, last).item, seen + {last})))
    case SeqOf(_, item) => EndsIn(mods, within, mod, item, seen)
    case Seq(root, ext) => EndsAllIn(mods, within, mod, root, seen) && (ext.Open? ==> EndsAllIn(mods, within, mod, ext.fields, seen))
    case Choice(root, ext) => EndsAllIn(mods, within, mod, root, seen) && (ext.Open? ==> EndsAllIn(mods, within, mod, ext.fields, seen))
    case _ => true
  }

  predicate EndsAllIn(mods: Modules, within: set<Key>, mod: string, fs: seq<Field>, seen: set<Key>)
    decreases Keys(mods) - seen, fs
  {
    forall i :: 0 <= i < |fs| ==> EndsIn(mods, within, mod, fs[i].ty, seen)
  }

  /** Everything in `within` ends, and refers by name only to what is in it. */
  ghost predicate Confined(mods: Modules, within: set<Key>) {
    forall k {:trigger k in within} :: k in within && Defined(mods, k) ==> EndsIn(mods, within, k.mod, Def(mods, k), {})
  }

  ghost predicate IsEnding(mods: Modules, k: Key) {
    exists within: set<Key> :: Confined(mods, within) && k in within
  }

  /** The definitions whose writing out ends, whatever it reaches. */
  ghost function Ending(mods: Modules): set<Key> {
    set k | k in Keys(mods) && IsEnding(mods, k)
  }

  /** Writing out `t` ends, and so does all that it reaches by name. */
  ghost predicate Ends(mods: Modules, mod: string, t: Type, seen: set<Key>) {
    EndsIn(mods, Ending(mods), mod, t, seen)
  }

  ghost predicate EndsAll(mods: Modules, mod: string, fs: seq<Field>, seen: set<Key>) {
    EndsAllIn(mods, Ending(mods), mod, fs, seen)
  }

  lemma EndsField(mods: Modules, mod: string, fs: seq<Field>, seen: set<Key>, n: nat)
    requires EndsAll(mods, mod, fs, seen) && n < |fs|
    ensures Ends(mods, mod, fs[n].ty, seen)
  {
    hide EndsIn, Ending;
  }

  lemma EndsParts(mods: Modules, mod: string, t: Type, seen: set<Key>)
    requires Ends(mods, mod, t, seen) && (t.Seq? || t.Choice?)
    ensures EndsAll(mods, mod, t.root, seen) && (t.ext.Open? ==> EndsAll(mods, mod, t.ext.fields, seen))
  {
    hide EndsAllIn, Ending;
  }

  lemma {:induction false} EndsInMore(mods: Modules, within: set<Key>, more: set<Key>, mod: string, t: Type, seen: set<Key>)
    requires EndsIn(mods, within, mod, t, seen) && forall k :: k in within && Defined(mods, k) ==> k in more
    ensures EndsIn(mods, more, mod, t, seen)
    decreases Keys(mods) - seen, t
  {
    match t
    case Ref(name, cs) =>
      if cs != [] && Resolve(mods, mod, name).Success? && HeadKey(mods, Resolve(mods, mod, name).value).Success? {
        var last := HeadKey(mods, Resolve(mods, mod, name).value).value;
        if Def(mods, last).SeqOf? {
          EndsInMore(mods, within, more, last.mod, Def(mods, last).item, seen + {last});
        }
      }
    case SeqOf(_, item) => EndsInMore(mods, within, more, mod, item, seen);
    case Seq(root, ext) =>
      EndsAllInMore(mods, within, more, mod, root, seen);
      if ext.Open? {
        EndsAllInMore(mods, within, more, mod, ext.fields, seen);
      }
    case Choice(root, ext) =>
      EndsAllInMore(mods, within, more, mod, root, seen);
      if ext.Open? {
        EndsAllInMore(mods, within, more, mod, ext.fields, seen);
      }
    case _ =>
  }

  lemma {:induction false} EndsAllInMore(mods: Modules, within: set<Key>, more: set<Key>, mod: string, fs: seq<Field>, seen: set<Key>)
    requires EndsAllIn(mods, within, mod, fs, seen) && forall k :: k in within && Defined(mods, k) ==> k in more
    ensures EndsAllIn(mods, more, mod, fs, seen)
    decreases Keys(mods) - seen, fs
  {
    forall i | 0 <= i < |fs| ensures EndsIn(mods, more, mod, fs[i].ty, seen) {
      EndsInMore(mods, within, more, mod, fs[i].ty, seen);
    }
  }

  /** What ends refers only to what ends. */
  lemma EndingEnds(mods: Modules, k: Key)
    requires k in Ending(mods)
    ensures Defined(mods, k) && Ends(mods, k.mod, Def(mods, k), {})
  {
    hide EndsIn;
    var within: set<Key> :| Confined(mods, within) && k in within;
    forall l | l in within && Defined(mods, l) ensures l in Ending(mods) {
      assert IsEnding(mods, l);
    }
    EndsInMore(mods, within, Ending(mods), k.mod, Def(mods, k), {});
  }

  /** Every reference in `t` leads to a type, and its constraints fit that type. */
  predicate Sound(mods: Modules, mod: string, t: Type) {
    match t
    case Ref(name, cs) => if cs == [] then Resolve(mods, mod, name).Success? else Head(mods, mod, t).Success?
    case SeqOf(_, item) => Sound(mods, mod, item)
    case Seq(root, ext) => SoundAll(mods, mod, root) && (ext.Open? ==> SoundAll(mods, mod, ext.fields))
    case Choice(root, ext) => SoundAll(mods, mod, root) && (ext.Open? ==> SoundAll(mods, mod, ext.fields))
    case _ => true
  }

  predicate SoundAll(mods: Modules, mod: string, fs: seq<Field>) {
    forall i :: 0 <= i < |fs| ==> Sound(mods, mod, fs[i].ty)
  }

  ghost predicate AllSound(mods: Modules) {
    forall k {:trigger Defined(mods, k)} :: Defined(mods, k) ==> Sound(mods, k.mod, Def(mods, k))
  }

  /**
   Following the alias `base` carries constraints onto a definition that has a constraint
   list of its own. The copy made for that step shares this list, so the definition changes.
   */
  predicate Shares(mods: Modules, mod: string, base: Type, seen: set<Key>)
    decreases Keys(mods) - seen
  {
    && base.Ref?
    && Resolve(mods, mod, base.name).Success?
    && var next := Resolve(mods, mod, base.name).value;
    && next !in seen
    && var d := Def(mods, next);
    && var carried := ApplyAll(d, base.constraints);
    && carried.Success?
    && ((d.Ref? && base.constraints != [] && d.constraints != [])
        || Shares(mods, next.mod, carried.value, seen + {next}))
  }

  function Redefine(mods: Modules, k: Key, t: Type): (r: Modules)
    requires Defined(mods, k)
    ensures Keys(r) == Keys(mods)
  {
    mods[k.mod := mods[k.mod].(types := mods[k.mod].types[k.name := t])]
  }

  /** Same names and imports, and the same definitions except at `changed`. */
  ghost predicate Alike(a: Modules, b: Modules, changed: set<Key>) {
    && (forall m :: m in a <==> m in b)
    && (forall m :: m in a ==> a[m].imports == b[m].imports)
    && (forall k :: Defined(a, k) <==> Defined(b, k))
    && (forall k :: Defined(a, k) && k !in changed ==> Def(a, k) == Def(b, k))
  }

  lemma AlikeRedefined(a: Modules, b: Modules, changed: set<Key>, k: Key, t: Type)
    requires Alike(a, b, changed) && Defined(b, k)
    ensures Alike(a, Redefine(b, k, t), changed + {k})
    ensures Def(Redefine(b, k, t), k) == t
    ensures forall l :: Defined(b, l) && l != k ==> Defined(Redefine(b, k, t), l) && Def(Redefine(b, k, t), l) == Def(b, l)
  {
    var c := Redefine(b, k, t);
    forall l
      ensures Defined(b, l) <==> Defined(c, l)
      ensures Defined(b, l) && l != k ==> Def(c, l) == Def(b, l)
    {
    }
  }

  /** The definition of `k` after constraints were carried onto a copy of it. */
  function Carried(mods: Modules, k: Key, cs: seq<VisibleConstraint>): (r: Modules)
    requires Defined(mods, k)
    ensures Keys(r) == Keys(mods)
  {
    var d := Def(mods, k);
    if d.Ref? && d.constraints != [] && cs != [] then Redefine(mods, k, Ref(d.name, d.constraints + cs)) else mods
  }

  /** `now` differs from `mods` only at aliases walked through, and `at` shows that it does. */
  ghost predicate Walked(mods: Modules, now: Modules, seen: set<Key>, at: Key) {
    && Alike(mods, now, seen)
    && (now != mods ==> at in seen && Defined(mods, at) && Def(now, at) != Def(mods, at))
  }

  lemma WalkedStep(mods: Modules, now: Modules, seen: set<Key>, at: Key, k: Key, cs: seq<VisibleConstraint>)
    requires Walked(mods, now, seen, at)
    requires Defined(mods, k) && k !in seen
    ensures Defined(now, k) && Def(now, k) == Def(mods, k)
    ensures var after := Carried(now, k, cs);
            var d := Def(mods, k);
            && (after != mods <==> now != mods || (d.Ref? && d.constraints != [] && cs != []))
            && Walked(mods, after, seen + {k}, if after != now then k else at)
  {
    var d := Def(mods, k);
    if d.Ref? && d.constraints != [] && cs != [] {
      AlikeRedefined(mods, now, seen, k, Ref(d.name, d.constraints + cs));
      assert |(d.constraints + cs)| > |d.constraints|;
    }
  }

  lemma {:induction false} ResolveAlike(a: Modules, b: Modules, changed: set<Key>, mod: string, name: string, seen: set<string>)
    requires Alike(a, b, changed)
    ensures Resolve(a, mod, name, seen) == Resolve(b, mod, name, seen)
    decreases a.Keys - seen
  {
    assert Defined(a, Key(mod, name)) <==> Defined(b, Key(mod, name));
    if mod in a && name !in a[mod].types && name in a[mod].imports && mod !in seen {
      ResolveAlike(a, b, changed, a[mod].imports[name], name, seen + {mod});
    }
  }

  /** Constraints carried onto an alias come to the same as constraints applied at its end. */
  lemma {:induction false} HeadCarries(mods: Modules, mod: string, d: Type, cs: seq<VisibleConstraint>, seen: set<Key>)
    ensures match ApplyAll(d, cs)
            case Success(carried) => Head(mods, mod, carried, seen) == Narrow(Head(mods, mod, d, seen), cs)
            case Failure(f) => !d.Ref? && Narrow(Head(mods, mod, d, seen), cs) == Failure(f)
  {
    if d.Ref? {
      ApplyAllRef(d.name, d.constraints, cs);
      if Resolve(mods, mod, d.name).Success? {
        var k := Resolve(mods, mod, d.name).value;
        if k !in seen && Head(mods, k.mod, Def(mods, k), seen + {k}).Success? {
          ApplyAllConcat(Head(mods, k.mod, Def(mods, k), seen + {k}).value.ty, d.constraints, cs);
        }
      }
    }
  }

  /** One step along a chain of aliases. */
  lemma ChaseStep(mods: Modules, mod: string, base: Type, seen: set<Key>)
    requires base.Ref? && Resolve(mods, mod, base.name).Success?
    requires Head(mods, mod, base, seen) != Failure(AliasCycle)
    ensures var next := Resolve(mods, mod, base.name).value;
            && next !in seen
            && var d := Def(mods, next);
            match ApplyAll(d, base.constraints)
            case Success(carried) =>
              && Head(mods, next.mod, carried, seen + {next}) == Head(mods, mod, base, seen)
              && (Shares(mods, mod, base, seen) <==>
                  (d.Ref? && base.constraints != [] && d.constraints != []) || Shares(mods, next.mod, carried, seen + {next}))
            case Failure(f) => !d.Ref? && Head(mods, mod, base, seen) == Failure(f) && !Shares(mods, mod, base, seen)
  {
    var next := Resolve(mods, mod, base.name).value;
    HeadCarries(mods, next.mod, Def(mods, next), base.constraints, seen + {next});
  }

  // ---- the modules after a reference was followed ---------------------------------------

  /** The modules after the alias `base` was followed to its end. */
  function After(mods: Modules, mod: string, base: Type, seen: set<Key>): Modules
    decreases Keys(mods) - seen
  {
    if !base.Ref? || Resolve(mods, mod, base.name).Failure? then mods
    else
      var next := Resolve(mods, mod, base.name).value;
      if next in seen || ApplyAll(Def(mods, next), base.constraints).Failure? then mods
      else After(Carried(mods, next, base.constraints), next.mod, ApplyAll(Def(mods, next), base.constraints).value, seen + {next})
  }

  /** And after a constrained reference was. */
  function AfterRef(mods: Modules, mod: string, t: Type): Modules
    requires t.Ref?
  {
    match Resolve(mods, mod, t.name)
    case Failure(_) => mods
    case Success(k) => After(mods, k.mod, Def(mods, k), {k})
  }

  predicate SharesRef(mods: Modules, mod: string, t: Type)
    requires t.Ref?
  {
    match Resolve(mods, mod, t.name)
    case Failure(_) => false
    case Success(k) => Shares(mods, k.mod, Def(mods, k), {k})
  }

  /** A definition only ever changes by constraints added to a list that has some. */
  predicate Longer(s: Type, t: Type) {
    s == t || (s.Ref? && t.Ref? && s.name == t.name && s.constraints != [] && s.constraints < t.constraints)
  }

  ghost predicate Extends(a: Modules, b: Modules) {
    && (forall m :: m in a <==> m in b)
    && (forall m :: m in a ==> a[m].imports == b[m].imports)
    && (forall k {:trigger Defined(a, k)} {:trigger Defined(b, k)} :: Defined(a, k) <==> Defined(b, k))
    && (forall k {:trigger Defined(a, k)} {:trigger Defined(b, k)} :: Defined(a, k) && Defined(b, k) ==> Longer(Def(a, k), Def(b, k)))
  }

  lemma ExtendsSelf(a: Modules)
    ensures Extends(a, a)
  {
  }

  lemma ExtendsTrans(a: Modules, b: Modules, c: Modules)
    requires Extends(a, b) && Extends(b, c)
    ensures Extends(a, c)
  {
    forall k | Defined(a, k) && Defined(c, k)
      ensures Longer(Def(a, k), Def(c, k))
    {
      assert Defined(b, k);
    }
  }

  /** What has changed never changes back. */
  lemma NeverBack(a: Modules, b: Modules)
    requires Extends(a, b) && Extends(b, a)
    ensures a == b
  {
    forall m | m in a
      ensures a[m] == b[m]
    {
      forall n | n in a[m].types || n in b[m].types
        ensures n in a[m].types && n in b[m].types && a[m].types[n] == b[m].types[n]
      {
        var k := Key(m, n);
        assert Defined(a, k) && Defined(b, k);
      }
      assert a[m].types == b[m].types;
    }
  }

  lemma CarriedExtends(mods: Modules, k: Key, cs: seq<VisibleConstraint>)
    requires Defined(mods, k)
    ensures Extends(mods, Carried(mods, k, cs))
  {
    var d := Def(mods, k);
    var after := Carried(mods, k, cs);
    forall l | Defined(mods, l)
      ensures Defined(after, l) && Longer(Def(mods, l), Def(after, l))
    {
      if l == k && after != mods {
        assert d.constraints < d.constraints + cs;
      }
    }
    forall l | Defined(after, l) ensures Defined(mods, l) {
    }
  }

  lemma {:induction false} ResolveExtends(a: Modules, b: Modules, mod: string, name: string, seen: set<string>)
    requires Extends(a, b)
    ensures Resolve(a, mod, name, seen) == Resolve(b, mod, name, seen)
    decreases a.Keys - seen
  {
    assert Defined(a, Key(mod, name)) <==> Defined(b, Key(mod, name));
    if mod in a && name !in a[mod].types && name in a[mod].imports && mod !in seen {
      ResolveExtends(a, b, a[mod].imports[name], name, seen + {mod});
    }
  }

  lemma SameKeys(a: Modules, b: Modules)
    requires Extends(a, b)
    ensures Keys(a) == Keys(b)
  {
    assert forall k :: k in Keys(a) <==> k in Keys(b);
  }

  lemma {:induction false} HeadKeyExtends(a: Modules, b: Modules, k: Key, seen: set<Key>)
    requires Extends(a, b) && Defined(a, k)
    ensures Defined(b, k) && HeadKey(a, k, seen) == HeadKey(b, k, seen)
    ensures HeadKey(a, k, seen).Success? ==> Def(a, HeadKey(a, k, seen).value) == Def(b, HeadKey(a, k, seen).value)
    decreases Keys(a) - seen
  {
    assert Defined(b, k) && Longer(Def(a, k), Def(b, k));
    if k !in seen && Def(a, k).Ref? {
      ResolveExtends(a, b, k.mod, Def(a, k).name, {});
      if Resolve(a, k.mod, Def(a, k).name).Success? {
        HeadKeyExtends(a, b, Resolve(a, k.mod, Def(a, k).name).value, seen + {k});
      }
    }
  }

  lemma {:induction false} EndsInExtends(a: Modules, b: Modules, within: set<Key>, mod: string, t: Type, seen: set<Key>)
    requires Extends(a, b)
    ensures EndsIn(a, within, mod, t, seen) == EndsIn(b, within, mod, t, seen)
    decreases Keys(a) - seen, t
  {
    match t
    case Ref(name, cs) =>
      ResolveExtends(a, b, mod, name, {});
      if cs != [] && Resolve(a, mod, name).Success? {
        var k := Resolve(a, mod, name).value;
        HeadKeyExtends(a, b, k, {});
        if HeadKey(a, k).Success? {
          var last := HeadKey(a, k).value;
          if last !in seen && Def(a, last).SeqOf? {
            EndsInExtends(a, b, within, last.mod, Def(a, last).item, seen + {last});
          }
        }
      }
    case SeqOf(_, item) => EndsInExtends(a, b, within, mod, item, seen);
    case Seq(root, ext) =>
      EndsAllInExtends(a, b, within, mod, root, seen);
      if ext.Open? {
        EndsAllInExtends(a, b, within, mod, ext.fields, seen);
      }
    case Choice(root, ext) =>
      EndsAllInExtends(a, b, within, mod, root, seen);
      if ext.Open? {
        EndsAllInExtends(a, b, within, mod, ext.fields, seen);
      }
    case _ =>
  }

  lemma {:induction false} EndsAllInExtends(a: Modules, b: Modules, within: set<Key>, mod: string, fs: seq<Field>, seen: set<Key>)
    requires Extends(a, b)
    ensures EndsAllIn(a, within, mod, fs, seen) == EndsAllIn(b, within, mod, fs, seen)
    decreases Keys(a) - seen, fs
  {
    forall i | 0 <= i < |fs|
      ensures EndsIn(a, within, mod, fs[i].ty, seen) == EndsIn(b, within, mod, fs[i].ty, seen)
    {
      EndsInExtends(a, b, within, mod, fs[i].ty, seen);
    }
  }

  lemma LongerEnds(mods: Modules, within: set<Key>, mod: string, s: Type, t: Type, seen: set<Key>)
    requires Longer(s, t)
    ensures EndsIn(mods, within, mod, s, seen) == EndsIn(mods, within, mod, t, seen)
  {
  }

  lemma ConfinedExtends(a: Modules, b: Modules, within: set<Key>)
    requires Extends(a, b)
    ensures Confined(a, within) <==> Confined(b, within)
  {
    forall k | k in within && Defined(a, k)
      ensures Defined(b, k) && EndsIn(a, within, k.mod, Def(a, k), {}) == EndsIn(b, within, k.mod, Def(b, k), {})
    {
      EndsInExtends(a, b, within, k.mod, Def(a, k), {});
      LongerEnds(b, within, k.mod, Def(a, k), Def(b, k), {});
    }
    hide EndsIn;
  }

  lemma EndingExtends(a: Modules, b: Modules)
    requires Extends(a, b)
    ensures Ending(a) == Ending(b)
  {
    SameKeys(a, b);
    forall k ensures IsEnding(a, k) <==> IsEnding(b, k) {
      if IsEnding(a, k) {
        var within: set<Key> :| Confined(a, within) && k in within;
        ConfinedExtends(a, b, within);
      }
      if IsEnding(b, k) {
        var within: set<Key> :| Confined(b, within) && k in within;
        ConfinedExtends(a, b, within);
      }
    }
    hide Confined;
  }

  /** Whether writing out a type ends does not depend on the constraints. */
  lemma EndsExtends(a: Modules, b: Modules, mod: string, t: Type, seen: set<Key>)
    requires Extends(a, b)
    ensures Ends(a, mod, t, seen) == Ends(b, mod, t, seen)
  {
    EndingExtends(a, b);
    EndsInExtends(a, b, Ending(a), mod, t, seen);
    hide EndsIn, Ending;
  }

  lemma EndsAllExtends(a: Modules, b: Modules, mod: string, fs: seq<Field>, seen: set<Key>)
    requires Extends(a, b)
    ensures EndsAll(a, mod, fs, seen) == EndsAll(b, mod, fs, seen)
  {
    EndingExtends(a, b);
    EndsAllInExtends(a, b, Ending(a), mod, fs, seen);
    hide EndsAllIn, Ending;
  }

  // ---- what emission reaches ------------------------------------------------------------

  /**
   Emitting `t` shares no constraint list, given that it refers by name only to `reach`: each
   constrained reference in it, and in the element types those lead to, shares nothing.
   */
  predicate Calm(mods: Modules, reach: set<Key>, mod: string, t: Type, seen: set<Key>)
    decreases Keys(mods) - seen, t
  {
    match t
    case Ref(name, cs) =>
      (match Resolve(mods, mod, name)
       case Failure(_) => true
       case Success(k) =>
         if cs == [] then k in reach
         else
           && !Shares(mods, k.mod, Def(mods, k), {k})
           && (match HeadKey(mods, k)
               case Failure(_) => true
               case Success(last) =>
                 last in seen || (Def(mods, last).SeqOf? ==> Calm(mods, reach, last.mod, Def(mods, last).item, seen + {last}))))
    case SeqOf(_, item) => Calm(mods, reach, mod, item, seen)
    case Seq(root, ext) => CalmAll(mods, reach, mod, root, seen) && (ext.Open? ==> CalmAll(mods, reach, mod, ext.fields, seen))
    case Choice(root, ext) => CalmAll(mods, reach, mod, root, seen) && (ext.Open? ==> CalmAll(mods, reach, mod, ext.fields, seen))
    case _ => true
  }

  predicate CalmAll(mods: Modules, reach: set<Key>, mod: string, fs: seq<Field>, seen: set<Key>)
    decreases Keys(mods) - seen, fs
  {
    forall i :: 0 <= i < |fs| ==> Calm(mods, reach, mod, fs[i].ty, seen)
  }

  /** A set of definitions that refer by name only to each other and share nothing. */
  ghost predicate AllCalm(mods: Modules, reach: set<Key>) {
    forall k {:trigger k in reach} :: k in reach && Defined(mods, k) ==> Calm(mods, reach, k.mod, Def(mods, k), {})
  }

  /** No constrained reference that emission reaches from `roots` shares a constraint list. */
  ghost predicate Untouched(mods: Modules, roots: seq<Key>) {
    exists reach: set<Key> :: AllCalm(mods, reach) && ReachHolds(mods, reach, roots)
  }

  ghost predicate ReachHolds(mods: Modules, reach: set<Key>, roots: seq<Key>) {
    forall i :: 0 <= i < |roots| ==> Calm(mods, reach, roots[i].mod, Ref(roots[i].name, []), {})
  }

  lemma {:induction false} CalmMore(mods: Modules, reach: set<Key>, more: set<Key>, mod: string, t: Type, seen: set<Key>)
    requires Calm(mods, reach, mod, t, seen) && reach <= more
    ensures Calm(mods, more, mod, t, seen)
    decreases Keys(mods) - seen, t
  {
    match t
    case Ref(name, cs) =>
      if cs != [] && Resolve(mods, mod, name).Success? && HeadKey(mods, Resolve(mods, mod, name).value).Success? {
        var last := HeadKey(mods, Resolve(mods, mod, name).value).value;
        if last !in seen && Def(mods, last).SeqOf? {
          CalmMore(mods, reach, more, last.mod, Def(mods, last).item, seen + {last});
        }
      }
    case SeqOf(_, item) => CalmMore(mods, reach, more, mod, item, seen);
    case Seq(root, ext) =>
      CalmAllMore(mods, reach, more, mod, root, seen);
      if ext.Open? {
        CalmAllMore(mods, reach, more, mod, ext.fields, seen);
      }
    case Choice(root, ext) =>
      CalmAllMore(mods, reach, more, mod, root, seen);
      if ext.Open? {
        CalmAllMore(mods, reach, more, mod, ext.fields, seen);
      }
    case _ =>
  }

  lemma {:induction false} CalmAllMore(mods: Modules, reach: set<Key>, more: set<Key>, mod: string, fs: seq<Field>, seen: set<Key>)
    requires CalmAll(mods, reach, mod, fs, seen) && reach <= more
    ensures CalmAll(mods, more, mod, fs, seen)
    decreases Keys(mods) - seen, fs
  {
    forall i | 0 <= i < |fs|
      ensures Calm(mods, more, mod, fs[i].ty, seen)
    {
      CalmMore(mods, reach, more, mod, fs[i].ty, seen);
    }
  }

  // ---- a constrained reference ----------------------------------------------------------

  /** A constrained reference that may be written out leads to a type that may be. */
  lemma EndsChase(mods: Modules, mod: string, t: Type, seen: set<Key>)
    requires t.Ref? && t.constraints != [] && Ends(mods, mod, t, seen)
    ensures Head(mods, mod, t) != Failure(AliasCycle)
    ensures Head(mods, mod, t).Success? ==>
              && Resolve(mods, mod, t.name).Success?
              && HeadKey(mods, Resolve(mods, mod, t.name).value).Success?
              && var last := HeadKey(mods, Resolve(mods, mod, t.name).value).value;
              && var h := Head(mods, mod, t).value;
              && last !in seen && h.mod == last.mod && !h.ty.Seq? && !h.ty.Choice?
              && (h.ty.SeqOf? <==> Def(mods, last).SeqOf?) && (h.ty.SeqOf? ==> h.ty.item == Def(mods, last).item)
              && Ends(mods, h.mod, h.ty, seen + {last})
              && (AllSound(mods) ==> Sound(mods, h.mod, h.ty))
  {
    if Resolve(mods, mod, t.name).Success? {
      HeadIsNarrowedKey(mods, mod, t, {});
    }
  }

  /** It is calm exactly when it shares nothing and the type it leads to is calm. */
  lemma CalmChase(mods: Modules, reach: set<Key>, mod: string, t: Type, seen: set<Key>)
    requires t.Ref? && t.constraints != [] && Ends(mods, mod, t, seen) && Head(mods, mod, t).Success?
    ensures Resolve(mods, mod, t.name).Success? && HeadKey(mods, Resolve(mods, mod, t.name).value).Success?
    ensures var last := HeadKey(mods, Resolve(mods, mod, t.name).value).value;
            var h := Head(mods, mod, t).value;
            Calm(mods, reach, mod, t, seen) <==> !SharesRef(mods, mod, t) && Calm(mods, reach, h.mod, h.ty, seen + {last})
  {
    EndsChase(mods, mod, t, seen);
  }
}
