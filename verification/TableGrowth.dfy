/** The three ways the emitter changes its table, and what each of them keeps. */
module TableGrowth {
  import opened Wrappers
  import opened Asn1Types
  import opened PerTable

  /** A name's index reserved before its definition is written out. */
  function Reserve(tb: Table, k: Key): Table {
    tb.(entries := tb.entries + [None], index := tb.index[k := |tb.entries|])
  }

  function Fill(tb: Table, k: Key, e: Ty): Table
    requires k in tb.index && tb.index[k] < |tb.entries|
  {
    tb.(entries := tb.entries[tb.index[k] := Some(Entry(k.mod + "." + k.name, e))])
  }

  /** An unnamed type written as `e`: the entry that already says so, or a new one. */
  function Share(tb: Table, name: string, c: Scoped, e: Ty): Table {
    if e in tb.anon then tb.(claims := tb.claims[c := tb.anon[e]])
    else Table(tb.entries + [Some(Entry(name, e))], tb.index,
               tb.anon[e := |tb.entries|], tb.claims[c := |tb.entries|])
  }

  /** Filled entries, names, shared expressions and claims all survive. */
  ghost predicate Keeps(a: Table, b: Table) {
    && |a.entries| <= |b.entries|
    && (forall i :: 0 <= i < |a.entries| && a.entries[i].Some? ==> b.entries[i] == a.entries[i])
    && SubMap(a.index, b.index) && SubMap(a.anon, b.anon) && SubMap(a.claims, b.claims)
  }

  lemma MeaningKept(mods: Modules, a: Table, b: Table)
    requires Meaning(mods, a) && Keeps(a, b)
    requires forall k :: k in b.index ==>
               NamedOk(mods, b, k) || (k in a.index && a.index[k] < |a.entries| && b.entries[a.index[k]] == a.entries[a.index[k]])
    requires forall c :: c in b.claims ==> ClaimOk(mods, b, c) || c in a.claims
    ensures Meaning(mods, b)
  {
    forall k | k in b.index
      ensures NamedOk(mods, b, k)
    {
      if k in a.index {
        assert NamedOk(mods, a, k);
        if a.entries[a.index[k]].Some? {
          WrittenGrows(mods, a, b, k.mod, Def(mods, k), a.entries[a.index[k]].value.expr);
        }
      }
    }
    forall c | c in b.claims
      ensures ClaimOk(mods, b, c)
    {
      if c in a.claims {
        assert ClaimOk(mods, a, c);
        WrittenGrows(mods, a, b, c.mod, c.ty, a.entries[a.claims[c]].value.expr);
      }
    }
  }

  lemma OwnersKept(a: Table, b: Table, i: nat)
    requires Keeps(a, b)
    ensures Owned(a, i) ==> Owned(b, i)
    ensures Claimed(a, i) ==> Claimed(b, i)
  {
    if Owned(a, i) {
      var k :| k in a.index && a.index[k] == i;
      assert k in b.index && b.index[k] == i;
    }
    if Claimed(a, i) {
      var c :| c in a.claims && a.claims[c] == i;
      assert c in b.claims && b.claims[c] == i;
    }
  }

  lemma ReserveShape(tb: Table, k: Key)
    requires Shape(tb) && k !in tb.index
    ensures Shape(Reserve(tb, k)) && Keeps(tb, Reserve(tb, k))
  {
    var b := Reserve(tb, k);
    assert forall i :: 0 <= i < |tb.entries| ==> (Anonymous(b, i) <==> Anonymous(tb, i));
    forall i | 0 <= i < |b.entries|
      ensures (Anonymous(b, i) && Claimed(b, i)) || Owned(b, i)
    {
      OwnersKept(tb, b, i);
      if i == |tb.entries| {
        assert k in b.index && b.index[k] == i;
      } else {
        assert Owned(tb, i) || Anonymous(tb, i);
      }
    }
  }

  lemma ReserveKeepsInv(mods: Modules, tb: Table, k: Key)
    requires Inv(mods, tb)
    requires Defined(mods, k) && k !in tb.index
    ensures Inv(mods, Reserve(tb, k)) && Keeps(tb, Reserve(tb, k))
  {
    ReserveShape(tb, k);
    MeaningKept(mods, tb, Reserve(tb, k));
  }

  lemma FillShape(tb: Table, k: Key, e: Ty)
    requires Shape(tb)
    requires k in tb.index && tb.entries[tb.index[k]].None?
    ensures Shape(Fill(tb, k, e)) && Keeps(tb, Fill(tb, k, e))
  {
    var b := Fill(tb, k, e);
    assert forall i :: 0 <= i < |tb.entries| ==> (Anonymous(b, i) <==> Anonymous(tb, i));
    forall i | 0 <= i < |b.entries|
      ensures (Anonymous(b, i) && Claimed(b, i)) || Owned(b, i)
    {
      OwnersKept(tb, b, i);
      assert Owned(tb, i) || Anonymous(tb, i);
    }
  }

  lemma FillKeepsInv(mods: Modules, tb: Table, k: Key, e: Ty)
    requires Inv(mods, tb)
    requires k in tb.index && Defined(mods, k) && tb.entries[tb.index[k]].None?
    requires Written(mods, tb, k.mod, Def(mods, k), e)
    ensures Inv(mods, Fill(tb, k, e)) && Keeps(tb, Fill(tb, k, e))
  {
    FillShape(tb, k, e);
    var b := Fill(tb, k, e);
    WrittenGrows(mods, tb, b, k.mod, Def(mods, k), e);
    assert NamedOk(mods, b, k);
    MeaningKept(mods, tb, b);
  }

  lemma FoundShape(tb: Table, name: string, c: Scoped, e: Ty)
    requires Shape(tb) && c !in tb.claims && e in tb.anon
    ensures Shape(Share(tb, name, c, e)) && Grows(tb, Share(tb, name, c, e))
  {
    var b := Share(tb, name, c, e);
    assert forall i :: 0 <= i < |tb.entries| ==> (Anonymous(b, i) <==> Anonymous(tb, i));
    forall i | 0 <= i < |b.entries|
      ensures (Anonymous(b, i) && Claimed(b, i)) || Owned(b, i)
    {
      OwnersKept(tb, b, i);
      assert Owned(tb, i) || Anonymous(tb, i);
    }
  }

  lemma NewShape(tb: Table, name: string, c: Scoped, e: Ty)
    requires Shape(tb) && c !in tb.claims && e !in tb.anon
    ensures Shape(Share(tb, name, c, e)) && Grows(tb, Share(tb, name, c, e))
  {
    var b := Share(tb, name, c, e);
    assert forall i :: 0 <= i < |tb.entries| ==> (Anonymous(b, i) <==> Anonymous(tb, i));
    assert Anonymous(b, |tb.entries|);
    forall i | 0 <= i < |b.entries|
      ensures (Anonymous(b, i) && Claimed(b, i)) || Owned(b, i)
    {
      if i < |tb.entries| {
        OwnersKept(tb, b, i);
        assert Owned(tb, i) || Anonymous(tb, i);
      } else {
        assert c in b.claims && b.claims[c] == i;
      }
    }
  }

  /** Writing an unnamed type twice finds the entry it already has. */
  lemma ShareKeepsInv(mods: Modules, tb: Table, name: string, c: Scoped, e: Ty)
    requires Inv(mods, tb)
    requires !c.ty.Ref? && Written(mods, tb, c.mod, c.ty, e)
    ensures Inv(mods, Share(tb, name, c, e)) && Grows(tb, Share(tb, name, c, e))
  {
    var b := Share(tb, name, c, e);
    if c in tb.claims {
      assert ClaimOk(mods, tb, c);
      WrittenOnce(mods, tb, c.mod, c.ty, e, tb.entries[tb.claims[c]].value.expr);
      assert b == tb;
    } else {
      if e in tb.anon {
        FoundShape(tb, name, c, e);
      } else {
        NewShape(tb, name, c, e);
      }
      WrittenGrows(mods, tb, b, c.mod, c.ty, e);
      assert ClaimOk(mods, b, c);
      MeaningKept(mods, tb, b);
    }
  }

  // ---- nothing is emitted that the result does not need ---------------------------------

  function RefsOf(fs: seq<FieldRef>): set<nat> {
    set i | 0 <= i < |fs| :: fs[i].ty
  }

  /** The indices an entry names. */
  function Kids(e: Ty): set<nat> {
    match e
    case TyAlias(i) => {i}
    case TySeqOf(_, i) => {i}
    case TySeq(root, ext) => RefsOf(root) + (if ext.Some? then RefsOf(ext.value) else {})
    case TyChoice(root, ext) => RefsOf(root) + (if ext.Some? then RefsOf(ext.value) else {})
    case _ => {}
  }

  ghost predicate ReachesIn(entries: Entries, a: nat, b: nat, steps: nat)
    decreases steps
  {
    && a < |entries|
    && if steps == 0 then a == b
       else entries[a].Some? && exists c :: c in Kids(entries[a].value.expr) && ReachesIn(entries, c, b, steps - 1)
  }

  ghost predicate Reaches(entries: Entries, a: nat, b: nat) {
    exists steps: nat :: ReachesIn(entries, a, b, steps)
  }

  /** Every entry from `from` on is reached from one of `roots`. */
  ghost predicate Covers(entries: Entries, from: nat, roots: set<nat>) {
    forall i {:trigger Covered(entries, roots, i)} :: from <= i < |entries| ==> Covered(entries, roots, i)
  }

  ghost predicate Covered(entries: Entries, roots: set<nat>, i: nat) {
    exists r :: r in roots && Reaches(entries, r, i)
  }

  ghost predicate FilledKept(a: Entries, b: Entries) {
    |a| <= |b| && forall i :: 0 <= i < |a| && a[i].Some? ==> b[i] == a[i]
  }

  lemma {:induction false} ReachesKept(a: Entries, b: Entries, x: nat, y: nat, steps: nat)
    requires FilledKept(a, b) && ReachesIn(a, x, y, steps)
    ensures ReachesIn(b, x, y, steps)
    decreases steps
  {
    if steps > 0 {
      var c :| c in Kids(a[x].value.expr) && ReachesIn(a, c, y, steps - 1);
      ReachesKept(a, b, c, y, steps - 1);
    }
  }

  lemma CoversMore(a: Entries, b: Entries, from: nat, roots: set<nat>, more: set<nat>)
    requires FilledKept(a, b) && Covers(a, from, roots) && Covers(b, |a|, more)
    ensures Covers(b, from, roots + more)
  {
    forall i | from <= i < |b|
      ensures Covered(b, roots + more, i)
    {
      if i < |a| {
        assert Covered(a, roots, i);
        var r :| r in roots && Reaches(a, r, i);
        var steps: nat :| ReachesIn(a, r, i, steps);
        ReachesKept(a, b, r, i, steps);
      } else {
        assert Covered(b, more, i);
        var r :| r in more && Reaches(b, r, i);
      }
    }
  }

  /** What an entry's parts reach, the entry reaches. */
  lemma CoversUp(entries: Entries, from: nat, i: nat)
    requires i < |entries| && entries[i].Some?
    requires forall j {:trigger Covered(entries, Kids(entries[i].value.expr), j)} ::
               from <= j < |entries| && j != i ==> Covered(entries, Kids(entries[i].value.expr), j)
    ensures Covers(entries, from, {i})
  {
    forall j | from <= j < |entries|
      ensures Covered(entries, {i}, j)
    {
      if j == i {
        assert ReachesIn(entries, i, i, 0);
      } else {
        assert Covered(entries, Kids(entries[i].value.expr), j);
        var c :| c in Kids(entries[i].value.expr) && Reaches(entries, c, j);
        var steps: nat :| ReachesIn(entries, c, j, steps);
        assert ReachesIn(entries, i, j, steps + 1);
      }
    }
  }

  // ---- what emitting a type, a list of fields, or an expression achieves ----------------

  ghost predicate Emitted(mods: Modules, a: Table, b: Table, mod: string, t: Type, i: nat) {
    Inv(mods, b) && Grows(a, b) && Points(mods, b, mod, t, i) && Covers(b.entries, |a.entries|, {i})
  }

  ghost predicate Rendered(mods: Modules, a: Table, b: Table, mod: string, t: Type, e: Ty) {
    Inv(mods, b) && Grows(a, b) && Written(mods, b, mod, t, e) && Covers(b.entries, |a.entries|, Kids(e))
  }

  ghost predicate Listed(mods: Modules, a: Table, b: Table, mod: string, fs: seq<Field>, rs: seq<FieldRef>) {
    Inv(mods, b) && Grows(a, b) && PointsAll(mods, b, mod, fs, rs) && Covers(b.entries, |a.entries|, RefsOf(rs))
  }

  lemma PointsOneMore(mods: Modules, b: Table, c: Table, mod: string, fs: seq<Field>, rs: seq<FieldRef>, f: Field, i: nat)
    requires SubMap(b.index, c.index) && SubMap(b.claims, c.claims)
    requires PointsAll(mods, b, mod, fs, rs) && Points(mods, c, mod, f.ty, i)
    ensures PointsAll(mods, c, mod, fs + [f], rs + [FieldRef(f.name, i, f.optional)])
    ensures RefsOf(rs + [FieldRef(f.name, i, f.optional)]) == RefsOf(rs) + {i}
  {
    var more := rs + [FieldRef(f.name, i, f.optional)];
    assert more[|rs|].ty == i;
    assert forall j :: 0 <= j < |rs| ==> more[j] == rs[j];
  }

  lemma GrowsTrans(a: Table, b: Table, c: Table)
    requires Grows(a, b) && Grows(b, c)
    ensures Grows(a, c)
  {
  }

  lemma ListedOneMore(mods: Modules, a: Table, b: Table, c: Table, mod: string, fs: seq<Field>, n: nat, rs: seq<FieldRef>, i: nat)
    requires n < |fs| && Listed(mods, a, b, mod, fs[..n], rs)
    requires Emitted(mods, b, c, mod, fs[n].ty, i)
    ensures Inv(mods, c)
    ensures Listed(mods, a, c, mod, fs[..n + 1], rs + [FieldRef(fs[n].name, i, fs[n].optional)])
  {
    GrowsTrans(a, b, c);
    PointsOneMore(mods, b, c, mod, fs[..n], rs, fs[n], i);
    assert fs[..n] + [fs[n]] == fs[..n + 1];
    CoversMore(b.entries, c.entries, |a.entries|, RefsOf(rs), {i});
  }

  lemma EmittedAlready(mods: Modules, tb: Table, mod: string, name: string)
    requires Inv(mods, tb) && Resolve(mods, mod, name).Success? && Resolve(mods, mod, name).value in tb.index
    ensures Emitted(mods, tb, tb, mod, Ref(name, []), tb.index[Resolve(mods, mod, name).value])
  {
  }

  /** A definition written out into its reserved entry. */
  lemma FillEmits(mods: Modules, a: Table, b: Table, mod: string, k: Key, e: Ty)
    requires Inv(mods, a) && Resolve(mods, mod, k.name) == Success(k) && k !in a.index
    requires Rendered(mods, Reserve(a, k), b, k.mod, Def(mods, k), e)
    ensures k in b.index && b.index[k] == |a.entries| < |b.entries|
    ensures Emitted(mods, a, Fill(b, k, e), mod, Ref(k.name, []), |a.entries|) && Inv(mods, Fill(b, k, e))
  {
    var i := |a.entries|;
    assert Reserve(a, k).index[k] == i && Reserve(a, k).entries[i] == None;
    FillKeepsInv(mods, b, k, e);
    var c := Fill(b, k, e);
    forall j | i <= j < |c.entries| && j != i
      ensures Covered(c.entries, Kids(e), j)
    {
      assert Covered(b.entries, Kids(e), j);
      var r :| r in Kids(e) && Reaches(b.entries, r, j);
      var steps: nat :| ReachesIn(b.entries, r, j, steps);
      ReachesKept(b.entries, c.entries, r, j, steps);
    }
    CoversUp(c.entries, i, i);
  }

  /** An unnamed type written out and shared. */
  lemma ShareEmits(mods: Modules, a: Table, b: Table, name: string, h: Scoped, e: Ty)
    requires !h.ty.Ref? && Rendered(mods, a, b, h.mod, h.ty, e)
    ensures var c := Share(b, name, h, e);
            Emitted(mods, a, c, h.mod, h.ty, c.claims[h]) && Inv(mods, c)
  {
    ShareKeepsInv(mods, b, name, h, e);
    var c := Share(b, name, h, e);
    assert ClaimOk(mods, c, h);
    var i := c.claims[h];
    forall j | |a.entries| <= j < |c.entries| && j != i
      ensures Covered(c.entries, Kids(e), j)
    {
      assert Covered(b.entries, Kids(e), j);
      var r :| r in Kids(e) && Reaches(b.entries, r, j);
      var steps: nat :| ReachesIn(b.entries, r, j, steps);
      ReachesKept(b.entries, c.entries, r, j, steps);
    }
    CoversUp(c.entries, |a.entries|, i);
  }

  lemma EmittedHead(mods: Modules, a: Table, b: Table, mod: string, t: Type, h: Scoped, i: nat)
    requires t.Ref? && t.constraints != [] && Head(mods, mod, t) == Success(h)
    requires Emitted(mods, a, b, h.mod, h.ty, i)
    ensures Emitted(mods, a, b, mod, t, i)
  {
  }

  lemma RenderedAlias(mods: Modules, a: Table, b: Table, mod: string, t: Type, i: nat)
    requires t.Ref? && Emitted(mods, a, b, mod, t, i)
    ensures Rendered(mods, a, b, mod, t, TyAlias(i))
  {
  }

  lemma RenderedItem(mods: Modules, a: Table, b: Table, mod: string, t: Type, i: nat)
    requires t.SeqOf? && Emitted(mods, a, b, mod, t.item, i)
    ensures Rendered(mods, a, b, mod, t, TySeqOf(SizeOf(t.size), i))
  {
  }

  lemma RenderedLeaf(mods: Modules, a: Table, mod: string, t: Type)
    requires IsLeaf(t) && Inv(mods, a)
    ensures Rendered(mods, a, a, mod, t, LeafTy(t))
  {
  }

  lemma ListedNone(mods: Modules, a: Table, mod: string, fs: seq<Field>)
    requires Inv(mods, a)
    ensures Listed(mods, a, a, mod, fs[..0], [])
  {
  }

  lemma ListedAll(mods: Modules, a: Table, b: Table, mod: string, fs: seq<Field>, rs: seq<FieldRef>)
    requires Listed(mods, a, b, mod, fs[..|fs|], rs)
    ensures Listed(mods, a, b, mod, fs, rs)
  {
    assert fs[..|fs|] == fs;
  }

  lemma ComponentsPoint(mods: Modules, a: Table, b: Table, c: Table, mod: string, root: seq<Field>, rs: seq<FieldRef>,
                        ext: Extension, xs: Option<seq<FieldRef>>)
    requires Listed(mods, a, b, mod, root, rs)
    requires if ext.Open? then xs.Some? && Listed(mods, b, c, mod, ext.fields, xs.value) else xs.None? && c == b
    ensures Inv(mods, c) && Grows(a, c) && PointsAll(mods, c, mod, root, rs) && PointsExt(mods, c, mod, ext, xs)
    ensures Covers(c.entries, |a.entries|, RefsOf(rs) + (if xs.Some? then RefsOf(xs.value) else {}))
  {
    if ext.Open? {
      GrowsTrans(a, b, c);
      CoversMore(b.entries, c.entries, |a.entries|, RefsOf(rs), RefsOf(xs.value));
    } else {
      assert RefsOf(rs) + {} == RefsOf(rs);
    }
  }

  lemma RenderedComponents(mods: Modules, a: Table, b: Table, c: Table, mod: string, t: Type, rs: seq<FieldRef>,
                           xs: Option<seq<FieldRef>>)
    requires t.Seq? || t.Choice?
    requires Listed(mods, a, b, mod, t.root, rs)
    requires if t.ext.Open? then xs.Some? && Listed(mods, b, c, mod, t.ext.fields, xs.value) else xs.None? && c == b
    ensures Rendered(mods, a, c, mod, t, if t.Seq? then TySeq(rs, xs) else TyChoice(rs, xs))
  {
    ComponentsPoint(mods, a, b, c, mod, t.root, rs, t.ext, xs);
  }
}
