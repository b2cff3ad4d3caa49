/**
 The budget on JSON built in memory (src/utils/json_budget.rs): a stack of open values, walked
 without recursion and given up as soon as it cannot end well, against what it is to decide.
 */
module JsonBudget {
  import opened Wrappers
  import opened Composer

  // ---- what a value costs ---------------------------------------------------------------

  /** The bytes of a value by itself, and those of a text. */
  datatype Measure = Measure(cell: nat, len: string -> nat)

  const MEMBER_BYTES := 64

  datatype Size = Size(nodes: nat, bytes: nat) {
    function Plus(o: Size): Size {
      Size(nodes + o.nodes, bytes + o.bytes)
    }
  }

  const Nothing := Size(0, 0)

  function Sum(ns: seq<Size>): Size {
    if ns == [] then Nothing else Sum(ns[..|ns| - 1]).Plus(ns[|ns| - 1])
  }

  ghost function Total(m: map<string, Size>): Size
    decreases |m|
  {
    if m == map[] then Nothing
    else
      var k :| k in m;
      assert |m - {k}| < |m| by { Fewer(m, k); }
      m[k].Plus(Total(m - {k}))
  }

  lemma Fewer<T>(m: map<string, T>, k: string)
    requires k in m
    ensures |m - {k}| == |m| - 1
  {
    assert (m - {k}).Keys == m.Keys - {k};
    assert |(m - {k}).Keys| == |m - {k}|;
  }

  /** In whatever order the members come. */
  lemma {:induction false} TotalTakes(m: map<string, Size>, k: string)
    requires k in m
    ensures Total(m) == m[k].Plus(Total(m - {k}))
    decreases |m|
  {
    var j :| j in m && Total(m) == m[j].Plus(Total(m - {j}));
    if j != k {
      Fewer(m, j);
      Fewer(m, k);
      TotalTakes(m - {j}, k);
      TotalTakes(m - {k}, j);
      assert m - {j} - {k} == m - {k} - {j};
      calc {
        Total(m);
        m[j].Plus(Total(m - {j}));
        m[j].Plus(m[k].Plus(Total(m - {j} - {k})));
        m[k].Plus(m[j].Plus(Total(m - {k} - {j})));
        m[k].Plus(Total(m - {k}));
      }
    }
  }

  lemma SumSnoc(ns: seq<Size>, n: Size)
    ensures Sum(ns + [n]) == Sum(ns).Plus(n)
  {
    assert (ns + [n])[..|ns|] == ns;
  }

  lemma {:induction false} SumConcat(a: seq<Size>, b: seq<Size>)
    ensures Sum(a + b) == Sum(a).Plus(Sum(b))
    decreases |b|
  {
    if b == [] {
      assert a + b == a;
    } else {
      SumConcat(a, b[..|b| - 1]);
      SumSnoc(a + b[..|b| - 1], b[|b| - 1]);
      assert a + b[..|b| - 1] + [b[|b| - 1]] == a + b;
    }
  }

  ghost function Cost(ms: Measure, v: Json): (r: Size)
    ensures r.nodes > 0
    decreases v, 1
  {
    match v
    case Str(s) => Size(1, ms.cell + ms.len(s))
    case Arr(vs) => Size(1, ms.cell).Plus(Sum(Costs(ms, vs)))
    case Obj(_) => Size(1, ms.cell).Plus(Total(MemberCosts(ms, v)))
    case _ => Size(1, ms.cell)
  }

  ghost function Costs(ms: Measure, vs: seq<Json>): (r: seq<Size>)
    ensures |r| == |vs| && forall i :: 0 <= i < |vs| ==> r[i] == Cost(ms, vs[i])
    decreases vs, 0
  {
    seq(|vs|, i requires 0 <= i < |vs| => Cost(ms, vs[i]))
  }

  ghost function MemberCosts(ms: Measure, v: Json): map<string, Size>
    requires v.Obj?
    decreases v, 0
  {
    map k | k in v.members :: MemberCost(ms, k, Cost(ms, v.members[k]))
  }

  function MemberCost(ms: Measure, k: string, size: Size): Size {
    Size(size.nodes, MEMBER_BYTES + ms.len(k) + size.bytes)
  }

  /** No node is more than `room` levels down. */
  predicate Shallow(v: Json, room: int)
    decreases v
  {
    && room >= 0
    && match v
       case Arr(vs) => forall i :: 0 <= i < |vs| ==> Shallow(vs[i], room - 1)
       case Obj(m) => forall k :: k in m ==> Shallow(m[k], room - 1)
       case _ => true
  }

  predicate EachShallow(values: seq<Json>, depth: nat) {
    forall i :: 0 <= i < |values| ==> Shallow(values[i], depth)
  }

  datatype Limits = Limits(bytes: nat, nodes: nat, depth: nat)

  ghost predicate Within(ms: Measure, values: seq<Json>, max: Limits) {
    && Sum(Costs(ms, values)).nodes <= max.nodes
    && Sum(Costs(ms, values)).bytes <= max.bytes
    && EachShallow(values, max.depth)
  }

  // ---- the walk -------------------------------------------------------------------------

  datatype Open = Open(v: Json, depth: nat)

  function Values(pending: seq<Open>): (r: seq<Json>)
    ensures |r| == |pending| && forall i :: 0 <= i < |pending| ==> r[i] == pending[i].v
  {
    seq(|pending|, i requires 0 <= i < |pending| => pending[i].v)
  }

  /** What is still to come of the pending values. */
  ghost function Left(ms: Measure, pending: seq<Open>): Size {
    Sum(Costs(ms, Values(pending)))
  }

  predicate AllShallow(pending: seq<Open>, depth: nat) {
    forall i :: 0 <= i < |pending| ==> Shallow(pending[i].v, depth - pending[i].depth)
  }

  /** What was counted and what is pending decide what the values decide. */
  ghost predicate Accounted(ms: Measure, values: seq<Json>, max: Limits, pending: seq<Open>, size: Size) {
    && size.Plus(Left(ms, pending)) == Sum(Costs(ms, values))
    && (AllShallow(pending, max.depth) <==> EachShallow(values, max.depth))
  }

  lemma {:induction false} NodesAtLeast(ms: Measure, vs: seq<Json>)
    ensures Sum(Costs(ms, vs)).nodes >= |vs|
    decreases |vs|
  {
    if vs != [] {
      var n := |vs| - 1;
      NodesAtLeast(ms, vs[..n]);
      assert Costs(ms, vs)[..n] == Costs(ms, vs[..n]);
    }
  }

  lemma LeftConcat(ms: Measure, a: seq<Open>, b: seq<Open>)
    ensures Left(ms, a + b) == Left(ms, a).Plus(Left(ms, b))
  {
    hide Cost;
    assert Costs(ms, Values(a + b)) == Costs(ms, Values(a)) + Costs(ms, Values(b));
    SumConcat(Costs(ms, Values(a)), Costs(ms, Values(b)));
  }

  lemma LeftOne(ms: Measure, o: Open)
    ensures Left(ms, [o]) == Cost(ms, o.v)
  {
    hide Cost;
    var cs := Costs(ms, Values([o]));
    assert cs == [] + [Cost(ms, o.v)];
    SumSnoc([], Cost(ms, o.v));
  }

  predicate Over(size: Size, max: Limits) {
    size.nodes > max.nodes || size.bytes > max.bytes
  }

  function Opens(vs: seq<Json>, depth: nat): (r: seq<Open>)
    ensures |r| == |vs| && forall i :: 0 <= i < |vs| ==> r[i] == Open(vs[i], depth)
  {
    seq(|vs|, i requires 0 <= i < |vs| => Open(vs[i], depth))
  }

  lemma ShallowConcat(a: seq<Open>, b: seq<Open>, depth: nat)
    ensures AllShallow(a + b, depth) <==> AllShallow(a, depth) && AllShallow(b, depth)
  {
    hide Shallow;
    if AllShallow(a + b, depth) {
      assert forall i :: 0 <= i < |a| ==> a[i] == (a + b)[i];
      assert forall i :: 0 <= i < |b| ==> b[i] == (a + b)[|a| + i];
    }
  }

  lemma LeftAtLeast(ms: Measure, pending: seq<Open>)
    ensures Left(ms, pending).nodes >= |pending|
  {
    NodesAtLeast(ms, Values(pending));
  }

  lemma LeftOpens(ms: Measure, vs: seq<Json>, depth: nat)
    ensures Left(ms, Opens(vs, depth)) == Sum(Costs(ms, vs))
  {
    assert Values(Opens(vs, depth)) == vs;
  }

  /** The members of an object, each opened and its key counted. */
  method OpenMembers(ms: Measure, v: Json, depth: nat, max: Limits, pending: seq<Open>, size: Size)
    returns (ok: bool, pending': seq<Open>, size': Size)
    requires v.Obj? && size.nodes <= max.nodes
    ensures var all := size.Plus(Left(ms, pending)).Plus(Total(MemberCosts(ms, v)));
            && (!ok ==> Over(all, max))
            && (ok ==>
                  && size'.Plus(Left(ms, pending')) == all && size'.nodes == size.nodes
                  && (AllShallow(pending', max.depth) <==>
                        AllShallow(pending, max.depth) && forall k :: k in v.members ==> Shallow(v.members[k], max.depth - depth - 1)))
  {
    hide Shallow, Cost, Left;
    var keys := v.members.Keys;
    ghost var rest := MemberCosts(ms, v);
    ghost var all := size.Plus(Left(ms, pending)).Plus(Total(rest));
    pending', size' := pending, size;
    while keys != {}
      invariant keys <= v.members.Keys && rest.Keys == keys && size'.nodes == size.nodes
      invariant forall k :: k in keys ==> rest[k] == MemberCost(ms, k, Cost(ms, v.members[k]))
      invariant size'.Plus(Left(ms, pending')).Plus(Total(rest)) == all
      invariant AllShallow(pending', max.depth) <==>
                AllShallow(pending, max.depth) && forall k :: k in v.members && k !in keys ==> Shallow(v.members[k], max.depth - depth - 1)
      decreases keys
    {
      var k :| k in keys;
      var o := Open(v.members[k], depth + 1);
      TotalTakes(rest, k);
      LeftConcat(ms, pending', [o]);
      LeftOne(ms, o);
      ShallowConcat(pending', [o], max.depth);
      assert AllShallow([o], max.depth) <==> Shallow([o][0].v, max.depth - depth - 1);
      size' := Size(size'.nodes, size'.bytes + ms.len(k) + MEMBER_BYTES);
      if size'.bytes > max.bytes {
        return false, pending', size';
      }
      pending', keys, rest := pending' + [o], keys - {k}, rest - {k};
    }
    assert rest == map[];
    ok := true;
  }

  /** One value taken off the stack: counted, and its parts put on. */
  method Visit(ms: Measure, o: Open, max: Limits, pending: seq<Open>, size: Size) returns (ok: bool, pending': seq<Open>, size': Size)
    ensures Visited(ms, o, max, pending, size, ok, pending', size')
  {
    hide AllShallow, Left, Total, Costs, MemberCosts;
    LeftAtLeast(ms, pending);
    pending', size' := pending, Size(size.nodes + 1, size.bytes + ms.cell);
    if size'.nodes > max.nodes || o.depth > max.depth || size'.bytes > max.bytes {
      return false, pending', size';
    }
    var room := if size'.nodes + |pending| > max.nodes then 0 else max.nodes - (size'.nodes + |pending|);
    if o.v.Arr? {
      NodesAtLeast(ms, o.v.items);
      if |o.v.items| > room {
        return false, pending', size';
      }
      OpenedItems(ms, pending, o.v.items, o.depth + 1, max.depth);
      return true, pending + Opens(o.v.items, o.depth + 1), size';
    }
    if o.v.Obj? {
      MembersAtLeast(ms, o.v);
      if |o.v.members| > room {
        return false, pending', size';
      }
      ok, pending', size' := OpenMembers(ms, o.v, o.depth, max, pending, size');
      return ok && size'.bytes <= max.bytes, pending', size';
    }
    if o.v.Str? {
      size' := size'.(bytes := size'.bytes + ms.len(o.v.s));
    }
    ok := size'.bytes <= max.bytes;
  }

  /** Given up only if it cannot end well; otherwise nothing is lost, and one node more is counted. */
  ghost predicate Visited(ms: Measure, o: Open, max: Limits, pending: seq<Open>, size: Size, ok: bool, pending': seq<Open>, size': Size) {
    var all := size.Plus(Left(ms, pending)).Plus(Cost(ms, o.v));
    && (!ok ==> Over(all, max) || !Shallow(o.v, max.depth - o.depth))
    && (ok ==>
          && size'.Plus(Left(ms, pending')) == all && size'.nodes == size.nodes + 1 && !Over(size', max)
          && (AllShallow(pending', max.depth) <==> AllShallow(pending, max.depth) && Shallow(o.v, max.depth - o.depth)))
  }

  lemma OpenedItems(ms: Measure, pending: seq<Open>, vs: seq<Json>, depth: nat, max: nat)
    ensures Left(ms, pending + Opens(vs, depth)) == Left(ms, pending).Plus(Sum(Costs(ms, vs)))
    ensures AllShallow(pending + Opens(vs, depth), max) <==>
            AllShallow(pending, max) && forall i :: 0 <= i < |vs| ==> Shallow(vs[i], max - depth)
  {
    LeftConcat(ms, pending, Opens(vs, depth));
    LeftOpens(ms, vs, depth);
    ShallowConcat(pending, Opens(vs, depth), max);
    hide Shallow, Left, Costs;
  }

  lemma {:induction false} TotalAtLeast(m: map<string, Size>)
    requires forall k :: k in m ==> m[k].nodes > 0
    ensures Total(m).nodes >= |m|
    decreases |m|
  {
    if m != map[] {
      var k :| k in m;
      Fewer(m, k);
      TotalTakes(m, k);
      TotalAtLeast(m - {k});
    }
  }

  lemma MembersAtLeast(ms: Measure, v: Json)
    requires v.Obj?
    ensures Total(MemberCosts(ms, v)).nodes >= |v.members|
  {
    var m := MemberCosts(ms, v);
    assert m.Keys == v.members.Keys;
    assert |m| == |m.Keys| && |v.members| == |v.members.Keys|;
    TotalAtLeast(m);
  }

  /** The walk decides exactly whether the values are within the limits, all of them together. */
  method WithinBudget(ms: Measure, values: seq<Json>, max: Limits) returns (ok: bool)
    ensures ok <==> Within(ms, values, max)
  {
    hide Shallow, AllShallow, EachShallow, Left, Cost, Costs, Sum;
    NodesAtLeast(ms, values);
    var pending: seq<Open> := [];
    for i := 0 to |values|
      invariant pending == Opens(values[..i], 0)
    {
      if |pending| >= max.nodes {
        return false;
      }
      pending := pending + [Open(values[i], 0)];
    }
    assert values[..|values|] == values;
    var size := Nothing;
    Begun(ms, values, max);
    while pending != []
      invariant Accounted(ms, values, max, pending, size) && !Over(size, max)
      decreases Left(ms, pending).nodes
    {
      var o := pending[|pending| - 1];
      var others := pending[..|pending| - 1];
      TakenOff(ms, pending, max.depth);
      ok, pending, size := Visit(ms, o, max, others, size);
      if !ok {
        return;
      }
    }
    Finished(ms, max.depth);
    ok := true;
  }

  lemma Begun(ms: Measure, values: seq<Json>, max: Limits)
    ensures Accounted(ms, values, max, Opens(values, 0), Nothing)
  {
    LeftOpens(ms, values, 0);
    OpensShallow(values, max.depth);
    hide EachShallow, AllShallow, Left, Costs, Sum;
  }

  lemma OpensShallow(values: seq<Json>, depth: nat)
    ensures AllShallow(Opens(values, 0), depth) <==> EachShallow(values, depth)
  {
    hide Shallow;
    var os := Opens(values, 0);
    if AllShallow(os, depth) {
      forall i | 0 <= i < |values| ensures Shallow(values[i], depth) {
        assert Shallow(os[i].v, depth - os[i].depth);
      }
    }
  }

  lemma TakenOff(ms: Measure, pending: seq<Open>, depth: nat)
    requires pending != []
    ensures var (o, others) := (pending[|pending| - 1], pending[..|pending| - 1]);
            && Left(ms, pending) == Left(ms, others).Plus(Cost(ms, o.v))
            && (AllShallow(pending, depth) <==> AllShallow(others, depth) && Shallow(o.v, depth - o.depth))
  {
    var (o, others) := (pending[|pending| - 1], pending[..|pending| - 1]);
    assert pending == others + [o];
    LeftConcat(ms, others, [o]);
    LeftOne(ms, o);
    ShallowConcat(others, [o], depth);
    hide Shallow, Left;
    assert AllShallow([o], depth) <==> Shallow([o][0].v, depth - [o][0].depth);
  }

  lemma Finished(ms: Measure, depth: nat)
    ensures Left(ms, []) == Nothing && AllShallow([], depth)
  {
    assert Costs(ms, Values([])) == [];
  }

  // ---- merging --------------------------------------------------------------------------

  predicate Smaller(a: Size, b: Size) {
    a.nodes <= b.nodes && a.bytes <= b.bytes
  }

  lemma NoTotal()
    ensures Total(map[]) == Nothing
  {
  }

  lemma {:induction false} TotalUnion(m: map<string, Size>, n: map<string, Size>)
    ensures Smaller(Total(m + n), Total(m).Plus(Total(n)))
    decreases |m|
  {
    hide Total;
    NoTotal();
    if m == map[] {
      assert m + n == n;
    } else {
      var k :| k in m;
      Fewer(m, k);
      TotalTakes(m, k);
      TotalUnion(m - {k}, n);
      UnionMinus(m, n, k);
      if k !in n {
        TotalTakes(m + n, k);
      }
    }
  }

  lemma UnionMinus(m: map<string, Size>, n: map<string, Size>, k: string)
    requires k in m
    ensures if k in n then m + n == (m - {k}) + n else (m + n) - {k} == (m - {k}) + n
  {
  }

  lemma UnionCost(ms: Measure, b: map<string, Json>, o: map<string, Json>)
    ensures Smaller(Cost(ms, Obj(b + o)), Cost(ms, Obj(b)).Plus(Cost(ms, Obj(o))))
  {
    var (mb, mo, mu) := (MemberCosts(ms, Obj(b)), MemberCosts(ms, Obj(o)), MemberCosts(ms, Obj(b + o)));
    assert mu == mb + mo;
    TotalUnion(mb, mo);
    hide Total;
  }

  lemma UnionShallow(b: map<string, Json>, o: map<string, Json>, room: int)
    requires Shallow(Obj(b), room) && Shallow(Obj(o), room)
    ensures Shallow(Obj(b + o), room)
  {
    var u := Obj(b + o);
    forall k | k in u.members ensures Shallow(u.members[k], room - 1) {
      assert k in o ==> Shallow(Obj(o).members[k], room - 1);
      assert k in b ==> Shallow(Obj(b).members[k], room - 1);
    }
  }

  /** Two objects within the limits together are within them when merged. */
  lemma UnionWithin(ms: Measure, b: map<string, Json>, o: map<string, Json>, max: Limits)
    requires Within(ms, [Obj(b), Obj(o)], max)
    ensures Within(ms, [Obj(b + o)], max)
  {
    hide Shallow, Cost, Sum;
    UnionCost(ms, b, o);
    TwoCosts(ms, Obj(b), Obj(o));
    OneCost(ms, Obj(b + o));
    var vs := [Obj(b), Obj(o)];
    assert Shallow(vs[0], max.depth) && Shallow(vs[1], max.depth);
    UnionShallow(b, o, max.depth);
  }

  lemma OneCost(ms: Measure, v: Json)
    ensures Sum(Costs(ms, [v])) == Cost(ms, v)
  {
    hide Cost;
    assert Costs(ms, [v]) == [] + [Cost(ms, v)];
    SumSnoc([], Cost(ms, v));
  }

  lemma TwoCosts(ms: Measure, v: Json, w: Json)
    ensures Sum(Costs(ms, [v, w])) == Cost(ms, v).Plus(Cost(ms, w))
  {
    OneCost(ms, v);
    hide Cost;
    assert Costs(ms, [v, w]) == Costs(ms, [v]) + [Cost(ms, w)];
    SumSnoc(Costs(ms, [v]), Cost(ms, w));
  }

  lemma SecondWithin(ms: Measure, v: Json, w: Json, max: Limits)
    requires Within(ms, [v, w], max)
    ensures Within(ms, [w], max)
  {
    hide Shallow, Cost, Sum;
    TwoCosts(ms, v, w);
    OneCost(ms, w);
    var vs := [v, w];
    assert Shallow(vs[1], max.depth);
  }

  lemma OneWithin(ms: Measure, v: Json, max: Limits)
    ensures Within(ms, [v], max) <==> !Over(Cost(ms, v), max) && Shallow(v, max.depth)
  {
    hide Shallow, Cost, Sum;
    OneCost(ms, v);
    var vs := [v];
    assert Within(ms, vs, max) ==> Shallow(vs[0], max.depth);
  }

  lemma {:induction false} ShallowMore(v: Json, room: int, more: int)
    requires Shallow(v, room) && room <= more
    ensures Shallow(v, more)
    decreases v
  {
    match v
    case Arr(vs) =>
      forall i | 0 <= i < |vs| ensures Shallow(vs[i], more - 1) {
        ShallowMore(vs[i], room - 1, more - 1);
      }
    case Obj(m) =>
      forall k | k in m ensures Shallow(m[k], more - 1) {
        ShallowMore(m[k], room - 1, more - 1);
      }
    case _ =>
  }

  // ---- an object of any size ------------------------------------------------------------

  function Nulls(n: nat): seq<Json> {
    seq(n, i => Null)
  }

  lemma {:induction false} NullsCost(ms: Measure, n: nat)
    ensures Sum(Costs(ms, Nulls(n))) == Size(n, n * ms.cell)
    decreases n
  {
    if n > 0 {
      NullsCost(ms, n - 1);
      OneMoreNull(ms, n - 1);
      Times(n - 1, ms.cell);
      hide Sum, Costs, Nulls;
    }
  }

  lemma OneMoreNull(ms: Measure, n: nat)
    ensures Sum(Costs(ms, Nulls(n + 1))) == Sum(Costs(ms, Nulls(n))).Plus(Size(1, ms.cell))
  {
    var c := Cost(ms, Null);
    assert Costs(ms, Nulls(n + 1)) == Costs(ms, Nulls(n)) + [c];
    SumSnoc(Costs(ms, Nulls(n)), c);
    hide Sum, Costs, Nulls;
  }

  lemma Times(n: nat, c: nat)
    ensures (n + 1) * c == n * c + c
  {
  }

  /** One member, an array of `n` nulls: `n` nodes and two. */
  lemma WideCost(ms: Measure, k: string, n: nat)
    ensures var v := Obj(map[k := Arr(Nulls(n))]);
            Cost(ms, v) == Size(n + 2, (n + 2) * ms.cell + 64 + ms.len(k)) && Shallow(v, 2)
  {
    var v := Obj(map[k := Arr(Nulls(n))]);
    NullsCost(ms, n);
    var m := MemberCosts(ms, v);
    assert m == map[k := MemberCost(ms, k, Cost(ms, Arr(Nulls(n))))];
    TotalTakes(m, k);
    assert m - {k} == map[];
    assert (n + 2) * ms.cell == n * ms.cell + 2 * ms.cell;
  }

  /** And with a plain member more. */
  lemma WiderCost(ms: Measure, k: string, n: nat, j: string, b: bool)
    requires j != k
    ensures Cost(ms, Obj(map[k := Arr(Nulls(n)), j := Bool(b)])).nodes == n + 3
  {
    var v := Obj(map[k := Arr(Nulls(n)), j := Bool(b)]);
    NullsCost(ms, n);
    var m := MemberCosts(ms, v);
    assert m == map[k := MemberCost(ms, k, Cost(ms, Arr(Nulls(n)))), j := MemberCost(ms, j, Cost(ms, Bool(b)))];
    TotalTakes(m, k);
    TotalTakes(m - {k}, j);
    assert m - {k} - {j} == map[];
  }
}
