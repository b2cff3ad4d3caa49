/**
 Envelopes and replies of the composer (site/js/composer.js): which hand-written envelopes the
 form can show, and that nothing in them is lost.
 */
module ComposerEnvelope {
  import opened Wrappers
  import opened Composer
  import T = Thinking

  type Item = map<string, Json>

  // ---- comparing JSON -------------------------------------------------------------------

  /** `sameJson`: member by member, in any order. */
  predicate SameJson(l: Json, r: Json)
    decreases l
  {
    match (l, r)
    case (Arr(x), Arr(y)) => |x| == |y| && forall i :: 0 <= i < |x| ==> SameJson(x[i], y[i])
    case (Obj(x), Obj(y)) => |x.Keys| == |y.Keys| && forall k :: k in x ==> k in y && SameJson(x[k], y[k])
    case _ => l == r
  }

  lemma {:induction false} SameJsonIsEqual(l: Json, r: Json)
    ensures SameJson(l, r) <==> l == r
    decreases l
  {
    match (l, r)
    case (Arr(x), Arr(y)) =>
      forall i | 0 <= i < |x| && |x| == |y| ensures SameJson(x[i], y[i]) <==> x[i] == y[i] {
        SameJsonIsEqual(x[i], y[i]);
      }
    case (Obj(x), Obj(y)) =>
      forall k | k in x && k in y ensures SameJson(x[k], y[k]) <==> x[k] == y[k] {
        SameJsonIsEqual(x[k], y[k]);
      }
      if SameJson(l, r) {
        SameSize(x.Keys, y.Keys);
      }
    case _ =>
  }

  lemma SameSize<X>(a: set<X>, b: set<X>)
    requires a <= b && |a| == |b|
    ensures a == b
  {
    assert |b - a| == 0 by {
      assert a + (b - a) == b;
    }
  }

  // ---- envelopes ------------------------------------------------------------------------

  function Find(actions: seq<Action>, name: string): (r: Option<Action>)
    ensures r.Some? ==> r.value in actions && r.value.name == name
  {
    if actions == [] then None
    else if actions[0].name == name then Some(actions[0])
    else Find(actions[1..], name)
  }

  predicate IsTool(actions: seq<Action>, name: string) {
    Find(actions, name).Some? && Find(actions, name).value.tool
  }

  datatype Envelope = Envelope(actions: seq<Item>, tools: seq<Item>)

  function Filed(actions: seq<Action>, e: Envelope, name: string, v: Item): Envelope {
    if IsTool(actions, name) then e.(tools := e.tools + [v]) else e.(actions := e.actions + [v])
  }

  /** The envelope of some entries, or the first entry with a problem. */
  function EnvelopeOf(lib: Library, actions: seq<Action>, entries: seq<Entry>): Result<Envelope, Entry> {
    if entries == [] then Success(Envelope([], []))
    else
      var last := entries[|entries| - 1];
      match EnvelopeOf(lib, actions, entries[..|entries| - 1])
      case Failure(e) => Failure(e)
      case Success(env) =>
        match Built(lib, last)
        case Failure(_) => Failure(last)
        case Success(v) => Success(Filed(actions, env, last.name, v))
  }

  method BuildEnvelope(lib: Library, actions: seq<Action>, entries: seq<Entry>) returns (r: Result<Envelope, Entry>)
    ensures r == EnvelopeOf(lib, actions, entries)
  {
    hide Built, Find;
    var envelope := Envelope([], []);
    for i := 0 to |entries|
      invariant EnvelopeOf(lib, actions, entries[..i]) == Success(envelope)
    {
      var entry := entries[i];
      assert entries[..i + 1][..i] == entries[..i];
      var built, _ := BuildAction(lib, entry);
      if built.Failure? {
        FailsFrom(lib, actions, entries, i + 1, entry);
        return Failure(entry);
      }
      envelope := Filed(actions, envelope, entry.name, built.value);
    }
    assert entries[..|entries|] == entries;
    return Success(envelope);
  }

  lemma {:induction false} FailsFrom(lib: Library, actions: seq<Action>, entries: seq<Entry>, n: nat, e: Entry)
    requires n <= |entries| && EnvelopeOf(lib, actions, entries[..n]) == Failure(e)
    ensures EnvelopeOf(lib, actions, entries) == Failure(e)
    decreases |entries| - n
  {
    hide Built;
    if n < |entries| {
      assert entries[..n + 1][..n] == entries[..n];
      FailsFrom(lib, actions, entries, n + 1, e);
    } else {
      assert entries[..n] == entries;
    }
  }

  // ---- entries from an envelope ---------------------------------------------------------

  /** The entry that shows an item, if the form gives the item back. */
  function EntryOf(lib: Library, actions: seq<Action>, item: Json): Option<Entry> {
    if !item.Obj? || "type" !in item.members || !item.members["type"].Str? then None
    else
      var a := Find(actions, item.members["type"].s);
      if a == None then None
      else
        var e := NewEntry(lib, a.value, item.members);
        if Rebuilds(lib, e, item.members) then Some(e) else None
  }

  function Entries(lib: Library, actions: seq<Action>, items: seq<Json>): Option<seq<Entry>> {
    if items == [] then Some([])
    else
      match (Entries(lib, actions, items[..|items| - 1]), EntryOf(lib, actions, items[|items| - 1]))
      case (Some(es), Some(e)) => Some(es + [e])
      case _ => None
  }

  function ListAt(m: map<string, Json>, k: string): seq<Json> {
    if k in m && m[k].Arr? then m[k].items else []
  }

  /** An object with at most `actions` and `tools`, both lists. */
  predicate Shaped(parsed: Json) {
    parsed.Obj? && forall k :: k in parsed.members ==> (k == "actions" || k == "tools") && parsed.members[k].Arr?
  }

  function Objects(vs: seq<Item>): (r: seq<Json>)
    ensures |r| == |vs| && forall i :: 0 <= i < |vs| ==> r[i] == Obj(vs[i])
  {
    seq(|vs|, i requires 0 <= i < |vs| => Obj(vs[i]))
  }

  function FromEnvelope(lib: Library, actions: seq<Action>, parsed: Json): Option<seq<Entry>> {
    if !Shaped(parsed) then None
    else
      var tools := ListAt(parsed.members, "tools");
      var acts := ListAt(parsed.members, "actions");
      match Entries(lib, actions, tools + acts)
      case None => None
      case Some(es) =>
        match EnvelopeOf(lib, actions, es)
        case Failure(_) => None
        case Success(env) => if Objects(env.actions) == acts && Objects(env.tools) == tools then Some(es) else None
  }

  /** One turn of the loop over an envelope's items. */
  method EntryFor(lib: Library, actions: seq<Action>, item: Json) returns (r: Option<Entry>)
    ensures r == EntryOf(lib, actions, item)
  {
    hide Built, Find, NewEntry, SameJson, Voids;
    if !item.Obj? || "type" !in item.members || !item.members["type"].Str? {
      return None;
    }
    var action := Find(actions, item.members["type"].s);
    if action == None {
      return None;
    }
    var entry := NewEntry(lib, action.value, item.members);
    var built, voids := BuildAction(lib, entry);
    if built.Failure? {
      return None;
    }
    SameJsonIsEqual(Obj(built.value), item);
    return if voids == {} && SameJson(Obj(built.value), item) then Some(entry) else None;
  }

  method EntriesFromEnvelope(lib: Library, actions: seq<Action>, parsed: Json) returns (r: Option<seq<Entry>>)
    ensures r == FromEnvelope(lib, actions, parsed)
  {
    hide Built, Find, EnvelopeOf, EntryOf, SameJson;
    if !Shaped(parsed) {
      return None;
    }
    var tools, acts := ListAt(parsed.members, "tools"), ListAt(parsed.members, "actions");
    var items := tools + acts;
    var entries: seq<Entry> := [];
    for i := 0 to |items|
      invariant Entries(lib, actions, items[..i]) == Some(entries)
    {
      assert items[..i + 1][..i] == items[..i];
      var entry := EntryFor(lib, actions, items[i]);
      if entry == None {
        NoneFrom(lib, actions, items, i + 1);
        return None;
      }
      entries := entries + [entry.value];
    }
    assert items[..|items|] == items;
    var rebuilt := BuildEnvelope(lib, actions, entries);
    if rebuilt.Failure? {
      return None;
    }
    SameJsonIsEqual(Arr(Objects(rebuilt.value.actions)), Arr(acts));
    SameJsonIsEqual(Arr(Objects(rebuilt.value.tools)), Arr(tools));
    if !SameJson(Arr(Objects(rebuilt.value.actions)), Arr(acts)) || !SameJson(Arr(Objects(rebuilt.value.tools)), Arr(tools)) {
      return None;
    }
    return Some(entries);
  }

  lemma {:induction false} NoneFrom(lib: Library, actions: seq<Action>, items: seq<Json>, n: nat)
    requires n <= |items| && Entries(lib, actions, items[..n]) == None
    ensures Entries(lib, actions, items) == None
    decreases |items| - n
  {
    hide EntryOf;
    if n < |items| {
      assert items[..n + 1][..n] == items[..n];
      NoneFrom(lib, actions, items, n + 1);
    } else {
      assert items[..n] == items;
    }
  }

  // ---- which envelopes the form can show ------------------------------------------------

  predicate AllWellFormed(actions: seq<Action>) {
    forall i :: 0 <= i < |actions| ==> WellFormed(actions[i])
  }

  function Named(item: Json): Option<string> {
    if item.Obj? && "type" in item.members && item.members["type"].Str? then Some(item.members["type"].s) else None
  }

  /** The item names an offered action, and every declared value survives. */
  predicate ItemOk(lib: Library, actions: seq<Action>, item: Json) {
    && Named(item).Some?
    && Find(actions, Named(item).value).Some?
    && ParamsOk(lib, Find(actions, Named(item).value).value, item.members)
  }

  predicate ItemsOk(lib: Library, actions: seq<Action>, items: seq<Json>) {
    forall i :: 0 <= i < |items| ==> ItemOk(lib, actions, items[i])
  }

  /** Each item is filed where its action belongs. */
  predicate FiledAs(actions: seq<Action>, items: seq<Json>, tool: bool) {
    forall i :: 0 <= i < |items| ==> Named(items[i]).Some? && IsTool(actions, Named(items[i]).value) == tool
  }

  predicate EnvelopeOk(lib: Library, actions: seq<Action>, parsed: Json) {
    && Shaped(parsed)
    && ItemsOk(lib, actions, ListAt(parsed.members, "tools") + ListAt(parsed.members, "actions"))
    && FiledAs(actions, ListAt(parsed.members, "tools"), true)
    && FiledAs(actions, ListAt(parsed.members, "actions"), false)
  }

  lemma EntryOfIff(lib: Library, actions: seq<Action>, item: Json)
    requires Lawful(lib) && AllWellFormed(actions)
    ensures EntryOf(lib, actions, item).Some? <==> ItemOk(lib, actions, item)
    ensures EntryOf(lib, actions, item).Some? ==>
              var e := EntryOf(lib, actions, item).value;
              Built(lib, e) == Success(item.members) && Named(item) == Some(e.name)
  {
    hide Built, Lawful, Find, Voids;
    if Named(item).Some? && Find(actions, Named(item).value).Some? {
      var a := Find(actions, Named(item).value).value;
      assert WellFormed(a) by {
        var i :| 0 <= i < |actions| && actions[i] == a;
      }
      ItemRebuilt(lib, a, item.members);
    }
  }

  /** The items of one kind, in order. */
  function Pick(actions: seq<Action>, items: seq<Json>, tool: bool): seq<Json> {
    if items == [] then []
    else Pick(actions, items[..|items| - 1], tool) + PickOne(actions, items[|items| - 1], tool)
  }

  function PickOne(actions: seq<Action>, item: Json, tool: bool): seq<Json> {
    if Named(item).Some? && IsTool(actions, Named(item).value) == tool then [item] else []
  }

  lemma {:induction false} PickedAs(actions: seq<Action>, items: seq<Json>, tool: bool)
    ensures FiledAs(actions, Pick(actions, items, tool), tool)
    decreases |items|
  {
    hide IsTool, Named;
    if items != [] {
      PickedAs(actions, items[..|items| - 1], tool);
    }
  }

  lemma {:induction false} EntriesRebuild(lib: Library, actions: seq<Action>, items: seq<Json>)
    requires Lawful(lib) && AllWellFormed(actions)
    ensures Entries(lib, actions, items).Some? <==> ItemsOk(lib, actions, items)
    ensures Entries(lib, actions, items).Some? ==>
              var r := EnvelopeOf(lib, actions, Entries(lib, actions, items).value);
              && r.Success?
              && Objects(r.value.actions) == Pick(actions, items, false)
              && Objects(r.value.tools) == Pick(actions, items, true)
    decreases |items|
  {
    hide Built, Lawful, Find, EntryOf, ItemOk, EnvelopeOf, PickOne;
    if items == [] {
      NoEntries(lib, actions);
    } else {
      var n := |items| - 1;
      EntriesRebuild(lib, actions, items[..n]);
      EntryOfIff(lib, actions, items[n]);
      assert ItemsOk(lib, actions, items) <==> ItemsOk(lib, actions, items[..n]) && ItemOk(lib, actions, items[n]);
      if Entries(lib, actions, items).Some? {
        EntryFiled(lib, actions, Entries(lib, actions, items[..n]).value, EntryOf(lib, actions, items[n]).value, items[n]);
      }
    }
  }

  lemma NoEntries(lib: Library, actions: seq<Action>)
    ensures EnvelopeOf(lib, actions, []) == Success(Envelope([], []))
  {
  }

  /** One entry more files its item. */
  lemma EntryFiled(lib: Library, actions: seq<Action>, es: seq<Entry>, e: Entry, item: Json)
    requires EnvelopeOf(lib, actions, es).Success?
    requires item.Obj? && Built(lib, e) == Success(item.members) && Named(item) == Some(e.name)
    ensures var env := EnvelopeOf(lib, actions, es).value;
            var r := EnvelopeOf(lib, actions, es + [e]);
            && r.Success?
            && Objects(r.value.actions) == Objects(env.actions) + PickOne(actions, item, false)
            && Objects(r.value.tools) == Objects(env.tools) + PickOne(actions, item, true)
  {
    hide Built, IsTool;
    assert (es + [e])[..|es|] == es;
    var env := EnvelopeOf(lib, actions, es).value;
    ObjectsSnoc(env.actions, item.members);
    ObjectsSnoc(env.tools, item.members);
  }

  lemma ObjectsSnoc(vs: seq<Item>, v: Item)
    ensures Objects(vs + [v]) == Objects(vs) + [Obj(v)]
  {
  }

  lemma {:induction false} PickConcat(actions: seq<Action>, a: seq<Json>, b: seq<Json>, tool: bool)
    ensures Pick(actions, a + b, tool) == Pick(actions, a, tool) + Pick(actions, b, tool)
    decreases |b|
  {
    hide PickOne;
    if b == [] {
      assert a + b == a;
    } else {
      assert (a + b)[..|a + b| - 1] == a + b[..|b| - 1];
      PickConcat(actions, a, b[..|b| - 1], tool);
    }
  }

  lemma {:induction false} PickFiled(actions: seq<Action>, items: seq<Json>, tool: bool)
    requires FiledAs(actions, items, tool)
    ensures Pick(actions, items, tool) == items && Pick(actions, items, !tool) == []
    decreases |items|
  {
    hide IsTool, PickOne, Named, FiledAs;
    if items != [] {
      FiledLast(actions, items, tool);
      PickFiled(actions, items[..|items| - 1], tool);
      Snoc(items);
    }
  }

  lemma FiledLast(actions: seq<Action>, items: seq<Json>, tool: bool)
    requires FiledAs(actions, items, tool) && items != []
    ensures var last := items[|items| - 1];
            && FiledAs(actions, items[..|items| - 1], tool)
            && PickOne(actions, last, tool) == [last] && PickOne(actions, last, !tool) == []
  {
    hide IsTool, Named;
  }

  lemma Snoc<X>(s: seq<X>)
    requires s != []
    ensures s == s[..|s| - 1] + [s[|s| - 1]]
  {
  }

  lemma PartitionIff(actions: seq<Action>, tools: seq<Json>, acts: seq<Json>)
    ensures Pick(actions, tools + acts, true) == tools && Pick(actions, tools + acts, false) == acts
            <==> FiledAs(actions, tools, true) && FiledAs(actions, acts, false)
  {
    hide IsTool;
    PickConcat(actions, tools, acts, true);
    PickConcat(actions, tools, acts, false);
    PickedAs(actions, tools + acts, true);
    PickedAs(actions, tools + acts, false);
    if FiledAs(actions, tools, true) && FiledAs(actions, acts, false) {
      PickFiled(actions, tools, true);
      PickFiled(actions, acts, false);
    }
  }

  /**
   The form shows an envelope exactly when every item names an offered action filed under the
   right key and every declared value survives its field; and then it rebuilds the same actions
   and tools, in order.
   */
  lemma ShowsExactly(lib: Library, actions: seq<Action>, parsed: Json)
    requires Lawful(lib) && AllWellFormed(actions)
    ensures FromEnvelope(lib, actions, parsed).Some? <==> EnvelopeOk(lib, actions, parsed)
    ensures FromEnvelope(lib, actions, parsed).Some? ==>
              var r := EnvelopeOf(lib, actions, FromEnvelope(lib, actions, parsed).value);
              && r.Success?
              && Objects(r.value.actions) == ListAt(parsed.members, "actions")
              && Objects(r.value.tools) == ListAt(parsed.members, "tools")
  {
    hide Lawful, Entries, EnvelopeOf, Pick, ItemsOk, FiledAs;
    if Shaped(parsed) {
      var tools, acts := ListAt(parsed.members, "tools"), ListAt(parsed.members, "actions");
      EntriesRebuild(lib, actions, tools + acts);
      PartitionIff(actions, tools, acts);
    }
  }

  // ---- the reply ------------------------------------------------------------------------

  datatype Request = Request(chat: bool, tools: set<string>)

  datatype Call = Call(name: Json, arguments: Item)

  datatype Reply = Content(text: string) | ToolCalls(calls: seq<Call>)

  function EnvelopeJson(e: Envelope): Json {
    var acts := map["actions" := Arr(Objects(e.actions))];
    Obj(if e.tools == [] then acts else acts["tools" := Arr(Objects(e.tools))])
  }

  function CallOf(v: Item): Call {
    Call(if "type" in v then v["type"] else Null, v - {"type"})
  }

  function Calls(vs: seq<Item>): (r: seq<Call>)
    ensures |r| == |vs| && forall i :: 0 <= i < |vs| ==> r[i] == CallOf(vs[i])
  {
    seq(|vs|, i requires 0 <= i < |vs| => CallOf(vs[i]))
  }

  predicate AllNative(req: Request, entries: seq<Entry>) {
    forall i :: 0 <= i < |entries| ==> entries[i].name in req.tools
  }

  function BuildReply(lib: Library, req: Request, actions: seq<Action>, entries: seq<Entry>): Result<Reply, Entry> {
    match EnvelopeOf(lib, actions, entries)
    case Failure(e) => Failure(e)
    case Success(env) =>
      if req.chat && entries != [] && AllNative(req, entries) then Success(ToolCalls(Calls(env.tools + env.actions)))
      else Success(Content(lib.showJson(EnvelopeJson(env))))
  }

  function CallJson(c: Call): Json {
    Obj(map["name" := c.name, "arguments" := Obj(c.arguments)])
  }

  function CallJsons(calls: seq<Call>): (r: seq<Json>)
    ensures |r| == |calls| && forall i :: 0 <= i < |calls| ==> r[i] == CallJson(calls[i])
  {
    seq(|calls|, i requires 0 <= i < |calls| => CallJson(calls[i]))
  }

  function ReplyJson(r: Reply): Json {
    match r
    case Content(text) => Obj(map["content" := Str(text)])
    case ToolCalls(calls) => Obj(map["content" := Null, "tool_calls" := Arr(CallJsons(calls))])
  }

  /** What NetGet makes of a call: its name as the type, its arguments over that. */
  function ItemOf(call: Json): Option<Json> {
    if call.Obj? && "name" in call.members && call.members["name"].Str? then
      var args := Get(call.members, "arguments");
      Some(Obj(map["type" := call.members["name"]] + (if args.Some? && args.value.Obj? then args.value.members else map[])))
    else None
  }

  function ItemsOf(calls: seq<Json>): Option<seq<Json>> {
    if calls == [] then Some([])
    else
      match (ItemsOf(calls[..|calls| - 1]), ItemOf(calls[|calls| - 1]))
      case (Some(items), Some(item)) => Some(items + [item])
      case _ => None
  }

  /**
   What NetGet takes out of a reply. Either form crosses from the page as JSON text; then it is
   the items of its calls, or those of the envelope in its content.
   */
  function Taken(lib: Library, r: Reply): Option<seq<Json>> {
    match lib.readJson(T.Trim(lib.showJson(ReplyJson(r))))
    case Some(Obj(m)) =>
      if ListAt(m, "tool_calls") != [] then ItemsOf(ListAt(m, "tool_calls"))
      else if "content" in m && m["content"].Str? then
        match lib.readJson(T.Trim(m["content"].s))
        case Some(Obj(e)) => Some(ListAt(e, "tools") + ListAt(e, "actions"))
        case _ => None
      else None
    case _ => None
  }

  /** The items hold no infinity. */
  predicate Carried(items: seq<Json>) {
    forall i :: 0 <= i < |items| ==> Writable(items[i])
  }

  function NulledAll(items: seq<Json>): (r: seq<Json>)
    ensures |r| == |items| && forall i :: 0 <= i < |items| ==> r[i] == Nulled(items[i])
  {
    seq(|items|, i requires 0 <= i < |items| => Nulled(items[i]))
  }

  lemma NulledAllIff(items: seq<Json>)
    ensures NulledAll(items) == items <==> Carried(items)
  {
    forall i | 0 <= i < |items| ensures Nulled(items[i]) == items[i] <==> Writable(items[i]) {
      NulledIff(items[i]);
    }
  }

  lemma NulledConcat(a: seq<Json>, b: seq<Json>)
    ensures NulledAll(a + b) == NulledAll(a) + NulledAll(b)
  {
    hide Nulled;
  }

  /** What is read back from an envelope's text. */
  lemma EnvelopeRead(e: Envelope)
    ensures var r := Nulled(EnvelopeJson(e));
            && r.Obj?
            && ListAt(r.members, "tools") == NulledAll(Objects(e.tools))
            && ListAt(r.members, "actions") == NulledAll(Objects(e.actions))
  {
    var ts, acts := Objects(e.tools), Objects(e.actions);
    var m := EnvelopeJson(e).members;
    assert Nulled(Arr(acts)) == Arr(NulledAll(acts)) && Nulled(Arr(ts)) == Arr(NulledAll(ts));
    assert m["actions"] == Arr(acts) && (e.tools != [] ==> m["tools"] == Arr(ts));
    assert e.tools == [] ==> "tools" !in m && ts == [];
  }

  /** A call that has crossed stands for its item, with what text makes of it. */
  lemma CallCarries(v: Item)
    requires "type" in v && v["type"].Str?
    ensures ItemOf(Nulled(CallJson(CallOf(v)))) == Some(Nulled(Obj(v)))
  {
    var args := v - {"type"};
    var read := Nulled(CallJson(CallOf(v))).members;
    assert Nulled(v["type"]) == v["type"];
    assert read["name"] == v["type"] && read["arguments"] == Nulled(Obj(args));
    assert map["type" := v["type"]] + Nulled(Obj(args)).members == Nulled(Obj(v)).members;
  }

  predicate AllNamed(items: seq<Json>) {
    forall i :: 0 <= i < |items| ==> Named(items[i]).Some?
  }

  lemma {:induction false} ItemsCarry(vs: seq<Item>)
    requires AllNamed(Objects(vs))
    ensures ItemsOf(NulledAll(CallJsons(Calls(vs)))) == Some(NulledAll(Objects(vs)))
    decreases |vs|
  {
    if vs != [] {
      var n := |vs| - 1;
      LastCall(vs);
      ItemsCarry(vs[..n]);
      hide Nulled, ItemOf, NulledAll, CallJsons, Calls, Objects, Named;
      var calls := NulledAll(CallJsons(Calls(vs[..n])));
      assert (calls + [Nulled(CallJson(CallOf(vs[n])))])[..|calls|] == calls;
    }
  }

  lemma LastCall(vs: seq<Item>)
    requires AllNamed(Objects(vs)) && vs != []
    ensures var n := |vs| - 1;
            && AllNamed(Objects(vs[..n]))
            && NulledAll(CallJsons(Calls(vs))) == NulledAll(CallJsons(Calls(vs[..n]))) + [Nulled(CallJson(CallOf(vs[n])))]
            && NulledAll(Objects(vs)) == NulledAll(Objects(vs[..n])) + [Nulled(Obj(vs[n]))]
            && ItemOf(Nulled(CallJson(CallOf(vs[n])))) == Some(Nulled(Obj(vs[n])))
  {
    var n := |vs| - 1;
    assert Named(Objects(vs)[n]).Some?;
    CallCarries(vs[n]);
    hide Nulled, ItemOf, CallJson, CallOf;
    assert Objects(vs[..n]) == Objects(vs)[..n];
  }

  /** What is read back from a reply's text. */
  lemma ReplyRead(r: Reply)
    ensures var m := Nulled(ReplyJson(r));
            && m.Obj? && "content" in m.members
            && (r.Content? ==> m.members["content"] == Str(r.text) && ListAt(m.members, "tool_calls") == [])
            && (r.ToolCalls? ==> ListAt(m.members, "tool_calls") == NulledAll(CallJsons(r.calls)))
  {
    if r.ToolCalls? {
      var arr := Arr(CallJsons(r.calls));
      assert Nulled(arr) == Arr(NulledAll(CallJsons(r.calls)));
      assert ReplyJson(r).members["tool_calls"] == arr;
    }
  }

  lemma CallsCarry(lib: Library, vs: seq<Item>)
    requires Lawful(lib) && AllNamed(Objects(vs)) && vs != []
    ensures Taken(lib, ToolCalls(Calls(vs))) == Some(NulledAll(Objects(vs)))
  {
    var r := ToolCalls(Calls(vs));
    ReplyRead(r);
    ReadsBack(lib, ReplyJson(r));
    ItemsCarry(vs);
    hide Lawful, Nulled, ReplyJson, ListAt, ItemsOf, NulledAll, T.Trim;
    assert |NulledAll(CallJsons(r.calls))| == |vs|;
  }

  lemma TextCarries(lib: Library, env: Envelope)
    requires Lawful(lib)
    ensures Taken(lib, Content(lib.showJson(EnvelopeJson(env)))) == Some(NulledAll(Objects(env.tools) + Objects(env.actions)))
  {
    var r := Content(lib.showJson(EnvelopeJson(env)));
    ReplyRead(r);
    ReadsBack(lib, ReplyJson(r));
    EnvelopeRead(env);
    NulledConcat(Objects(env.tools), Objects(env.actions));
    ReadsBack(lib, EnvelopeJson(env));
    hide Lawful, EnvelopeJson, Nulled, ListAt, Objects, NulledAll, ReplyJson, T.Trim;
  }

  lemma ObjectsConcat(a: seq<Item>, b: seq<Item>)
    ensures Objects(a + b) == Objects(a) + Objects(b)
  {
  }

  lemma OkNames(lib: Library, actions: seq<Action>, parsed: Json)
    requires EnvelopeOk(lib, actions, parsed)
    ensures AllNamed(ListAt(parsed.members, "tools") + ListAt(parsed.members, "actions"))
  {
    hide ParamsOk, Find, ListAt, FiledAs;
    var items := ListAt(parsed.members, "tools") + ListAt(parsed.members, "actions");
    forall i | 0 <= i < |items| ensures Named(items[i]).Some? {
      assert ItemOk(lib, actions, items[i]);
    }
  }

  /**
   The reply to an envelope the form has shown carries all of its items, in order, in either
   form with every infinity turned into `null`: so unchanged exactly when there is none.
   */
  lemma ReplyLosesNone(lib: Library, req: Request, actions: seq<Action>, parsed: Json)
    requires Lawful(lib) && AllWellFormed(actions) && EnvelopeOk(lib, actions, parsed)
    ensures FromEnvelope(lib, actions, parsed).Some?
    ensures var items := ListAt(parsed.members, "tools") + ListAt(parsed.members, "actions");
            var reply := BuildReply(lib, req, actions, FromEnvelope(lib, actions, parsed).value);
            && reply.Success?
            && Taken(lib, reply.value) == Some(NulledAll(items))
            && (Taken(lib, reply.value) == Some(items) <==> Carried(items))
  {
    ShowsExactly(lib, actions, parsed);
    OkNames(lib, actions, parsed);
    EntriesFiled(lib, actions, parsed);
    var items := ListAt(parsed.members, "tools") + ListAt(parsed.members, "actions");
    NulledAllIff(items);
    hide Lawful, AllWellFormed, EnvelopeOk, EnvelopeOf, FromEnvelope, EnvelopeJson, Carried, Taken, Objects, ListAt, NulledAll, T.Trim;
    var entries := FromEnvelope(lib, actions, parsed).value;
    var env := EnvelopeOf(lib, actions, entries).value;
    ObjectsConcat(env.tools, env.actions);
    if req.chat && entries != [] && AllNative(req, entries) {
      CallsCarry(lib, env.tools + env.actions);
    } else {
      TextCarries(lib, env);
    }
  }

  /** Each entry has its item's name. */
  lemma {:induction false} EntriesNamed(lib: Library, actions: seq<Action>, items: seq<Json>)
    requires Entries(lib, actions, items).Some?
    ensures var es := Entries(lib, actions, items).value;
            |es| == |items| && forall i :: 0 <= i < |items| ==> Named(items[i]) == Some(es[i].name)
    decreases |items|
  {
    hide Rebuilds, Find;
    if items != [] {
      EntriesNamed(lib, actions, items[..|items| - 1]);
    }
  }

  /** The reply is tool calls exactly if the request is a chat and every item is one of the tools it offers. */
  lemma NativeIff(lib: Library, req: Request, actions: seq<Action>, parsed: Json)
    requires Lawful(lib) && AllWellFormed(actions) && EnvelopeOk(lib, actions, parsed)
    ensures FromEnvelope(lib, actions, parsed).Some?
    ensures var items := ListAt(parsed.members, "tools") + ListAt(parsed.members, "actions");
            var reply := BuildReply(lib, req, actions, FromEnvelope(lib, actions, parsed).value);
            && reply.Success?
            && (reply.value.ToolCalls? <==>
                  req.chat && items != [] && forall i :: 0 <= i < |items| ==> Named(items[i]).Some? && Named(items[i]).value in req.tools)
  {
    hide FromEnvelope, BuildReply, EnvelopeOk, Lawful, AllWellFormed, ListAt, Taken, NulledAll, Carried, Named;
    ReplyLosesNone(lib, req, actions, parsed);
    ShownNamed(lib, actions, parsed);
    NativeForm(lib, req, actions, FromEnvelope(lib, actions, parsed).value);
  }

  lemma ShownNamed(lib: Library, actions: seq<Action>, parsed: Json)
    requires FromEnvelope(lib, actions, parsed).Some?
    ensures var es := FromEnvelope(lib, actions, parsed).value;
            && parsed.Obj?
            && var items := ListAt(parsed.members, "tools") + ListAt(parsed.members, "actions");
            |es| == |items| && forall i :: 0 <= i < |items| ==> Named(items[i]) == Some(es[i].name)
  {
    var items := ListAt(parsed.members, "tools") + ListAt(parsed.members, "actions");
    hide Entries, EnvelopeOf, ListAt, Named;
    EntriesNamed(lib, actions, items);
  }

  lemma NativeForm(lib: Library, req: Request, actions: seq<Action>, entries: seq<Entry>)
    ensures var reply := BuildReply(lib, req, actions, entries);
            reply.Success? ==>
              (reply.value.ToolCalls? <==> req.chat && entries != [] && forall i :: 0 <= i < |entries| ==> entries[i].name in req.tools)
  {
    hide EnvelopeOf, EnvelopeJson, Calls;
  }

  lemma {:induction false} FiledCount(lib: Library, actions: seq<Action>, entries: seq<Entry>)
    ensures var r := EnvelopeOf(lib, actions, entries);
            r.Success? ==> |r.value.tools| + |r.value.actions| == |entries|
    decreases |entries|
  {
    hide Built, IsTool;
    if entries != [] {
      FiledCount(lib, actions, entries[..|entries| - 1]);
    }
  }

  lemma EntriesFiled(lib: Library, actions: seq<Action>, parsed: Json)
    ensures var r := FromEnvelope(lib, actions, parsed);
            r.Some? && r.value != [] && EnvelopeOf(lib, actions, r.value).Success? ==>
              var env := EnvelopeOf(lib, actions, r.value).value; env.tools + env.actions != []
  {
    if FromEnvelope(lib, actions, parsed).Some? {
      FiledCount(lib, actions, FromEnvelope(lib, actions, parsed).value);
    }
    hide FromEnvelope, EnvelopeOf;
  }

  /** An action without parameters, and an item of it with an infinity under a key of its own. */
  function Bare(name: string): seq<Action> {
    [Action(name, false, [], map[])]
  }

  function Endless(name: string, key: string, negative: bool): Item {
    map["type" := Str(name), key := Num(Infinite(negative))]
  }

  function Only(item: Item): Json {
    Obj(map["actions" := Arr([Obj(item)])])
  }

  lemma OnlyLists(item: Item)
    ensures Shaped(Only(item)) && ListAt(Only(item).members, "tools") == [] && ListAt(Only(item).members, "actions") == [Obj(item)]
  {
  }

  lemma EndlessOk(lib: Library, name: string, key: string, negative: bool)
    requires name != "" && key != "type"
    ensures AllWellFormed(Bare(name)) && EnvelopeOk(lib, Bare(name), Only(Endless(name, key, negative)))
  {
    var (actions, item) := (Bare(name), Obj(Endless(name, key, negative)));
    OnlyLists(Endless(name, key, negative));
    assert [] + [item] == [item];
    assert Find(actions, name) == Some(actions[0]);
    assert Named(item) == Some(name) && ItemOk(lib, actions, item);
    hide Find, ListAt, Only, Shaped, Named;
  }

  lemma EndlessNulled(name: string, key: string, negative: bool)
    requires key != "type"
    ensures var item := Endless(name, key, negative);
            NulledAll([Obj(item)]) == [Obj(item[key := Null])] && !Carried([Obj(item)])
  {
    var item := Endless(name, key, negative);
    assert Nulled(Obj(item)).members == item[key := Null];
    NulledAllIff([Obj(item)]);
    assert item[key := Null][key] != item[key];
  }

  /** So the form shows an item with an infinity where no parameter is declared, and the reply loses it: as text and as a native call. */
  lemma InfinityIsLost(lib: Library, name: string, key: string, negative: bool, chat: bool)
    requires Lawful(lib) && name != "" && key != "type"
    ensures var (actions, item) := (Bare(name), Endless(name, key, negative));
            && EnvelopeOk(lib, actions, Only(item)) && !Carried([Obj(item)])
            && FromEnvelope(lib, actions, Only(item)).Some?
            && var reply := BuildReply(lib, Request(chat, {name}), actions, FromEnvelope(lib, actions, Only(item)).value);
               && reply.Success? && (reply.value.ToolCalls? <==> chat)
               && Taken(lib, reply.value) == Some([Obj(item[key := Null])])
  {
    var item := Endless(name, key, negative);
    EndlessOk(lib, name, key, negative);
    EndlessNulled(name, key, negative);
    OnlyLists(item);
    ReplyLosesNone(lib, Request(chat, {name}), Bare(name), Only(item));
    OnlyEntry(lib, name, item);
    assert [] + [Obj(item)] == [Obj(item)];
    hide Lawful, FromEnvelope, EnvelopeOf, EnvelopeOk, Taken, EnvelopeJson, AllWellFormed, ListAt, Only, Bare, NulledAll, Carried;
  }

  /** One item makes one entry, with its name. */
  lemma OnlyEntry(lib: Library, name: string, item: Item)
    requires FromEnvelope(lib, Bare(name), Only(item)).Some?
    ensures var es := FromEnvelope(lib, Bare(name), Only(item)).value; |es| == 1 && es[0].name == name
  {
    OnlyLists(item);
    var items := [Obj(item)];
    assert [] + items == items && items[..0] == [];
    assert Entries(lib, Bare(name), items[..0]) == Some([]);
    hide Built, NewEntry, Voids, ListAt, Only;
    var e := EntryOf(lib, Bare(name), items[0]);
    assert Entries(lib, Bare(name), items) == Some([] + [e.value]);
    EntryNamed(lib, name, items[0]);
  }

  lemma EntryNamed(lib: Library, name: string, item: Json)
    requires EntryOf(lib, Bare(name), item).Some?
    ensures EntryOf(lib, Bare(name), item).value.name == name
  {
    hide Built, Voids;
  }
}
