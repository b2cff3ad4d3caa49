/**
 The action composer's pure half (site/js/composer.js): a form made from an action, the action
 made from the form, and when a hand-written envelope can be shown in the form.
 */
module Composer {
  import opened Wrappers
  import T = Thinking

  // ---- JSON -----------------------------------------------------------------------------

  /** A number: an integer, another finite number (named by its bits), or an infinity. */
  datatype Number = Whole(i: int) | Fraction(bits: nat) | Infinite(negative: bool)

  datatype Json = Null | Bool(b: bool) | Num(n: Number) | Str(s: string) | Arr(items: seq<Json>) | Obj(members: map<string, Json>)

  /** JSON text has no infinities. */
  predicate Writable(v: Json) {
    match v
    case Num(n) => !n.Infinite?
    case Arr(vs) => forall i :: 0 <= i < |vs| ==> Writable(vs[i])
    case Obj(m) => forall k :: k in m ==> Writable(m[k])
    case _ => true
  }

  /** What is read back from JSON text: `stringify` writes an infinity as `null`. */
  function Nulled(v: Json): Json {
    match v
    case Num(n) => if n.Infinite? then Null else v
    case Arr(vs) => Arr(seq(|vs|, i requires 0 <= i < |vs| => Nulled(vs[i])))
    case Obj(m) => Obj(map k | k in m :: Nulled(m[k]))
    case _ => v
  }

  /** Text carries a value unchanged exactly when it holds no infinity. */
  lemma {:induction false} NulledIff(v: Json)
    ensures Nulled(v) == v <==> Writable(v)
    decreases v
  {
    match v
    case Arr(vs) =>
      forall i | 0 <= i < |vs| ensures Nulled(vs[i]) == vs[i] <==> Writable(vs[i]) {
        NulledIff(vs[i]);
      }
      var ws := seq(|vs|, i requires 0 <= i < |vs| => Nulled(vs[i]));
      if Nulled(v) == v {
        assert forall i :: 0 <= i < |vs| ==> ws[i] == vs[i];
      }
      if Writable(v) {
        assert ws == vs;
      }
    case Obj(m) =>
      forall k | k in m ensures Nulled(m[k]) == m[k] <==> Writable(m[k]) {
        NulledIff(m[k]);
      }
      var w := map k | k in m :: Nulled(m[k]);
      if Nulled(v) == v {
        assert forall k :: k in m ==> w[k] == m[k];
      }
      if Writable(v) {
        assert w == m;
      }
    case _ =>
  }

  /** What every object has under a name it was not given: a function, or an object; and as text. */
  datatype Inheritance = Inheritance(isObject: bool, text: string)

  /** What the language does with numbers and JSON: `String`, `Number`, `stringify`, `parse`; and the names all objects have. */
  datatype Library = Library(
    showNumber: Number -> string, readNumber: string -> Option<Number>,
    showJson: Json -> string, readJson: string -> Option<Json>,
    prototype: string -> Option<Inheritance>)

  const NULL_TEXT: string := "null"

  ghost predicate Lawful(lib: Library) {
    && (forall n :: T.Trim(lib.showNumber(n)) != "" && lib.readNumber(T.Trim(lib.showNumber(n))) == Some(n))
    && lib.readNumber(T.Trim(NULL_TEXT)) == None
    && (forall v :: T.Trim(lib.showJson(v)) != "" && lib.readJson(T.Trim(lib.showJson(v))) == Some(Nulled(v)))
    && (forall k :: lib.prototype(k).Some? ==> lib.prototype(k).value.text != "")
  }

  lemma ReadsBack(lib: Library, v: Json)
    requires Lawful(lib)
    ensures lib.readJson(T.Trim(lib.showJson(v))) == Some(Nulled(v))
  {
    hide Nulled, T.Trim;
  }

  // ---- line ends ------------------------------------------------------------------------

  /** `replace(/\r\n/g, '\n')` */
  function DropCr(s: string): string {
    if s == "" then ""
    else if |s| > 1 && s[0] == '\r' && s[1] == '\n' then "\n" + DropCr(s[2..])
    else [s[0]] + DropCr(s[1..])
  }

  /** `replace(/\n/g, '\r\n')` */
  function AddCr(s: string): string {
    if s == "" then ""
    else (if s[0] == '\n' then "\r\n" else [s[0]]) + AddCr(s[1..])
  }

  predicate HasCrlf(s: string) {
    exists i :: 0 < i < |s| && s[i - 1] == '\r' && s[i] == '\n'
  }

  /** Every line feed has a carriage return before it. */
  predicate AllCrlf(s: string) {
    forall i :: 0 <= i < |s| && s[i] == '\n' ==> i > 0 && s[i - 1] == '\r'
  }

  lemma {:induction false} AddCrHead(c: char, s: string)
    ensures AddCr([c] + s) == (if c == '\n' then "\r\n" else [c]) + AddCr(s)
  {
    assert ([c] + s)[1..] == s;
  }

  /** Putting the carriage returns back restores exactly the strings that had them all. */
  lemma {:induction false} CrlfRestored(s: string)
    ensures AddCr(DropCr(s)) == s <==> AllCrlf(s)
    decreases |s|
  {
    if s == "" {
    } else if |s| > 1 && s[0] == '\r' && s[1] == '\n' {
      var t := s[2..];
      AddCrHead('\n', DropCr(t));
      CrlfRestored(t);
      assert s == "\r\n" + t;
      CrlfTail(s, 2);
      assert ("\r\n" + AddCr(DropCr(t)))[2..] == AddCr(DropCr(t));
    } else {
      var t := s[1..];
      AddCrHead(s[0], DropCr(t));
      CrlfRestored(t);
      assert s == [s[0]] + t;
      if s[0] != '\n' {
        CrlfTail(s, 1);
        assert ([s[0]] + AddCr(DropCr(t)))[1..] == AddCr(DropCr(t));
      }
    }
  }

  lemma CrlfTail(s: string, n: nat)
    requires n <= |s| && (n == 1 || n == 2)
    requires n == 1 ==> s[0] != '\n' && !(|s| > 1 && s[0] == '\r' && s[1] == '\n')
    requires n == 2 ==> s[0] == '\r' && s[1] == '\n'
    ensures AllCrlf(s) <==> AllCrlf(s[n..])
  {
    var t := s[n..];
    if AllCrlf(s) {
      forall i | 0 <= i < |t| && t[i] == '\n' ensures i > 0 && t[i - 1] == '\r' {
        assert s[i + n] == '\n';
      }
    }
    if AllCrlf(t) {
      forall i | 0 <= i < |s| && s[i] == '\n' ensures i > 0 && s[i - 1] == '\r' {
        if i >= n {
          assert t[i - n] == '\n';
        }
      }
    }
  }

  // ---- a form ---------------------------------------------------------------------------

  /** What a parameter's declared type looks like. */
  datatype Hint = BoolHint | NumberHint | JsonHint | TextHint

  datatype Param = Param(name: string, hint: Hint, required: bool, choices: seq<string>)

  datatype Action = Action(name: string, tool: bool, params: seq<Param>, example: map<string, Json>)

  datatype Kind = ChoiceKind | BoolKind | NumberKind | JsonKind | TextKind

  /** An editor's value; `Unset` is a flag that is not sent, `Undefined` what `stringify` makes of a function. */
  datatype Raw = Typed(s: string) | Flag(b: bool) | Unset | Undefined

  datatype Field = Field(name: string, kind: Kind, raw: Raw, crlf: bool, required: bool)

  datatype Entry = Entry(name: string, fields: seq<Field>, extras: map<string, Json>)

  function Get(m: map<string, Json>, k: string): Option<Json> {
    if k in m then Some(m[k]) else None
  }

  /** What `values[name]` finds: nothing, a member, or what every object has under that name. */
  datatype Looked = Absent | Own(v: Json) | Inherited(i: Inheritance)

  function Lookup(lib: Library, m: map<string, Json>, k: string): Looked {
    if k in m then Own(m[k]) else if lib.prototype(k).Some? then Inherited(lib.prototype(k).value) else Absent
  }

  function FieldKind(p: Param, v: Looked): Kind {
    if p.choices != [] then ChoiceKind
    else if v.Inherited? then (if v.i.isObject then JsonKind else TextKind)
    else if v.Own? && v.v != Null then
      match v.v
      case Bool(_) => BoolKind
      case Num(_) => NumberKind
      case Arr(_) => JsonKind
      case Obj(_) => JsonKind
      case _ => TextKind
    else
      match p.hint
      case BoolHint => BoolKind
      case NumberHint => NumberKind
      case JsonHint => JsonKind
      case TextHint => TextKind
  }

  /** `String(v)` */
  function AsText(lib: Library, v: Json): string {
    match v
    case Str(s) => s
    case Num(n) => lib.showNumber(n)
    case Null => NULL_TEXT
    case _ => lib.showJson(v)
  }

  function NewField(lib: Library, p: Param, example: Looked, v: Looked): Field {
    var kind := FieldKind(p, if v == Absent then example else v);
    Field(p.name, kind, NewRaw(lib, p, kind, v), kind == TextKind && v.Own? && v.v.Str? && HasCrlf(v.v.s), p.required)
  }

  function NewRaw(lib: Library, p: Param, kind: Kind, v: Looked): Raw {
    match kind
    case BoolKind =>
      if v == Absent then (if p.required then Flag(false) else Unset)
      else Flag(v == Own(Bool(true)) || v == Own(Str("true")))
    case ChoiceKind =>
      if v == Absent then Typed(if p.required && p.choices != [] then p.choices[0] else "") else Typed(LookedText(lib, v))
    case JsonKind =>
      Typed(if v == Absent then "" else lib.showJson(if v.Own? then v.v else Obj(map[])))
    case NumberKind => Typed(if v == Absent then "" else LookedText(lib, v))
    case TextKind =>
      if v.Inherited? then Undefined
      else Typed(if v == Absent then "" else if v.v.Str? then v.v.s else lib.showJson(v.v))
  }

  function LookedText(lib: Library, v: Looked): string
    requires v != Absent
  {
    if v.Own? then AsText(lib, v.v) else v.i.text
  }

  predicate Declares(ps: seq<Param>, k: string) {
    exists i :: 0 <= i < |ps| && ps[i].name == k
  }

  /** The keys no parameter declares. */
  function Extras(a: Action, values: map<string, Json>): map<string, Json> {
    map k | k in values && k != "type" && !Declares(a.params, k) :: values[k]
  }

  function FieldOf(lib: Library, a: Action, values: map<string, Json>, i: nat): Field
    requires i < |a.params|
  {
    NewField(lib, a.params[i], Lookup(lib, a.example, a.params[i].name), Lookup(lib, values, a.params[i].name))
  }

  function NewEntry(lib: Library, a: Action, values: map<string, Json>): Entry {
    Entry(a.name,
          seq(|a.params|, i requires 0 <= i < |a.params| =>
            FieldOf(lib, a, values, i)),
          Extras(a, values))
  }

  // ---- an action from a form ------------------------------------------------------------

  datatype Problem = Required | NotANumber | TooLarge | NotJson

  /** `Void` is a member whose value is `undefined`. */
  datatype Sent = Omitted | Sent(v: Json) | Void | Bad(problem: Problem)

  const MAX_SAFE: int := 9007199254740991

  predicate Unsafe(n: Number) {
    n.Whole? && !(-MAX_SAFE <= n.i <= MAX_SAFE)
  }

  function Contents(f: Field): string {
    if f.raw.Typed? then f.raw.s else ""
  }

  /** What a field contributes. */
  function Contribution(lib: Library, f: Field): Sent {
    match f.kind
    case BoolKind => if f.raw.Flag? then Sent(Bool(f.raw.b)) else Omitted
    case ChoiceKind => if Contents(f) != "" then Sent(Str(Contents(f))) else Omitted
    case NumberKind =>
      var s := T.Trim(Contents(f));
      if s == "" then (if f.required then Bad(Required) else Omitted)
      else
        var n := lib.readNumber(s);
        if n == None || n.value.Infinite? then Bad(NotANumber)
        else if Unsafe(n.value) then Bad(TooLarge)
        else Sent(Num(n.value))
    case JsonKind =>
      var s := T.Trim(Contents(f));
      if s == "" then (if f.required then Bad(Required) else Omitted)
      else
        var v := lib.readJson(s);
        if v == None then Bad(NotJson) else Sent(v.value)
    case TextKind =>
      var s := Contents(f);
      if f.raw == Undefined then Void
      else if s == "" && !f.required then Omitted
      else Sent(Str(if f.crlf then AddCr(DropCr(s)) else s))
  }

  /** The members the first fields give, later ones over earlier ones. */
  function Values(lib: Library, name: string, fields: seq<Field>): map<string, Json> {
    if fields == [] then map["type" := Str(name)]
    else
      var f := fields[|fields| - 1];
      var before := Values(lib, name, fields[..|fields| - 1]);
      match Contribution(lib, f)
      case Sent(v) => before[f.name := v]
      case Void => before - {f.name}
      case _ => before
  }

  /** The members they give that are `undefined`: `stringify` drops them, but they are compared. */
  function Voids(lib: Library, fields: seq<Field>): set<string> {
    if fields == [] then {}
    else
      var f := fields[|fields| - 1];
      var before := Voids(lib, fields[..|fields| - 1]);
      match Contribution(lib, f)
      case Sent(_) => before - {f.name}
      case Void => before + {f.name}
      case _ => before
  }

  function Problems(lib: Library, fields: seq<Field>): seq<(string, Problem)> {
    if fields == [] then []
    else
      var f := fields[|fields| - 1];
      Problems(lib, fields[..|fields| - 1]) +
      (match Contribution(lib, f) case Bad(p) => [(f.name, p)] case _ => [])
  }

  function Built(lib: Library, e: Entry): Result<map<string, Json>, seq<(string, Problem)>> {
    if Problems(lib, e.fields) == [] then Success(Values(lib, e.name, e.fields) + e.extras)
    else Failure(Problems(lib, e.fields))
  }

  method BuildAction(lib: Library, entry: Entry) returns (r: Result<map<string, Json>, seq<(string, Problem)>>, voids: set<string>)
    ensures r == Built(lib, entry) && voids == Voids(lib, entry.fields) - entry.extras.Keys
  {
    hide Contribution;
    var value: map<string, Json> := map["type" := Str(entry.name)];
    var errors: seq<(string, Problem)> := [];
    var fields := entry.fields;
    voids := {};
    for i := 0 to |fields|
      invariant value == Values(lib, entry.name, fields[..i])
      invariant voids == Voids(lib, fields[..i])
      invariant errors == Problems(lib, fields[..i])
    {
      var f := fields[i];
      assert fields[..i + 1][..i] == fields[..i];
      match Contribution(lib, f) {
        case Omitted =>
        case Sent(v) => value, voids := value[f.name := v], voids - {f.name};
        case Void => value, voids := value - {f.name}, voids + {f.name};
        case Bad(p) => errors := errors + [(f.name, p)];
      }
    }
    assert fields[..|fields|] == fields;
    voids := voids - entry.extras.Keys;
    r := if errors == [] then Success(value + entry.extras) else Failure(errors);
  }

  // ---- when a value survives its field --------------------------------------------------

  /** Exactly the values, present or missing, that a parameter's field gives back unchanged. */
  predicate ParamOk(lib: Library, p: Param, v: Option<Json>) {
    match v
    case None => lib.prototype(p.name) == None && (!p.required || (p.choices != [] && p.choices[0] == ""))
    case Some(x) =>
      if p.choices != [] then x.Str? && x.s != ""
      else
        match x
        case Bool(_) => true
        case Num(n) => !n.Infinite? && (n.Whole? ==> -9007199254740991 <= n.i <= 9007199254740991)
        case Arr(_) => Writable(x)
        case Obj(_) => Writable(x)
        case Str(s) => (s == "" ==> p.required) && (HasCrlf(s) ==> AllCrlf(s))
        case Null => p.hint == JsonHint
  }

  function Expected(v: Option<Json>): Sent {
    if v == None then Omitted else Sent(v.value)
  }

  lemma FieldFaithful(lib: Library, p: Param, example: Looked, item: map<string, Json>)
    requires Lawful(lib)
    ensures Contribution(lib, NewField(lib, p, example, Lookup(lib, item, p.name))) == Expected(Get(item, p.name))
            <==> ParamOk(lib, p, Get(item, p.name))
  {
    var v := Lookup(lib, item, p.name);
    T.EmptyTrims();
    if v.Own? {
      OwnFaithful(lib, p, example, v.v);
    } else if v.Inherited? {
      InheritedIsSent(lib, p, example, v.i);
    }
    hide AddCr, DropCr, HasCrlf, T.Trim;
  }

  /** A name every object has is never left out again. */
  lemma InheritedIsSent(lib: Library, p: Param, example: Looked, i: Inheritance)
    requires Lawful(lib) && i.text != ""
    ensures var c := Contribution(lib, NewField(lib, p, example, Inherited(i))); c.Sent? || c.Void?
  {
    ReadsBack(lib, Obj(map[]));
    hide Nulled;
  }

  lemma OwnFaithful(lib: Library, p: Param, example: Looked, x: Json)
    requires Lawful(lib)
    ensures Contribution(lib, NewField(lib, p, example, Own(x))) == Sent(x) <==> ParamOk(lib, p, Some(x))
  {
    var f := NewField(lib, p, example, Own(x));
    T.EmptyTrims();
    NulledIff(x);
    ReadsBack(lib, x);
    assert !x.Num? && !x.Arr? && !x.Obj? ==> Writable(x);
    hide Nulled, Writable, AddCr, DropCr, HasCrlf, AllCrlf, T.Trim;
    if x.Str? {
      CrlfRestored(x.s);
    }
    assert f.kind == JsonKind ==> f.raw == Typed(lib.showJson(x));
    assert x.Num? && f.kind == NumberKind ==> f.raw == Typed(lib.showNumber(x.n));
  }

  /** The sort of value a parameter takes: that of its example, or else of its declared type. */
  function Sort(p: Param, example: Looked): Hint {
    if example.Inherited? then (if example.i.isObject then JsonHint else TextHint)
    else if example == Absent || example.v == Null then p.hint
    else if example.v.Bool? then BoolHint
    else if example.v.Num? then NumberHint
    else if example.v.Str? then TextHint
    else JsonHint
  }

  /** A parameter the item lacks, filled in: its field sends the value whose text was typed. */
  lemma FilledIn(lib: Library, p: Param, example: Looked, b: bool, n: Number, v: Json, s: string)
    requires Lawful(lib) && s != ""
    ensures var f := NewField(lib, p, example, Absent);
            if p.choices != [] then Contribution(lib, f.(raw := Typed(s))) == Sent(Str(s))
            else
              match Sort(p, example)
              case BoolHint => Contribution(lib, f.(raw := Flag(b))) == Sent(Bool(b))
              case NumberHint =>
                Contribution(lib, f.(raw := Typed(lib.showNumber(n))))
                == if n.Infinite? then Bad(NotANumber) else if Unsafe(n) then Bad(TooLarge) else Sent(Num(n))
              case JsonHint => Contribution(lib, f.(raw := Typed(lib.showJson(v)))) == Sent(Nulled(v))
              case TextHint => Contribution(lib, f.(raw := Typed(s))) == Sent(Str(s))
  {
    ReadsBack(lib, v);
    hide Nulled, T.Trim;
  }

  /** The same, left alone: nothing is sent unless it is required. */
  lemma LeftAlone(lib: Library, p: Param, example: Looked)
    ensures var c := Contribution(lib, NewField(lib, p, example, Absent));
            if !p.required then c == Omitted
            else if p.choices != [] then c == if p.choices[0] == "" then Omitted else Sent(Str(p.choices[0]))
            else
              match Sort(p, example)
              case BoolHint => c == Sent(Bool(false))
              case TextHint => c == Sent(Str(""))
              case _ => c == Bad(Required)
  {
    T.EmptyTrims();
    hide T.Trim;
  }

  /** A named action whose parameters are distinct; one may be called `type`. */
  predicate WellFormed(a: Action) {
    && a.name != ""
    && (forall i, j :: 0 <= i < j < |a.params| ==> a.params[i].name != a.params[j].name)
  }

  /** The member a field leaves: its own, or the action's name if it sends none for `type`. */
  function Member(a: Action, k: string, s: Sent): Option<Json> {
    if s.Sent? then Some(s.v) else if s.Void? then None else if k == "type" then Some(Str(a.name)) else None
  }

  /** One field more. */
  lemma ValuesNext(lib: Library, a: Action, values: map<string, Json>, n: nat)
    requires 0 < n <= |a.params|
    ensures var fields := NewEntry(lib, a, values).fields;
            var (m, m', k) := (Values(lib, a.name, fields[..n - 1]), Values(lib, a.name, fields[..n]), a.params[n - 1].name);
            var c := Contribution(lib, FieldOf(lib, a, values, n - 1));
            m' == if c.Sent? then m[k := c.v] else if c.Void? then m - {k} else m
  {
    var fields := NewEntry(lib, a, values).fields;
    FieldName(lib, a, values, n - 1);
    hide Contribution, FieldOf;
    assert fields[..n][..n - 1] == fields[..n - 1];
    assert fields[n - 1] == FieldOf(lib, a, values, n - 1);
  }

  lemma VoidsNext(lib: Library, a: Action, values: map<string, Json>, n: nat)
    requires 0 < n <= |a.params|
    ensures var fields := NewEntry(lib, a, values).fields;
            var (m, m', k) := (Voids(lib, fields[..n - 1]), Voids(lib, fields[..n]), a.params[n - 1].name);
            var c := Contribution(lib, FieldOf(lib, a, values, n - 1));
            m' == if c.Sent? then m - {k} else if c.Void? then m + {k} else m
  {
    var fields := NewEntry(lib, a, values).fields;
    FieldName(lib, a, values, n - 1);
    hide Contribution, FieldOf;
    assert fields[..n][..n - 1] == fields[..n - 1];
    assert fields[n - 1] == FieldOf(lib, a, values, n - 1);
  }

  /** A key none of the first `n` fields has. */
  lemma {:induction false} OtherValue(lib: Library, a: Action, values: map<string, Json>, n: nat, k: string)
    requires n <= |a.params| && forall i :: 0 <= i < n ==> a.params[i].name != k
    ensures Get(Values(lib, a.name, NewEntry(lib, a, values).fields[..n]), k) == Member(a, k, Omitted)
    decreases n
  {
    if n > 0 {
      OtherValue(lib, a, values, n - 1, k);
      ValuesNext(lib, a, values, n);
      hide Contribution, FieldOf, NewEntry, Values;
    }
  }

  /** What the first `n` fields of an entry have given for one of them. */
  lemma {:induction false} ParamValue(lib: Library, a: Action, values: map<string, Json>, n: nat, i: nat)
    requires WellFormed(a) && i < n <= |a.params|
    ensures Get(Values(lib, a.name, NewEntry(lib, a, values).fields[..n]), a.params[i].name)
            == Member(a, a.params[i].name, Contribution(lib, FieldOf(lib, a, values, i)))
    decreases n
  {
    hide Contribution, FieldOf, NewEntry, Values;
    ValuesNext(lib, a, values, n);
    if i < n - 1 {
      ParamValue(lib, a, values, n - 1, i);
    } else {
      OtherValue(lib, a, values, n - 1, a.params[i].name);
    }
  }

  lemma FieldName(lib: Library, a: Action, values: map<string, Json>, i: nat)
    requires i < |a.params|
    ensures FieldOf(lib, a, values, i).name == a.params[i].name
  {
  }

  lemma {:induction false} ProblemsAre(lib: Library, fields: seq<Field>)
    ensures Problems(lib, fields) == [] <==> forall i :: 0 <= i < |fields| ==> !Contribution(lib, fields[i]).Bad?
    decreases |fields|
  {
    hide Contribution;
    if fields != [] {
      ProblemsAre(lib, fields[..|fields| - 1]);
    }
  }

  predicate ParamsOk(lib: Library, a: Action, item: map<string, Json>) {
    forall i :: 0 <= i < |a.params| ==> ParamOk(lib, a.params[i], Get(item, a.params[i].name))
  }

  /** The form gives back the item: the same members, and none that is `undefined`. */
  predicate Rebuilds(lib: Library, e: Entry, item: map<string, Json>) {
    Built(lib, e) == Success(item) && Voids(lib, e.fields) - e.extras.Keys == {}
  }

  lemma {:induction false} NoVoids(lib: Library, a: Action, item: map<string, Json>, n: nat)
    requires n <= |a.params| && forall i :: 0 <= i < n ==> !Contribution(lib, FieldOf(lib, a, item, i)).Void?
    ensures Voids(lib, NewEntry(lib, a, item).fields[..n]) == {}
    decreases n
  {
    if n > 0 {
      NoVoids(lib, a, item, n - 1);
      VoidsNext(lib, a, item, n);
    }
    hide Contribution, FieldOf, NewEntry;
  }

  lemma {:induction false} VoidStays(lib: Library, a: Action, item: map<string, Json>, n: nat, i: nat)
    requires WellFormed(a) && i < n <= |a.params| && Contribution(lib, FieldOf(lib, a, item, i)).Void?
    ensures a.params[i].name in Voids(lib, NewEntry(lib, a, item).fields[..n])
    decreases n
  {
    hide Contribution, FieldOf, NewEntry, Voids;
    VoidsNext(lib, a, item, n);
    if i < n - 1 {
      VoidStays(lib, a, item, n - 1, i);
    }
  }

  /** The form gives an item back exactly when every parameter's value survives. */
  lemma ItemRebuilt(lib: Library, a: Action, item: map<string, Json>)
    requires Lawful(lib) && WellFormed(a) && Get(item, "type") == Some(Str(a.name))
    ensures Rebuilds(lib, NewEntry(lib, a, item), item) <==> ParamsOk(lib, a, item)
  {
    var e := NewEntry(lib, a, item);
    ProblemsAre(lib, e.fields);
    forall i | 0 <= i < |a.params|
      ensures Contribution(lib, FieldOf(lib, a, item, i)) == Expected(Get(item, a.params[i].name))
              <==> ParamOk(lib, a.params[i], Get(item, a.params[i].name))
    {
      FieldFaithful(lib, a.params[i], Lookup(lib, a.example, a.params[i].name), item);
    }
    hide Contribution, ParamOk, FieldOf, Lawful, Values, Problems, Voids;
    if ParamsOk(lib, a, item) {
      AllSurvive(lib, a, item);
    } else {
      var i :| 0 <= i < |a.params| && !ParamOk(lib, a.params[i], Get(item, a.params[i].name));
      assert e.fields[i] == FieldOf(lib, a, item, i);
      if !Contribution(lib, e.fields[i]).Bad? {
        OneLost(lib, a, item, i);
      }
    }
  }

  /** A field called `type` has the action's name in it, so it sends something. */
  lemma NameIsSent(lib: Library, a: Action, item: map<string, Json>, i: nat)
    requires i < |a.params| && a.params[i].name == "type" && a.name != "" && Get(item, "type") == Some(Str(a.name))
    ensures !Contribution(lib, FieldOf(lib, a, item, i)).Omitted?
  {
  }

  lemma OneLost(lib: Library, a: Action, item: map<string, Json>, i: nat)
    requires WellFormed(a) && Get(item, "type") == Some(Str(a.name)) && i < |a.params|
    requires var c := Contribution(lib, FieldOf(lib, a, item, i)); !c.Bad? && c != Expected(Get(item, a.params[i].name))
    ensures var fields := NewEntry(lib, a, item).fields;
            || Values(lib, a.name, fields) + Extras(a, item) != item
            || Voids(lib, fields) - Extras(a, item).Keys != {}
  {
    var k := a.params[i].name;
    var fields := NewEntry(lib, a, item).fields;
    if Contribution(lib, FieldOf(lib, a, item, i)).Void? {
      VoidStays(lib, a, item, |a.params|, i);
    }
    ParamValue(lib, a, item, |a.params|, i);
    if k == "type" {
      NameIsSent(lib, a, item, i);
    }
    hide Contribution, FieldOf, Values, Voids;
    assert fields[..|a.params|] == fields;
    assert k !in Extras(a, item) by {
      assert Declares(a.params, k);
    }
    if Contribution(lib, FieldOf(lib, a, item, i)).Void? {
      assert k in Voids(lib, fields) - Extras(a, item).Keys;
    } else {
      assert Get(Values(lib, a.name, fields) + Extras(a, item), k) == Get(Values(lib, a.name, fields), k) != Get(item, k);
    }
  }

  lemma AllSurvive(lib: Library, a: Action, item: map<string, Json>)
    requires WellFormed(a) && Get(item, "type") == Some(Str(a.name))
    requires forall i :: 0 <= i < |a.params| ==>
               Contribution(lib, FieldOf(lib, a, item, i)) == Expected(Get(item, a.params[i].name))
    ensures Values(lib, a.name, NewEntry(lib, a, item).fields) + Extras(a, item) == item
    ensures Problems(lib, NewEntry(lib, a, item).fields) == [] && Voids(lib, NewEntry(lib, a, item).fields) == {}
  {
    var e := NewEntry(lib, a, item);
    ProblemsAre(lib, e.fields);
    NoVoids(lib, a, item, |a.params|);
    assert e.fields[..|a.params|] == e.fields;
    hide Contribution, FieldOf, Values, Problems, Voids;
    forall i | 0 <= i < |e.fields| ensures !Contribution(lib, e.fields[i]).Bad? {
      assert e.fields[i] == FieldOf(lib, a, item, i);
    }
    var m := Values(lib, a.name, e.fields) + e.extras;
    forall k | k in item || k in m
      ensures Get(m, k) == Get(item, k)
    {
      KeySurvives(lib, a, item, k);
    }
    SameMembers(m, item);
  }

  lemma KeySurvives(lib: Library, a: Action, item: map<string, Json>, k: string)
    requires WellFormed(a) && Get(item, "type") == Some(Str(a.name))
    requires forall i :: 0 <= i < |a.params| ==>
               Contribution(lib, FieldOf(lib, a, item, i)) == Expected(Get(item, a.params[i].name))
    ensures Get(Values(lib, a.name, NewEntry(lib, a, item).fields) + Extras(a, item), k) == Get(item, k)
  {
    var fields := NewEntry(lib, a, item).fields;
    if Declares(a.params, k) {
      var i :| 0 <= i < |a.params| && a.params[i].name == k;
      ParamValue(lib, a, item, |a.params|, i);
    } else {
      OtherValue(lib, a, item, |a.params|, k);
    }
    hide Contribution, FieldOf, Values;
    assert fields[..|a.params|] == fields;
  }

  lemma SameMembers(m: map<string, Json>, item: map<string, Json>)
    requires forall k :: k in item || k in m ==> Get(m, k) == Get(item, k)
    ensures m == item
  {
    assert forall k :: k in m <==> k in item by {
      forall k ensures k in m <==> k in item {
        assert k in item || k in m ==> Get(m, k) == Get(item, k);
      }
    }
  }
}
