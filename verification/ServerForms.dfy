/**
 The interactive form (src/cli/management.rs): which submitted values count, the update they
 ask for, and when that update restarts the server.
 */
module ServerForms {
  import opened Wrappers
  import opened Composer
  import opened ServerUpdate

  datatype Target = Port | Instruction | Memory | EventHandlers | Feedback | RemoteAddr | StartupParam(hint: string)

  datatype FormField = FormField(name: string, target: Target, prefill: string, value: Option<string>)

  /** `trim`, and the parsers of port numbers, handler lists and parameter values. */
  datatype Parsers = Parsers(
    trim: string -> string,
    port: string -> Option<nat>,
    handlers: string -> Option<seq<Json>>,
    coerce: (string, string) -> Option<Json>)

  /** What a field contributes: for an update, only text that is not blank and not its prefill. */
  function Effective(ps: Parsers, update: bool, f: FormField): Option<string> {
    var t := ps.trim(if f.value.Some? then f.value.value else "");
    if t == "" then None
    else if update && t == ps.trim(f.prefill) then None
    else Some(t)
  }

  /** A form being filled in. */
  datatype Filling = Filling(form: ServerForm, params: map<string, Json>)

  /** One field's value put in; `None` if it does not parse. */
  function PutField(ps: Parsers, w: Filling, f: FormField, v: string): Option<Filling> {
    match f.target
    case Port =>
      var p := ps.port(v);
      if p == None then None else Some(w.(form := w.form.(port := p)))
    case Instruction => Some(w.(form := w.form.(instruction := Some(v))))
    case Memory => Some(w.(form := w.form.(memory := Some(v))))
    case EventHandlers =>
      var h := ps.handlers(v);
      if h == None then None else Some(w.(form := w.form.(handlers := h)))
    case Feedback => Some(w.(form := w.form.(feedback := Some(v))))
    case RemoteAddr => Some(w)
    case StartupParam(hint) =>
      var x := ps.coerce(v, hint);
      if x == None then None else Some(w.(params := w.params[f.name := x.value]))
  }

  function Filled(ps: Parsers, update: bool, protocol: string, fields: seq<FormField>): Option<Filling> {
    if fields == [] then Some(Filling(NoForm.(protocol := protocol), map[]))
    else
      var f := fields[|fields| - 1];
      match Filled(ps, update, protocol, fields[..|fields| - 1])
      case None => None
      case Some(w) =>
        match Effective(ps, update, f)
        case None => Some(w)
        case Some(v) => PutField(ps, w, f, v)
  }

  function Form(ps: Parsers, update: bool, protocol: string, fields: seq<FormField>): Option<ServerForm> {
    match Filled(ps, update, protocol, fields)
    case None => None
    case Some(w) => Some(if w.params == map[] then w.form else w.form.(params := Some(Obj(w.params))))
  }

  class InteractiveForm {
    const update: bool
    const protocol: string
    var fields: seq<FormField>
    var index: nat

    constructor (update: bool, protocol: string, fields: seq<FormField>)
      ensures this.update == update && this.protocol == protocol && this.fields == fields && index == 0
    {
      this.update, this.protocol, this.fields, index := update, protocol, fields, 0;
    }

    /** Record the current field's value, trimmed, and go on to the next. */
    method SubmitCurrent(ps: Parsers, raw: string)
      modifies this
      ensures index == old(index) + 1
      ensures fields == if old(index) < |old(fields)|
                        then old(fields)[old(index) := old(fields)[old(index)].(value := Some(ps.trim(raw)))]
                        else old(fields)
    {
      if index < |fields| {
        fields := fields[index := fields[index].(value := Some(ps.trim(raw)))];
      }
      index := index + 1;
    }

    method IntoServerForm(ps: Parsers) returns (r: Option<ServerForm>)
      ensures r == Form(ps, update, protocol, fields)
    {
      var w := Filling(NoForm.(protocol := protocol), map[]);
      for i := 0 to |fields|
        invariant Filled(ps, update, protocol, fields[..i]) == Some(w)
      {
        assert fields[..i + 1][..i] == fields[..i];
        var v := Effective(ps, update, fields[i]);
        if v.Some? {
          var put := PutField(ps, w, fields[i], v.value);
          if put == None {
            StaysNone(ps, update, protocol, fields, i + 1);
            return None;
          }
          w := put.value;
        }
      }
      assert fields[..|fields|] == fields;
      return Some(if w.params == map[] then w.form else w.form.(params := Some(Obj(w.params))));
    }
  }

  lemma {:induction false} StaysNone(ps: Parsers, update: bool, protocol: string, fields: seq<FormField>, n: nat)
    requires n <= |fields| && Filled(ps, update, protocol, fields[..n]) == None
    ensures Filled(ps, update, protocol, fields) == None
    decreases |fields| - n
  {
    if n < |fields| {
      assert fields[..n + 1][..n] == fields[..n];
      StaysNone(ps, update, protocol, fields, n + 1);
    } else {
      assert fields[..n] == fields;
    }
  }

  // ---- when an update restarts ----------------------------------------------------------

  /** Submitted, not blank, and for an update not what it was. */
  predicate Changed(ps: Parsers, update: bool, f: FormField) {
    && f.value.Some? && ps.trim(f.value.value) != ""
    && (update ==> ps.trim(f.value.value) != ps.trim(f.prefill))
  }

  predicate Parses(ps: Parsers, f: FormField)
    requires f.value.Some?
  {
    var v := ps.trim(f.value.value);
    match f.target
    case Port => ps.port(v).Some?
    case EventHandlers => ps.handlers(v).Some?
    case StartupParam(hint) => ps.coerce(v, hint).Some?
    case _ => true
  }

  /** Every value that counts can be read. */
  predicate AllParse(ps: Parsers, update: bool, fields: seq<FormField>) {
    forall i :: 0 <= i < |fields| && Changed(ps, update, fields[i]) ==> Parses(ps, fields[i])
  }

  predicate PortChanged(ps: Parsers, update: bool, fields: seq<FormField>) {
    exists i :: 0 <= i < |fields| && fields[i].target.Port? && Changed(ps, update, fields[i])
  }

  predicate ParamChanged(ps: Parsers, update: bool, fields: seq<FormField>, k: string) {
    exists i :: 0 <= i < |fields| && fields[i].target.StartupParam? && fields[i].name == k && Changed(ps, update, fields[i])
  }

  predicate AnyParamChanged(ps: Parsers, update: bool, fields: seq<FormField>) {
    exists i :: 0 <= i < |fields| && fields[i].target.StartupParam? && Changed(ps, update, fields[i])
  }

  lemma FieldCounts(ps: Parsers, update: bool, f: FormField)
    requires ps.trim("") == ""
    ensures Effective(ps, update, f).Some? <==> Changed(ps, update, f)
    ensures Changed(ps, update, f) ==> Effective(ps, update, f).value == ps.trim(f.value.value)
  {
  }

  /** One field more. */
  lemma OneMore(ps: Parsers, update: bool, fields: seq<FormField>, k: string)
    requires fields != []
    ensures var (rest, f) := (fields[..|fields| - 1], fields[|fields| - 1]);
            && (AllParse(ps, update, fields) <==> AllParse(ps, update, rest) && (Changed(ps, update, f) ==> Parses(ps, f)))
            && (PortChanged(ps, update, fields) <==> PortChanged(ps, update, rest) || (f.target.Port? && Changed(ps, update, f)))
            && (ParamChanged(ps, update, fields, k) <==>
                  ParamChanged(ps, update, rest, k) || (f.target.StartupParam? && f.name == k && Changed(ps, update, f)))
  {
    hide Changed, Parses;
    var rest := fields[..|fields| - 1];
    assert forall i :: 0 <= i < |rest| ==> rest[i] == fields[i];
    if PortChanged(ps, update, rest) {
      var i :| 0 <= i < |rest| && rest[i].target.Port? && Changed(ps, update, rest[i]);
      assert fields[i] == rest[i];
    }
    if ParamChanged(ps, update, rest, k) {
      var i :| 0 <= i < |rest| && rest[i].target.StartupParam? && rest[i].name == k && Changed(ps, update, rest[i]);
      assert fields[i] == rest[i];
    }
  }

  predicate NoBinding(f: ServerForm) {
    f.host == None && f.iface == None && f.mac == None && f.params == None
  }

  lemma PutIs(ps: Parsers, w: Filling, f: FormField, k: string)
    requires f.value.Some? && NoBinding(w.form)
    ensures var r := PutField(ps, w, f, ps.trim(f.value.value));
            && (r.Some? <==> Parses(ps, f))
            && (r.Some? ==>
                  && NoBinding(r.value.form) && r.value.form.protocol == w.form.protocol
                  && (r.value.form.port.Some? <==> w.form.port.Some? || f.target.Port?)
                  && (k in r.value.params <==> k in w.params || (f.target.StartupParam? && f.name == k)))
  {
  }

  lemma {:induction false} FilledIs(ps: Parsers, update: bool, protocol: string, fields: seq<FormField>, k: string)
    requires ps.trim("") == ""
    ensures var w := Filled(ps, update, protocol, fields);
            && (w.Some? <==> AllParse(ps, update, fields))
            && (w.Some? ==>
                  && NoBinding(w.value.form) && w.value.form.protocol == protocol
                  && (w.value.form.port.Some? <==> PortChanged(ps, update, fields))
                  && (k in w.value.params <==> ParamChanged(ps, update, fields, k)))
    decreases |fields|
  {
    if fields != [] {
      var n := |fields| - 1;
      var f := fields[n];
      FilledIs(ps, update, protocol, fields[..n], k);
      OneMore(ps, update, fields, k);
      FieldCounts(ps, update, f);
      assert Changed(ps, update, f) ==> f.value.Some?;
      hide Changed, Effective, AllParse, PortChanged, ParamChanged, PutField;
      var w := Filled(ps, update, protocol, fields[..n]);
      if w.Some? && Effective(ps, update, f).Some? {
        PutIs(ps, w.value, f, k);
      }
    }
  }

  // ---- what the form carries ------------------------------------------------------------

  predicate SameSlot(f: FormField, g: FormField) {
    if f.target.StartupParam? then g.target.StartupParam? && f.name == g.name else f.target == g.target
  }

  /** The last field for a target whose value counts. */
  function LastFor(ps: Parsers, update: bool, fields: seq<FormField>, t: Target): (r: Option<FormField>)
    ensures r.Some? ==> r.value.value.Some?
  {
    if fields == [] then None
    else
      var f := fields[|fields| - 1];
      if f.target == t && Changed(ps, update, f) then Some(f) else LastFor(ps, update, fields[..|fields| - 1], t)
  }

  /** The last field for a startup parameter whose value counts. */
  function LastParam(ps: Parsers, update: bool, fields: seq<FormField>, k: string): (r: Option<FormField>)
    ensures r.Some? ==> r.value.value.Some? && r.value.target.StartupParam?
  {
    if fields == [] then None
    else
      var f := fields[|fields| - 1];
      if f.target.StartupParam? && f.name == k && Changed(ps, update, f) then Some(f)
      else LastParam(ps, update, fields[..|fields| - 1], k)
  }

  /** What a field says. */
  function SaidText(ps: Parsers, f: Option<FormField>): Option<string> {
    if f.Some? && f.value.value.Some? then Some(ps.trim(f.value.value.value)) else None
  }

  function SaidPort(ps: Parsers, f: Option<FormField>): Option<nat> {
    if SaidText(ps, f).Some? then ps.port(SaidText(ps, f).value) else None
  }

  function SaidHandlers(ps: Parsers, f: Option<FormField>): Option<seq<Json>> {
    if SaidText(ps, f).Some? then ps.handlers(SaidText(ps, f).value) else None
  }

  function SaidParam(ps: Parsers, f: Option<FormField>): Option<Json> {
    if SaidText(ps, f).Some? && f.value.target.StartupParam? then ps.coerce(SaidText(ps, f).value, f.value.target.hint) else None
  }

  /** Each part of the form is what the last field for it says whose value counts, or absent. */
  predicate Faithful(ps: Parsers, update: bool, protocol: string, fields: seq<FormField>, form: ServerForm) {
    && form.protocol == protocol
    && form.port == SaidPort(ps, LastFor(ps, update, fields, Port))
    && form.instruction == SaidText(ps, LastFor(ps, update, fields, Instruction))
    && form.memory == SaidText(ps, LastFor(ps, update, fields, Memory))
    && form.handlers == SaidHandlers(ps, LastFor(ps, update, fields, EventHandlers))
    && form.feedback == SaidText(ps, LastFor(ps, update, fields, Feedback))
    && form.host == None && form.iface == None && form.mac == None
    && form.history == None && form.batching == None && form.tasks == None && !form.sendFirst
  }

  lemma LastNext(ps: Parsers, update: bool, fields: seq<FormField>, f: FormField, t: Target, k: string)
    ensures LastFor(ps, update, fields + [f], t) == if f.target == t && Changed(ps, update, f) then Some(f) else LastFor(ps, update, fields, t)
    ensures LastParam(ps, update, fields + [f], k)
            == if f.target.StartupParam? && f.name == k && Changed(ps, update, f) then Some(f) else LastParam(ps, update, fields, k)
  {
    assert (fields + [f])[..|fields|] == fields;
  }

  lemma PutFaithful(ps: Parsers, update: bool, protocol: string, fields: seq<FormField>, w: Filling, f: FormField)
    requires Faithful(ps, update, protocol, fields, w.form) && Changed(ps, update, f)
    requires PutField(ps, w, f, ps.trim(f.value.value)).Some?
    ensures Faithful(ps, update, protocol, fields + [f], PutField(ps, w, f, ps.trim(f.value.value)).value.form)
  {
    LastNext(ps, update, fields, f, Port, "");
    LastNext(ps, update, fields, f, Instruction, "");
    LastNext(ps, update, fields, f, Memory, "");
    LastNext(ps, update, fields, f, EventHandlers, "");
    LastNext(ps, update, fields, f, Feedback, "");
    assert f.value.Some?;
    hide LastFor, Changed;
  }

  lemma SkipFaithful(ps: Parsers, update: bool, protocol: string, fields: seq<FormField>, form: ServerForm, f: FormField)
    requires Faithful(ps, update, protocol, fields, form) && !Changed(ps, update, f)
    ensures Faithful(ps, update, protocol, fields + [f], form)
  {
    LastNext(ps, update, fields, f, Port, "");
    LastNext(ps, update, fields, f, Instruction, "");
    LastNext(ps, update, fields, f, Memory, "");
    LastNext(ps, update, fields, f, EventHandlers, "");
    LastNext(ps, update, fields, f, Feedback, "");
    hide LastFor, Changed;
  }

  lemma {:induction false} FilledExactly(ps: Parsers, update: bool, protocol: string, fields: seq<FormField>, k: string)
    requires ps.trim("") == "" && Filled(ps, update, protocol, fields).Some?
    ensures var w := Filled(ps, update, protocol, fields).value;
            && Faithful(ps, update, protocol, fields, w.form) && w.form.params == None
            && Get(w.params, k) == SaidParam(ps, LastParam(ps, update, fields, k))
    decreases |fields|
  {
    if fields != [] {
      var n := |fields| - 1;
      var (rest, f) := (fields[..n], fields[n]);
      FilledExactly(ps, update, protocol, rest, k);
      FieldCounts(ps, update, f);
      assert fields == rest + [f];
      LastNext(ps, update, rest, f, Port, k);
      var w := Filled(ps, update, protocol, rest).value;
      if Changed(ps, update, f) {
        assert f.value.Some?;
        PutFaithful(ps, update, protocol, rest, w, f);
        hide Faithful, LastParam, LastFor, Changed, Effective;
        PutParam(ps, w, f, k);
      } else {
        SkipFaithful(ps, update, protocol, rest, w.form, f);
        hide Faithful, LastParam, LastFor, Changed, Effective;
      }
    }
  }

  lemma PutParam(ps: Parsers, w: Filling, f: FormField, k: string)
    requires f.value.Some? && PutField(ps, w, f, ps.trim(f.value.value)).Some?
    ensures var r := PutField(ps, w, f, ps.trim(f.value.value)).value;
            && r.form.params == w.form.params
            && Get(r.params, k) == if f.target.StartupParam? && f.name == k then SaidParam(ps, Some(f)) else Get(w.params, k)
  {
  }

  /**
   The form that is returned: each part is what the last field for it says whose value counts,
   or absent; and a key is among its parameters exactly if a field of that name counts, with the
   value that the last of them is coerced to.
   */
  lemma FormExactly(ps: Parsers, update: bool, protocol: string, fields: seq<FormField>, k: string)
    requires ps.trim("") == "" && Form(ps, update, protocol, fields).Some?
    ensures var form := Form(ps, update, protocol, fields).value;
            && Faithful(ps, update, protocol, fields, form)
            && (form.params.Some? ==> form.params.value.Obj? && form.params.value.members != map[])
            && Get(Members(form.params), k) == SaidParam(ps, LastParam(ps, update, fields, k))
            && (k in Members(form.params) <==> ParamChanged(ps, update, fields, k))
  {
    FilledExactly(ps, update, protocol, fields, k);
    FilledIs(ps, update, protocol, fields, k);
    hide Filled, LastParam, LastFor, ParamChanged;
  }

  lemma {:induction false} LastIs(ps: Parsers, update: bool, fields: seq<FormField>, i: nat)
    requires i < |fields| && Changed(ps, update, fields[i])
    requires forall j :: i < j < |fields| ==> !SameSlot(fields[i], fields[j])
    ensures if fields[i].target.StartupParam? then LastParam(ps, update, fields, fields[i].name) == Some(fields[i])
            else LastFor(ps, update, fields, fields[i].target) == Some(fields[i])
    decreases |fields|
  {
    var n := |fields| - 1;
    if i < n {
      assert fields[..n][i] == fields[i];
      LastIs(ps, update, fields[..n], i);
      assert !SameSlot(fields[i], fields[n]);
    }
  }

  /** A field's value is in the form, under its own name. */
  predicate Arrived(ps: Parsers, form: ServerForm, f: FormField)
    requires f.value.Some?
  {
    var v := ps.trim(f.value.value);
    match f.target
    case Port => form.port == ps.port(v)
    case Instruction => form.instruction == Some(v)
    case Memory => form.memory == Some(v)
    case EventHandlers => form.handlers == ps.handlers(v)
    case Feedback => form.feedback == Some(v)
    case RemoteAddr => true
    case StartupParam(hint) => Get(Members(form.params), f.name) == ps.coerce(v, hint)
  }

  /** Every value that counts, and that no later field overrides, is in the form. */
  lemma FieldArrives(ps: Parsers, update: bool, protocol: string, fields: seq<FormField>, i: nat)
    requires ps.trim("") == "" && i < |fields| && Changed(ps, update, fields[i])
    requires Form(ps, update, protocol, fields).Some?
    requires forall j :: i < j < |fields| ==> !SameSlot(fields[i], fields[j])
    ensures Arrived(ps, Form(ps, update, protocol, fields).value, fields[i])
  {
    LastIs(ps, update, fields, i);
    FormExactly(ps, update, protocol, fields, fields[i].name);
    assert fields[i].value.Some?;
    hide Form, LastFor, LastParam, Changed, ParamChanged;
  }

  /** Whether a form sets the field of a target. */
  predicate Sets(f: ServerForm, t: Target) {
    match t
    case Port => f.port.Some?
    case Instruction => f.instruction.Some?
    case Memory => f.memory.Some?
    case EventHandlers => f.handlers.Some?
    case Feedback => f.feedback.Some?
    case _ => false
  }

  lemma {:induction false} LastChanged(ps: Parsers, update: bool, fields: seq<FormField>, t: Target)
    requires LastFor(ps, update, fields, t).Some?
    ensures exists i :: 0 <= i < |fields| && fields[i].target == t && Changed(ps, update, fields[i])
    decreases |fields|
  {
    var n := |fields| - 1;
    if !(fields[n].target == t && Changed(ps, update, fields[n])) {
      LastChanged(ps, update, fields[..n], t);
      var i :| 0 <= i < n && fields[..n][i].target == t && Changed(ps, update, fields[..n][i]);
      assert fields[i] == fields[..n][i];
    }
  }

  /** Nothing is in the form that was not submitted, not blank and changed. */
  lemma NothingElse(ps: Parsers, update: bool, protocol: string, fields: seq<FormField>, t: Target)
    requires ps.trim("") == "" && Form(ps, update, protocol, fields).Some?
    requires Sets(Form(ps, update, protocol, fields).value, t)
    ensures exists i :: 0 <= i < |fields| && fields[i].target == t && Changed(ps, update, fields[i])
  {
    FormExactly(ps, update, protocol, fields, "");
    hide Form, LastParam, Changed, ParamChanged;
    assert LastFor(ps, update, fields, t).Some?;
    LastChanged(ps, update, fields, t);
  }

  /** A form can be assembled exactly when every value that counts can be read. */
  lemma FormIff(ps: Parsers, update: bool, protocol: string, fields: seq<FormField>)
    requires ps.trim("") == ""
    ensures Form(ps, update, protocol, fields).Some? <==> AllParse(ps, update, fields)
  {
    FilledIs(ps, update, protocol, fields, "");
  }

  /**
   The update a form asks for restarts the server exactly when the port or some startup
   parameter was submitted, not blank, and different from its prefill.
   */
  lemma RestartIff(ps: Parsers, update: bool, protocol: string, fields: seq<FormField>)
    requires ps.trim("") == "" && Form(ps, update, protocol, fields).Some?
    ensures NeedsRestart(Form(ps, update, protocol, fields).value)
            <==> PortChanged(ps, update, fields) || AnyParamChanged(ps, update, fields)
  {
    FilledIs(ps, update, protocol, fields, "");
    var w := Filled(ps, update, protocol, fields).value;
    forall k | k in w.params ensures AnyParamChanged(ps, update, fields) {
      FilledIs(ps, update, protocol, fields, k);
      var i :| 0 <= i < |fields| && fields[i].target.StartupParam? && fields[i].name == k && Changed(ps, update, fields[i]);
    }
    if AnyParamChanged(ps, update, fields) {
      var i :| 0 <= i < |fields| && fields[i].target.StartupParam? && Changed(ps, update, fields[i]);
      FilledIs(ps, update, protocol, fields, fields[i].name);
      assert ParamChanged(ps, update, fields, fields[i].name);
      assert fields[i].name in w.params;
    }
    hide Filled, Changed;
    assert w.params != map[] ==> exists k :: k in w.params by {
      if forall k :: k !in w.params {
        assert w.params == map[];
      }
    }
  }

  /** And so does the whole update, once its checks pass: otherwise the server keeps running as it is. */
  lemma InteractiveUpdateRestarts(
    ps: Parsers, rules: Rules, s: State, id: nat, fields: seq<FormField>, protocol: string, files: Files, m: Machine)
    requires ps.trim("") == "" && Form(ps, true, protocol, fields).Some?
    requires Updated(rules, s, id, Form(ps, true, protocol, fields).value, files, m).1.Success?
    ensures Updated(rules, s, id, Form(ps, true, protocol, fields).value, files, m).1.value.restarted
            <==> PortChanged(ps, true, fields) || AnyParamChanged(ps, true, fields)
  {
    hide Filled, Form, Check, Patched, Started, PortChanged, AnyParamChanged;
    RestartIff(ps, true, protocol, fields);
  }
}
