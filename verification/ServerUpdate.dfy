/**
 Updating a running server (src/cli/management.rs): what is checked before anything is changed,
 what is changed in place, and the stop and start that the other changes need
 (src/cli/server_startup.rs). Here an update runs by itself; ServerUpdateRuns lets updates meet.
 */
module ServerUpdate {
  import opened Wrappers
  import opened Composer
  import JsonBudget

  type Id = nat

  const MAX_HISTORY_ENTRIES := 500

  /** What a server was told to listen on, besides its port. */
  datatype Binding = Binding(host: Option<string>, iface: Option<string>, mac: Option<string>)

  datatype Server = Server(
    protocol: string, port: nat, binding: Binding, instruction: string, memory: string, params: Option<Json>,
    handlers: Option<seq<Json>>, feedback: Option<string>, history: nat, batching: bool)

  datatype ServerForm = ServerForm(
    protocol: string, port: Option<nat>, host: Option<string>, iface: Option<string>, mac: Option<string>,
    params: Option<Json>, instruction: Option<string>, memory: Option<string>, handlers: Option<seq<Json>>,
    feedback: Option<string>, history: Option<nat>, batching: Option<bool>, tasks: Option<seq<string>>,
    sendFirst: bool)

  const NoForm := ServerForm("", None, None, None, None, None, None, None, None, None, None, None, None, false)

  /**
   Parsers, budgets, schemas and the registry: anything at all. `fits` and `shapeOk` are the
   budget and the schema.
   */
  datatype Rules = Rules(
    fits: Json -> bool,
    fitsTogether: (Option<Json>, Json) -> bool,
    shapeOk: (Json, string) -> bool,
    sameName: (string, string) -> bool,
    available: string -> bool,
    tasksOk: seq<string> -> bool,
    handlersOk: seq<Json> -> bool,
    batches: string -> bool,
    hasSendFirst: string -> bool)

  /** Whether the certificate files that parameters name can be read, at some moment. */
  type Files = (Json, string) -> bool

  /** What the machine answers to one start: mature enough a protocol, its files, allowed, and it came up. */
  datatype Machine = Machine(mature: bool, files: Files, permitted: bool, spawns: bool)

  datatype State = State(servers: map<Id, Server>, nextId: nat, tasks: seq<(Id, string)>)

  datatype Outcome = Outcome(id: Id, restarted: bool)

  datatype Error =
    | NotFound | OverBudget | ProtocolChanged | Unavailable | BadTasks | BadParams | BadHandlers
    | BadConversation | TooUnstable | NotPermitted | SpawnFailed

  // ---- merging --------------------------------------------------------------------------

  function Members(v: Option<Json>): map<string, Json> {
    if v.Some? && v.value.Obj? then v.value.members else map[]
  }

  /** The overlay's keys win, every other key is kept, nothing else appears. */
  function MergeParams(rules: Rules, base: Option<Json>, overlay: Json): (r: Option<Json>)
    ensures r.Some? <==> rules.fitsTogether(base, overlay) && overlay.Obj?
    ensures r.Some? ==>
              && r.value.Obj?
              && (forall k :: k in r.value.members <==> k in overlay.members || k in Members(base))
              && (forall k :: k in overlay.members ==> r.value.members[k] == overlay.members[k])
              && (forall k :: k in Members(base) && k !in overlay.members ==> r.value.members[k] == Members(base)[k])
  {
    if rules.fitsTogether(base, overlay) && overlay.Obj? then Some(Obj(Members(base) + overlay.members)) else None
  }

  predicate NeedsRestart(f: ServerForm) {
    f.port.Some? || f.host.Some? || f.iface.Some? || f.mac.Some? || f.params.Some?
  }

  function Or<T>(a: Option<T>, b: T): T {
    if a.Some? then a.value else b
  }

  // ---- the checks -----------------------------------------------------------------------

  predicate Oversized(rules: Rules, params: Option<Json>) {
    params.Some? && !rules.fits(params.value)
  }

  predicate ParamsPass(rules: Rules, files: Files, params: Json, protocol: string) {
    params.Obj? && rules.fits(params) && rules.shapeOk(params, protocol) && files(params, protocol)
  }

  predicate HandlersPass(rules: Rules, handlers: Option<seq<Json>>) {
    handlers.Some? ==> rules.handlersOk(handlers.value)
  }

  predicate Talks(rules: Rules, history: nat, batching: bool, protocol: string) {
    history <= MAX_HISTORY_ENTRIES && (batching ==> rules.batches(protocol))
  }

  /** The parameters that would take effect. */
  function Merged(rules: Rules, c: Server, f: ServerForm): Option<Option<Json>> {
    if f.params == None then Some(c.params)
    else
      var m := MergeParams(rules, c.params, f.params.value);
      if m == None then None else Some(m)
  }

  /** The checks, in order, on a server that was found and whose parameters fit. */
  function Check(rules: Rules, files: Files, c: Server, f: ServerForm): Option<Error> {
    if f.protocol != "" && !rules.sameName(f.protocol, c.protocol) then Some(ProtocolChanged)
    else if !rules.available(c.protocol) then Some(Unavailable)
    else if f.tasks.Some? && !rules.tasksOk(f.tasks.value) then Some(BadTasks)
    else if Merged(rules, c, f) == None then Some(BadParams)
    else if Merged(rules, c, f).value.Some? && !ParamsPass(rules, files, Merged(rules, c, f).value.value, c.protocol) then Some(BadParams)
    else if !HandlersPass(rules, f.handlers) then Some(BadHandlers)
    else if !Talks(rules, Or(f.history, c.history), Or(f.batching, c.batching), c.protocol) then Some(BadConversation)
    else None
  }

  function Readable(v: Json, protocol: string): bool {
    true
  }

  /** Everything but the files is in order. */
  predicate Accepts(rules: Rules, c: Server, f: ServerForm) {
    Check(rules, Readable, c, f) == None
  }

  lemma CheckAccepts(rules: Rules, files: Files, c: Server, f: ServerForm)
    requires Check(rules, files, c, f) == None
    ensures Accepts(rules, c, f) && Merged(rules, c, f).Some?
  {
  }

  // ---- what an update does --------------------------------------------------------------

  /** The form's first two fields, which are written before its handlers are read again. */
  function Halfway(c: Server, f: ServerForm): Server {
    c.(instruction := Or(f.instruction, c.instruction), memory := Or(f.memory, c.memory))
  }

  /** The server with the form's fields over its own, where it stands. */
  function Patched(c: Server, f: ServerForm): Server {
    Halfway(c, f).(handlers := if f.handlers.Some? then f.handlers else c.handlers,
                   feedback := if f.feedback.Some? then f.feedback else c.feedback,
                   history := Or(f.history, c.history),
                   batching := Or(f.batching, c.batching))
  }

  /** How far the writes in place get: handlers that do not parse stop them midway. */
  function Hot(rules: Rules, c: Server, f: ServerForm): (Server, Option<Error>) {
    if HandlersPass(rules, f.handlers) then (Patched(c, f), None) else (Halfway(c, f), Some(BadHandlers))
  }

  function TasksFor(id: Id, tasks: Option<seq<string>>): (r: seq<(Id, string)>)
    ensures tasks == None ==> r == []
    ensures tasks.Some? ==> |r| == |tasks.value| && forall i :: 0 <= i < |r| ==> r[i] == (id, tasks.value[i])
  {
    if tasks == None then [] else seq(|tasks.value|, i requires 0 <= i < |tasks.value| => (id, tasks.value[i]))
  }

  function Without(tasks: seq<(Id, string)>, id: Id): seq<(Id, string)> {
    if tasks == [] then []
    else (if tasks[0].0 == id then [] else [tasks[0]]) + Without(tasks[1..], id)
  }

  function RemoveServer(s: State, id: Id): State {
    s.(servers := s.servers - {id}, tasks := Without(s.tasks, id))
  }

  function AddServer(s: State, v: Server): State {
    s.(servers := s.servers[s.nextId := v], nextId := s.nextId + 1)
  }

  // ---- starting a server ----------------------------------------------------------------

  datatype Launch = Launch(
    protocol: string, port: nat, binding: Binding, instruction: string, memory: Option<string>, params: Option<Json>,
    handlers: Option<seq<Json>>, feedback: Option<string>, history: nat, batching: bool, tasks: Option<seq<string>>,
    sendFirst: bool)

  /** `send_first` becomes a parameter where the protocol has one and none was given. */
  function Folded(rules: Rules, l: Launch): Option<Option<Json>> {
    if !l.sendFirst || !rules.hasSendFirst(l.protocol) then Some(l.params)
    else if l.params.Some? && !l.params.value.Obj? then None
    else if "send_first" in Members(l.params) then Some(l.params)
    else Some(Some(Obj(Members(l.params)["send_first" := Bool(true)])))
  }

  /** Parameters that fit the budget and the schema, `None` standing for no parameters at all. */
  predicate Fitting(rules: Rules, params: Option<Json>, protocol: string) {
    var v := Or(params, Obj(map[]));
    v.Obj? && rules.fits(v) && rules.shapeOk(v, protocol)
  }

  /** Parameters a server can be started with: their files can be read too. */
  predicate Startable(rules: Rules, files: Files, params: Option<Json>, protocol: string) {
    Fitting(rules, params, protocol) && (params.Some? ==> files(params.value, protocol))
  }

  /** The checks before anything is registered, in order. */
  function StartCheck(rules: Rules, l: Launch, m: Machine): Option<Error> {
    if Oversized(rules, l.params) then Some(OverBudget)
    else if l.tasks.Some? && !rules.tasksOk(l.tasks.value) then Some(BadTasks)
    else if !rules.available(l.protocol) then Some(Unavailable)
    else if !Talks(rules, l.history, l.batching, l.protocol) then Some(BadConversation)
    else if !m.mature then Some(TooUnstable)
    else if Folded(rules, l) == None then Some(BadParams)
    else if Oversized(rules, Folded(rules, l).value) then Some(OverBudget)
    else if !Startable(rules, m.files, Folded(rules, l).value, l.protocol) then Some(BadParams)
    else if !m.permitted then Some(NotPermitted)
    else if !HandlersPass(rules, l.handlers) then Some(BadHandlers)
    else None
  }

  function Launched(rules: Rules, l: Launch): Server
    requires Folded(rules, l).Some?
  {
    Server(l.protocol, l.port, l.binding, l.instruction, Or(l.memory, ""), Folded(rules, l).value, l.handlers, l.feedback,
           l.history, l.batching)
  }

  /** A start, to the end: a server that does not come up is removed again, its number spent. */
  function Started(rules: Rules, s: State, l: Launch, m: Machine): (State, Result<Id, Error>) {
    var error := StartCheck(rules, l, m);
    if error.Some? then (s, Failure(error.value))
    else
      var s' := AddServer(s, Launched(rules, l));
      var s'' := s'.(tasks := s'.tasks + TasksFor(s.nextId, l.tasks));
      if m.spawns then (s'', Success(s.nextId)) else (RemoveServer(s'', s.nextId), Failure(SpawnFailed))
  }

  function FormBinding(f: ServerForm): Binding {
    Binding(f.host, f.iface, f.mac)
  }

  /** What the old server is started again with: of the binding, only what the form gives. */
  function Relaunch(rules: Rules, c: Server, f: ServerForm): Launch
    requires Merged(rules, c, f).Some?
  {
    Launch(c.protocol, Or(f.port, c.port), FormBinding(f), Or(f.instruction, c.instruction),
           if f.memory.Some? then f.memory else if c.memory != "" then Some(c.memory) else None,
           Merged(rules, c, f).value,
           if f.handlers.Some? then f.handlers else c.handlers,
           if f.feedback.Some? then f.feedback else c.feedback,
           Or(f.history, c.history), Or(f.batching, c.batching), f.tasks, f.sendFirst)
  }

  /** The state and the answer after an update; `files` is as it looks, `m` as it starts again. */
  function Updated(rules: Rules, s: State, id: Id, f: ServerForm, files: Files, m: Machine): (State, Result<Outcome, Error>) {
    if Oversized(rules, f.params) then (s, Failure(OverBudget))
    else if id !in s.servers then (s, Failure(NotFound))
    else if Oversized(rules, s.servers[id].params) then
      (s.(servers := s.servers[id := s.servers[id].(params := None)]), Failure(OverBudget))
    else Applied(rules, s, id, f, files, m)
  }

  /** From the checks on. */
  function Applied(rules: Rules, s: State, id: Id, f: ServerForm, files: Files, m: Machine): (State, Result<Outcome, Error>)
    requires id in s.servers
  {
    var c := s.servers[id];
    var error := Check(rules, files, c, f);
    if error.Some? then (s, Failure(error.value))
    else if NeedsRestart(f) then
      var (s', r) := Started(rules, RemoveServer(s, id), Relaunch(rules, c, f), m);
      (s', if r.Success? then Success(Outcome(r.value, true)) else Failure(r.error))
    else InPlace(rules, s, id, f)
  }

  function InPlace(rules: Rules, s: State, id: Id, f: ServerForm): (State, Result<Outcome, Error>)
    requires id in s.servers
  {
    var (d, stopped) := Hot(rules, s.servers[id], f);
    var s' := s.(servers := s.servers[id := d]);
    if stopped.Some? then (s', Failure(stopped.value))
    else (s'.(tasks := s.tasks + TasksFor(id, f.tasks)), Success(Outcome(id, false)))
  }

  class Management {
    var servers: map<Id, Server>
    var nextId: nat
    var tasks: seq<(Id, string)>

    function Now(): State
      reads this
    {
      State(servers, nextId, tasks)
    }

    method UpdateServer(rules: Rules, id: Id, form: ServerForm, files: Files, machine: Machine) returns (r: Result<Outcome, Error>)
      modifies this
      ensures (Now(), r) == Updated(rules, old(Now()), id, form, files, machine)
    {
      if form.params.Some? && !rules.fits(form.params.value) {
        return Failure(OverBudget);
      }
      if id !in servers {
        return Failure(NotFound);
      }
      // The stored parameters are checked too, and dropped where they stand if they are too large.
      if servers[id].params.Some? && !rules.fits(servers[id].params.value) {
        servers := servers[id := servers[id].(params := None)];
        return Failure(OverBudget);
      }
      r := Apply(rules, id, form, files, machine);
    }

    /** Everything is checked before anything is changed. */
    method Apply(rules: Rules, id: Id, form: ServerForm, files: Files, machine: Machine) returns (r: Result<Outcome, Error>)
      requires id in servers
      modifies this
      ensures (Now(), r) == Applied(rules, old(Now()), id, form, files, machine)
    {
      var current := servers[id];
      if form.protocol != "" && !rules.sameName(form.protocol, current.protocol) {
        return Failure(ProtocolChanged);
      }
      if !rules.available(current.protocol) {
        return Failure(Unavailable);
      }
      if form.tasks.Some? && !rules.tasksOk(form.tasks.value) {
        return Failure(BadTasks);
      }
      var merged := current.params;
      if form.params.Some? {
        merged := MergeParams(rules, current.params, form.params.value);
        if merged == None {
          return Failure(BadParams);
        }
      }
      if merged.Some? && !ParamsPass(rules, files, merged.value, current.protocol) {
        return Failure(BadParams);
      }
      if form.handlers.Some? && !rules.handlersOk(form.handlers.value) {
        return Failure(BadHandlers);
      }
      var history, batching := Or(form.history, current.history), Or(form.batching, current.batching);
      if history > MAX_HISTORY_ENTRIES || (batching && !rules.batches(current.protocol)) {
        return Failure(BadConversation);
      }
      assert Check(rules, files, current, form) == None;
      if NeedsRestart(form) {
        r := Restart(rules, id, current, form, merged, history, batching, machine);
      } else {
        r := UpdateInPlace(rules, id, form, history, batching);
      }
    }

    method Restart(rules: Rules, id: Id, current: Server, form: ServerForm, merged: Option<Json>, history: nat, batching: bool,
                   machine: Machine)
      returns (r: Result<Outcome, Error>)
      requires Merged(rules, current, form) == Some(merged)
      requires history == Or(form.history, current.history) && batching == Or(form.batching, current.batching)
      modifies this
      ensures var (s', got) := Started(rules, RemoveServer(old(Now()), id), Relaunch(rules, current, form), machine);
              && Now() == s'
              && r == if got.Success? then Success(Outcome(got.value, true)) else Failure(got.error)
    {
      var memory := if form.memory.Some? then form.memory else if current.memory != "" then Some(current.memory) else None;
      servers := servers - {id};
      tasks := Without(tasks, id);
      var launch := Launch(
        current.protocol, Or(form.port, current.port), FormBinding(form), Or(form.instruction, current.instruction), memory, merged,
        if form.handlers.Some? then form.handlers else current.handlers,
        if form.feedback.Some? then form.feedback else current.feedback, history, batching, form.tasks, form.sendFirst);
      var started := StartServer(rules, launch, machine);
      if started.Failure? {
        return Failure(started.error);
      }
      return Success(Outcome(started.value, true));
    }

    /** `start_server_from_action`: registered with no memory and no handlers, which come next. */
    method StartServer(rules: Rules, launch: Launch, machine: Machine) returns (r: Result<Id, Error>)
      modifies this
      ensures (Now(), r) == Started(rules, old(Now()), launch, machine)
    {
      var error := StartCheck(rules, launch, machine);
      if error.Some? {
        return Failure(error.value);
      }
      var id := nextId;
      ghost var before := servers;
      servers := servers[id := Launched(rules, launch.(memory := None, handlers := None))];
      nextId := nextId + 1;
      if launch.memory.Some? {
        Put(id, servers[id].(memory := launch.memory.value), before);
      }
      if launch.handlers.Some? {
        Put(id, servers[id].(handlers := launch.handlers), before);
      }
      tasks := tasks + TasksFor(id, launch.tasks);
      assert servers == before[id := Launched(rules, launch)];
      if !machine.spawns {
        servers := servers - {id};
        tasks := Without(tasks, id);
        return Failure(SpawnFailed);
      }
      return Success(id);
    }

    /** The hot path: one field at a time, its handlers parsed again on the way. */
    method UpdateInPlace(rules: Rules, id: Id, form: ServerForm, history: nat, batching: bool) returns (r: Result<Outcome, Error>)
      requires id in servers
      requires history == Or(form.history, servers[id].history) && batching == Or(form.batching, servers[id].batching)
      modifies this
      ensures (Now(), r) == InPlace(rules, old(Now()), id, form)
    {
      SetTexts(id, form);
      if form.handlers.Some? && !rules.handlersOk(form.handlers.value) {
        return Failure(BadHandlers);
      }
      SetRest(id, form, history, batching);
      assert servers == old(servers)[id := Patched(old(servers[id]), form)];
      tasks := tasks + TasksFor(id, form.tasks);
      return Success(Outcome(id, false));
    }

    method SetTexts(id: Id, form: ServerForm)
      requires id in servers
      modifies this`servers
      ensures servers == old(servers)[id := Halfway(old(servers[id]), form)]
    {
      ghost var before := servers;
      assert servers == before[id := servers[id]];
      if form.instruction.Some? {
        Put(id, servers[id].(instruction := form.instruction.value), before);
      }
      if form.memory.Some? {
        Put(id, servers[id].(memory := form.memory.value), before);
      }
    }

    method SetRest(id: Id, form: ServerForm, history: nat, batching: bool)
      requires id in servers
      requires history == Or(form.history, servers[id].history) && batching == Or(form.batching, servers[id].batching)
      modifies this`servers
      ensures servers == old(servers)[id := old(servers[id]).(
                handlers := if form.handlers.Some? then form.handlers else old(servers[id]).handlers,
                feedback := if form.feedback.Some? then form.feedback else old(servers[id]).feedback,
                history := history, batching := batching)]
    {
      ghost var before := servers;
      assert servers == before[id := servers[id]];
      if form.handlers.Some? {
        Put(id, servers[id].(handlers := form.handlers), before);
      }
      if form.feedback.Some? {
        Put(id, servers[id].(feedback := form.feedback), before);
      }
      if form.history.Some? || form.batching.Some? {
        Put(id, servers[id].(history := history, batching := batching), before);
      }
    }

    /** `with_server_mut`: one server changed where it stands. */
    method Put(id: Id, v: Server, ghost before: map<Id, Server>)
      requires id in servers && servers == before[id := servers[id]]
      modifies this`servers
      ensures servers == before[id := v]
    {
      servers := servers[id := v];
    }
  }

  // ---- what every operation keeps -------------------------------------------------------

  /** What a running server was checked for when it was started. Its certificate files may have gone since. */
  predicate Sound(rules: Rules, v: Server) {
    && rules.available(v.protocol) && Fitting(rules, v.params, v.protocol)
    && HandlersPass(rules, v.handlers) && Talks(rules, v.history, v.batching, v.protocol)
  }

  predicate AllSound(rules: Rules, s: State) {
    forall id :: id in s.servers ==> Sound(rules, s.servers[id])
  }

  /** Numbers are not given out twice. */
  predicate Numbered(s: State) {
    && (forall id :: id in s.servers ==> id < s.nextId)
    && (forall t :: t in s.tasks ==> t.0 < s.nextId)
  }

  lemma {:induction false} WithoutIs(tasks: seq<(Id, string)>, id: Id)
    ensures forall t :: t in Without(tasks, id) <==> t in tasks && t.0 != id
    decreases |tasks|
  {
    if tasks != [] {
      WithoutIs(tasks[1..], id);
      assert forall t :: t in tasks <==> t == tasks[0] || t in tasks[1..];
    }
  }

  lemma {:induction false} WithoutAppended(tasks: seq<(Id, string)>, more: seq<(Id, string)>, id: Id)
    requires forall t :: t in tasks ==> t.0 != id
    requires forall t :: t in more ==> t.0 == id
    ensures Without(tasks + more, id) == tasks
    decreases |tasks| + |more|
  {
    if tasks != [] {
      assert (tasks + more)[1..] == tasks[1..] + more;
      assert tasks[0] in tasks;
      WithoutAppended(tasks[1..], more, id);
    } else if more != [] {
      assert tasks + more == more && more[0] in more;
      WithoutAppended([], more[1..], id);
      assert [] + more[1..] == more[1..];
    }
  }

  lemma RemovalKeeps(rules: Rules, s: State, id: Id)
    requires Numbered(s) && AllSound(rules, s)
    ensures Numbered(RemoveServer(s, id)) && AllSound(rules, RemoveServer(s, id))
  {
    WithoutIs(s.tasks, id);
    hide Sound, Without;
  }

  /** A start that fails leaves everything as it was, but for a number once one was given out. */
  lemma FailedStart(rules: Rules, s: State, l: Launch, m: Machine)
    requires Numbered(s) && Started(rules, s, l, m).1.Failure?
    ensures Started(rules, s, l, m).0 ==
            if Started(rules, s, l, m).1.error == SpawnFailed then s.(nextId := s.nextId + 1) else s
  {
    if StartCheck(rules, l, m) == None {
      WithoutAppended(s.tasks, TasksFor(s.nextId, l.tasks), s.nextId);
      hide StartCheck, Without;
      assert s.servers[s.nextId := Launched(rules, l)] - {s.nextId} == s.servers;
    }
  }

  lemma StartKeeps(rules: Rules, s: State, l: Launch, m: Machine)
    requires Numbered(s) && AllSound(rules, s)
    ensures Numbered(Started(rules, s, l, m).0) && AllSound(rules, Started(rules, s, l, m).0)
  {
    if Started(rules, s, l, m).1.Failure? {
      FailedStart(rules, s, l, m);
      hide Started;
    } else {
      assert Sound(rules, Launched(rules, l));
      hide StartCheck, Sound, Launched;
    }
  }

  lemma PatchKeeps(rules: Rules, files: Files, c: Server, f: ServerForm)
    requires Sound(rules, c) && Check(rules, files, c, f) == None
    ensures Sound(rules, Patched(c, f))
  {
  }

  /** Every update leaves only sound servers: in particular none whose parameters are too large. */
  lemma UpdateKeeps(rules: Rules, s: State, id: Id, f: ServerForm, files: Files, m: Machine)
    requires Numbered(s) && AllSound(rules, s)
    ensures Numbered(Updated(rules, s, id, f, files, m).0) && AllSound(rules, Updated(rules, s, id, f, files, m).0)
  {
    if id in s.servers && Check(rules, files, s.servers[id], f) == None {
      var c := s.servers[id];
      assert Sound(rules, c);
      if NeedsRestart(f) {
        RemovalKeeps(rules, s, id);
        StartKeeps(rules, RemoveServer(s, id), Relaunch(rules, c, f), m);
      } else {
        PatchKeeps(rules, files, c, f);
        assert Hot(rules, c, f) == (Patched(c, f), None);
      }
      hide Check, Sound, Started, Relaunch, RemoveServer, Patched, Hot;
    }
  }

  // ---- all or nothing -------------------------------------------------------------------

  /** The update reaches the old server's removal. */
  predicate Removes(rules: Rules, s: State, id: Id, f: ServerForm, files: Files) {
    && !Oversized(rules, f.params) && id in s.servers
    && Check(rules, files, s.servers[id], f) == None && NeedsRestart(f)
  }

  /** An update refused before the removal changes nothing. */
  lemma RefusedChangesNothing(rules: Rules, s: State, id: Id, f: ServerForm, files: Files, m: Machine)
    requires AllSound(rules, s)
    requires Updated(rules, s, id, f, files, m).1.Failure? && !Removes(rules, s, id, f, files)
    ensures Updated(rules, s, id, f, files, m).0 == s
  {
    if id in s.servers {
      assert Sound(rules, s.servers[id]);
      if Check(rules, files, s.servers[id], f) == None {
        assert HandlersPass(rules, f.handlers);
      }
    }
    hide Check, Patched;
  }

  /**
   That is the first parse's doing. Past all the other checks, the writes alone fail with the
   server changed exactly when the handlers do not parse and a field before them is new.
   */
  lemma WithoutTheFirstParse(rules: Rules, s: State, id: Id, f: ServerForm, files: Files)
    requires id in s.servers && !NeedsRestart(f)
    requires Check(rules.(handlersOk := (h: seq<Json>) => true), files, s.servers[id], f) == None
    ensures var c := s.servers[id];
            InPlace(rules, s, id, f).1.Failure? && InPlace(rules, s, id, f).0 != s
            <==> && f.handlers.Some? && !rules.handlersOk(f.handlers.value)
                 && (Or(f.instruction, c.instruction) != c.instruction || Or(f.memory, c.memory) != c.memory)
    ensures Check(rules, files, s.servers[id], f) ==
            if f.handlers.Some? && !rules.handlersOk(f.handlers.value) then Some(BadHandlers) else None
  {
    var c := s.servers[id];
    var loose := rules.(handlersOk := (h: seq<Json>) => true);
    assert Merged(loose, c, f) == Merged(rules, c, f);
    assert s.servers[id := Halfway(c, f)][id] == Halfway(c, f);
    assert s.servers[id := c] == s.servers;
  }

  /**
   What a form asks for that its own server cannot have; and the certificate files of the
   parameters it leaves alone, which are read again. These are all the refusals there are.
   */
  lemma OwnFieldsRefuse(rules: Rules, files: Files, c: Server, f: ServerForm)
    requires Sound(rules, c)
    ensures Check(rules, files, c, f) == None
            <==> && (f.protocol == "" || rules.sameName(f.protocol, c.protocol))
                 && (f.tasks.Some? ==> rules.tasksOk(f.tasks.value))
                 && (f.params.Some? ==>
                       && f.params.value.Obj? && rules.fitsTogether(c.params, f.params.value)
                       && ParamsPass(rules, files, Obj(Members(c.params) + f.params.value.members), c.protocol))
                 && (f.params == None && c.params.Some? ==> files(c.params.value, c.protocol))
                 && (f.handlers.Some? ==> rules.handlersOk(f.handlers.value))
                 && (f.history.Some? ==> f.history.value <= MAX_HISTORY_ENTRIES)
                 && (f.batching == Some(true) ==> rules.batches(c.protocol))
  {
  }

  /** Nobody else's configuration or tasks are ever touched. */
  lemma OthersUntouched(rules: Rules, s: State, id: Id, f: ServerForm, files: Files, m: Machine, other: Id, t: (Id, string))
    requires Numbered(s) && other != id && other < s.nextId && t.0 == other
    ensures var s' := Updated(rules, s, id, f, files, m).0;
            && (other in s'.servers <==> other in s.servers)
            && (other in s.servers ==> s'.servers[other] == s.servers[other])
            && (t in s'.tasks <==> t in s.tasks)
  {
    WithoutIs(s.tasks, id);
    if Removes(rules, s, id, f, files) {
      WithoutIs(RemoveServer(s, id).tasks + TasksFor(s.nextId, f.tasks), s.nextId);
    }
    hide Check, StartCheck, Patched, Halfway, Without;
    assert t !in TasksFor(id, f.tasks) && t !in TasksFor(s.nextId, f.tasks);
  }

  /**
   An update that passes its checks and needs no restart cannot fail: it keeps the id, the port
   and the parameters, changes exactly the fields the form gives, and adds its tasks.
   */
  lemma HotUpdateKeeps(rules: Rules, s: State, id: Id, f: ServerForm, files: Files, m: Machine)
    requires AllSound(rules, s) && id in s.servers
    requires Check(rules, files, s.servers[id], f) == None && !NeedsRestart(f)
    ensures Updated(rules, s, id, f, files, m).1 == Success(Outcome(id, false))
    ensures var s' := Updated(rules, s, id, f, files, m).0;
            var c := s.servers[id];
            && s'.servers.Keys == s.servers.Keys && s'.nextId == s.nextId
            && s'.tasks == s.tasks + TasksFor(id, f.tasks)
            && s'.servers[id] == Server(c.protocol, c.port, c.binding, Or(f.instruction, c.instruction), Or(f.memory, c.memory), c.params,
                                        if f.handlers.Some? then f.handlers else c.handlers,
                                        if f.feedback.Some? then f.feedback else c.feedback,
                                        Or(f.history, c.history), Or(f.batching, c.batching))
  {
    assert Sound(rules, s.servers[id]);
    assert HandlersPass(rules, f.handlers);
    hide Check, Sound;
  }

  /**
   A restart gives the old id up, and its tasks. If the new server comes up it has a fresh id,
   the form's tasks, the merged parameters and everything else the form did not override; if
   not, the old one is gone, and a number with it once one was given out.
   */
  lemma RestartReplaces(rules: Rules, s: State, id: Id, f: ServerForm, files: Files, m: Machine)
    requires Numbered(s) && AllSound(rules, s) && Removes(rules, s, id, f, files)
    ensures var (s', r) := Updated(rules, s, id, f, files, m);
            var (c, without, l) := (s.servers[id], RemoveServer(s, id), Relaunch(rules, s.servers[id], f));
            if StartCheck(rules, l, m).Some? then s' == without && r == Failure(StartCheck(rules, l, m).value)
            else if !m.spawns then s' == without.(nextId := s.nextId + 1) && r == Failure(SpawnFailed)
            else
              && r == Success(Outcome(s.nextId, true))
              && s'.nextId == s.nextId + 1
              && s'.tasks == without.tasks + TasksFor(s.nextId, f.tasks)
              && s'.servers == without.servers[s.nextId :=
                   Server(c.protocol, Or(f.port, c.port), FormBinding(f), Or(f.instruction, c.instruction), Or(f.memory, c.memory),
                          Folded(rules, l).value,
                          if f.handlers.Some? then f.handlers else c.handlers,
                          if f.feedback.Some? then f.feedback else c.feedback,
                          Or(f.history, c.history), Or(f.batching, c.batching))]
  {
    var l := Relaunch(rules, s.servers[id], f);
    assert Sound(rules, s.servers[id]);
    RemovalKeeps(rules, s, id);
    hide Check, StartCheck, Sound, Without;
    if Started(rules, RemoveServer(s, id), l, m).1.Failure? {
      FailedStart(rules, RemoveServer(s, id), l, m);
    }
  }

  predicate GivesParams(given: Option<Json>, params: Option<Json>) {
    given.Some? ==> given.value.Obj? && forall k :: k in given.value.members ==> Get(Members(params), k) == Some(given.value.members[k])
  }

  /**
   After every update that succeeds, the server under the id it returns has whatever the form
   gives. The update keeps the id, the port, the binding and the parameters exactly if the form
   gives none of these.
   */
  lemma UpdateGives(rules: Rules, s: State, id: Id, f: ServerForm, files: Files, m: Machine)
    requires Numbered(s) && AllSound(rules, s) && Updated(rules, s, id, f, files, m).1.Success?
    ensures var (s', r) := Updated(rules, s, id, f, files, m);
            && id in s.servers && r.value.id in s'.servers
            && var (c, d) := (s.servers[id], s'.servers[r.value.id]);
            && (f.port.Some? ==> d.port == f.port.value)
            && (f.host.Some? ==> d.binding.host == f.host)
            && (f.iface.Some? ==> d.binding.iface == f.iface)
            && (f.mac.Some? ==> d.binding.mac == f.mac)
            && GivesParams(f.params, d.params)
            && (f.instruction.Some? ==> d.instruction == f.instruction.value)
            && (f.memory.Some? ==> d.memory == f.memory.value)
            && (f.handlers.Some? ==> d.handlers == f.handlers)
            && (f.feedback.Some? ==> d.feedback == f.feedback)
            && (f.history.Some? ==> d.history == f.history.value) && d.history <= 500
            && (f.batching.Some? ==> d.batching == f.batching.value)
            && (f.tasks.Some? ==> forall n :: 0 <= n < |f.tasks.value| ==> (r.value.id, f.tasks.value[n]) in s'.tasks)
            && (!r.value.restarted <==> f.port == None && f.host == None && f.iface == None && f.mac == None && f.params == None)
            && (!r.value.restarted ==> r.value.id == id && (d.port, d.binding, d.params) == (c.port, c.binding, c.params))
            && (r.value.restarted ==> id !in s'.servers)
  {
    var c := s.servers[id];
    assert Sound(rules, c);
    var (s', r) := Updated(rules, s, id, f, files, m);
    if Removes(rules, s, id, f, files) {
      RestartReplaces(rules, s, id, f, files, m);
      RestartGives(rules, files, c, f);
    } else {
      HotUpdateKeeps(rules, s, id, f, files, m);
    }
    hide Check, StartCheck, Sound, AllSound, Numbered, Folded, Without, Relaunch, Patched, Hot;
    forall n | f.tasks.Some? && 0 <= n < |f.tasks.value| ensures (r.value.id, f.tasks.value[n]) in s'.tasks {
      assert TasksFor(r.value.id, f.tasks)[n] == (r.value.id, f.tasks.value[n]);
    }
  }

  /** A server's parameters with the form's over them. */
  function Overlaid(c: Server, f: ServerForm): Option<Json> {
    if f.params == None then c.params else Some(Obj(Members(c.params) + Members(f.params)))
  }

  /** The same, as a restart adds `send_first` to them. */
  function Restartable(rules: Rules, c: Server, f: ServerForm): Option<Json> {
    var given := Members(Overlaid(c, f));
    if f.sendFirst && rules.hasSendFirst(c.protocol) && "send_first" !in given
    then Some(Obj(given["send_first" := Bool(true)]))
    else Overlaid(c, f)
  }

  predicate Usable(rules: Rules, files: Files, params: Option<Json>, protocol: string) {
    params.Some? ==>
      params.value.Obj? && rules.fits(params.value) && rules.shapeOk(params.value, protocol) && files(params.value, protocol)
  }

  /** Nothing is wrong with what the form asks of this server. */
  predicate InOrder(rules: Rules, files: Files, c: Server, f: ServerForm) {
    && (f.protocol == "" || rules.sameName(f.protocol, c.protocol))
    && (f.tasks.Some? ==> rules.tasksOk(f.tasks.value))
    && (f.handlers.Some? ==> rules.handlersOk(f.handlers.value))
    && (f.history.Some? ==> f.history.value <= 500)
    && (f.batching == Some(true) ==> rules.batches(c.protocol))
    && (f.params.Some? ==> f.params.value.Obj? && rules.fits(f.params.value) && rules.fitsTogether(c.params, f.params.value))
    && Usable(rules, files, Overlaid(c, f), c.protocol)
  }

  /**
   An update of a running server succeeds exactly if the server is there, what the form asks of
   it is in order, and, if the form gives a port, a binding or parameters, the server can be
   started again with them.
   */
  lemma SucceedsIff(rules: Rules, s: State, id: Id, f: ServerForm, files: Files, m: Machine)
    requires AllSound(rules, s)
    ensures Updated(rules, s, id, f, files, m).1.Success? <==>
              && id in s.servers
              && var c := s.servers[id];
              && InOrder(rules, files, c, f)
              && (f.port.Some? || f.host.Some? || f.iface.Some? || f.mac.Some? || f.params.Some? ==>
                    m.mature && m.permitted && m.spawns && Usable(rules, m.files, Restartable(rules, c, f), c.protocol))
  {
    if id in s.servers {
      var c := s.servers[id];
      assert Sound(rules, c);
      CheckIff(rules, files, c, f);
      if Check(rules, files, c, f) == None {
        RestartIff(rules, files, c, f, m);
      }
      hide Check, StartCheck, Sound, InOrder, Restartable, Usable;
    }
  }

  lemma CheckIff(rules: Rules, files: Files, c: Server, f: ServerForm)
    requires Sound(rules, c)
    ensures !Oversized(rules, f.params) && Check(rules, files, c, f) == None <==> InOrder(rules, files, c, f)
    ensures !Oversized(rules, c.params)
  {
    if f.params.Some? && f.params.value.Obj? {
      assert Members(f.params) == f.params.value.members;
    }
  }

  lemma RestartIff(rules: Rules, files: Files, c: Server, f: ServerForm, m: Machine)
    requires Sound(rules, c) && Check(rules, files, c, f) == None
    ensures StartCheck(rules, Relaunch(rules, c, f), m) == None <==>
              m.mature && m.permitted && Usable(rules, m.files, Restartable(rules, c, f), c.protocol)
  {
    if f.params.Some? {
      assert Merged(rules, c, f).value == Some(Obj(Members(c.params) + f.params.value.members));
    }
  }

  lemma RestartGives(rules: Rules, files: Files, c: Server, f: ServerForm)
    requires Check(rules, files, c, f) == None && Folded(rules, Relaunch(rules, c, f)).Some?
    ensures GivesParams(f.params, Folded(rules, Relaunch(rules, c, f)).value)
  {
    if f.params.Some? {
      forall k | k in Members(f.params)
        ensures Get(Members(Folded(rules, Relaunch(rules, c, f)).value), k) == Some(f.params.value.members[k])
      {
        RestartParams(rules, files, c, f, k);
      }
    }
  }

  /** So what it was bound to is kept exactly if the form gives it again: what it does not mention is given up. */
  lemma BindingKeptIff(rules: Rules, s: State, id: Id, f: ServerForm, files: Files, m: Machine)
    requires Numbered(s) && AllSound(rules, s) && Removes(rules, s, id, f, files) && Updated(rules, s, id, f, files, m).1.Success?
    ensures var (s', r) := Updated(rules, s, id, f, files, m);
            && r.value.id in s'.servers
            && (s'.servers[r.value.id].binding == s.servers[id].binding <==> FormBinding(f) == s.servers[id].binding)
  {
    RestartReplaces(rules, s, id, f, files, m);
    hide Check, StartCheck, AllSound, Numbered, Updated, RemoveServer, Relaunch;
  }

  /** A restart that only moves the port loses an explicit host. */
  lemma HostIsGivenUp(rules: Rules, s: State, id: Id, port: nat, files: Files, m: Machine)
    requires Numbered(s) && AllSound(rules, s) && Removes(rules, s, id, NoForm.(port := Some(port)), files)
    requires s.servers[id].binding.host.Some? && Updated(rules, s, id, NoForm.(port := Some(port)), files, m).1.Success?
    ensures var (s', r) := Updated(rules, s, id, NoForm.(port := Some(port)), files, m);
            r.value.id in s'.servers && s'.servers[r.value.id].binding.host == None
  {
    RestartReplaces(rules, s, id, NoForm.(port := Some(port)), files, m);
    hide Check, StartCheck, AllSound, Numbered, Updated, RemoveServer, Relaunch;
  }

  /**
   Once the old server is gone the start checks everything again. Those checks cannot fail,
   but for what `send_first` adds to the parameters, files that have gone since, and what the
   machine allows.
   */
  lemma RestartChecksAgain(rules: Rules, c: Server, f: ServerForm, files: Files, m: Machine)
    requires Sound(rules, c) && Check(rules, files, c, f) == None
    ensures var l := Relaunch(rules, c, f);
            && Folded(rules, l).Some?
            && (StartCheck(rules, l, m) == None <==>
                  m.mature && m.permitted && Startable(rules, m.files, Folded(rules, l).value, c.protocol))
            && (!f.sendFirst || !rules.hasSendFirst(c.protocol) || "send_first" in Members(l.params) ==>
                  && Folded(rules, l).value == l.params
                  && (Startable(rules, m.files, l.params, c.protocol) <==> (l.params.Some? ==> m.files(l.params.value, c.protocol))))
  {
    var l := Relaunch(rules, c, f);
    assert rules.available(l.protocol) && Talks(rules, l.history, l.batching, l.protocol) && HandlersPass(rules, l.handlers);
    assert Fitting(rules, l.params, l.protocol);
    hide Talks, HandlersPass;
  }

  // ---- the budget -----------------------------------------------------------------------

  const STARTUP_LIMITS := JsonBudget.Limits(8 * 1024 * 1024, 65_536, 64)

  /** The source's budget, on any machine's sizes. */
  ghost predicate Budgeted(rules: Rules, ms: JsonBudget.Measure) {
    && (forall v :: rules.fits(v) <==> JsonBudget.Within(ms, [v], STARTUP_LIMITS))
    && (forall b, v :: rules.fitsTogether(b, v) <==> JsonBudget.Within(ms, (if b.Some? then [b.value] else []) + [v], STARTUP_LIMITS))
  }

  /** Parameters that fit together fit when merged. */
  lemma MergedFits(rules: Rules, ms: JsonBudget.Measure, base: Option<Json>, overlay: Json)
    requires Budgeted(rules, ms) && MergeParams(rules, base, overlay).Some?
    ensures rules.fits(MergeParams(rules, base, overlay).value)
  {
    hide JsonBudget.Within;
    var o := overlay.members;
    var both := (if base.Some? then [base.value] else []) + [overlay];
    assert rules.fitsTogether(base, overlay);
    assert JsonBudget.Within(ms, both, STARTUP_LIMITS);
    var merged := Obj(Members(base) + o);
    if base.Some? && base.value.Obj? {
      assert both == [Obj(base.value.members), Obj(o)];
      JsonBudget.UnionWithin(ms, base.value.members, o, STARTUP_LIMITS);
    } else {
      assert map[] + o == o;
      if base.Some? {
        assert both == [base.value, overlay];
        JsonBudget.SecondWithin(ms, base.value, overlay, STARTUP_LIMITS);
      } else {
        assert both == [overlay];
      }
    }
    assert JsonBudget.Within(ms, [merged], STARTUP_LIMITS);
  }

  /** Where `send_first` puts the parameters over the budget, the update passes its checks and the server is gone. */
  lemma SendFirstTooMuch(rules: Rules, s: State, id: Id, f: ServerForm, files: Files, m: Machine)
    requires AllSound(rules, s) && Removes(rules, s, id, f, files) && m.mature
    requires f.sendFirst && rules.hasSendFirst(s.servers[id].protocol)
    requires Merged(rules, s.servers[id], f).Some? && "send_first" !in Members(Merged(rules, s.servers[id], f).value)
    requires !rules.fits(Obj(Members(Merged(rules, s.servers[id], f).value)["send_first" := Bool(true)]))
    ensures Updated(rules, s, id, f, files, m) == (RemoveServer(s, id), Failure(OverBudget))
  {
    var c := s.servers[id];
    assert Sound(rules, c);
    RestartChecksAgain(rules, c, f, files, m);
    var l := Relaunch(rules, c, f);
    assert !Oversized(rules, l.params);
    assert StartCheck(rules, l, m) == Some(OverBudget);
    hide Check, StartCheck, Fitting, RemoveServer;
  }

  /** Parameters of exactly as many nodes as there may be. */
  function FullParams(): Json {
    Obj(map["p" := Arr(JsonBudget.Nulls(STARTUP_LIMITS.nodes - 2))])
  }

  function FullMore(): Json {
    Obj(map["p" := Arr(JsonBudget.Nulls(STARTUP_LIMITS.nodes - 2)), "send_first" := Bool(true)])
  }

  lemma FullIsFull(ms: JsonBudget.Measure)
    requires ms.cell == 32 && ms.len("p") <= 4096
    ensures JsonBudget.Within(ms, [FullParams()], STARTUP_LIMITS) && !JsonBudget.Within(ms, [FullMore()], STARTUP_LIMITS)
  {
    var n := STARTUP_LIMITS.nodes - 2;
    JsonBudget.WideCost(ms, "p", n);
    JsonBudget.WiderCost(ms, "p", n, "send_first", true);
    JsonBudget.ShallowMore(FullParams(), 2, STARTUP_LIMITS.depth);
    JsonBudget.OneWithin(ms, FullParams(), STARTUP_LIMITS);
    JsonBudget.OneWithin(ms, FullMore(), STARTUP_LIMITS);
    hide JsonBudget.Within, JsonBudget.Shallow, JsonBudget.Cost, JsonBudget.Nulls;
  }

  /** The source's budget, and a protocol that has the parameter `p` and `send_first`. */
  ghost function FullRules(ms: JsonBudget.Measure): Rules {
    Rules((v: Json) => JsonBudget.Within(ms, [v], STARTUP_LIMITS),
          (b: Option<Json>, v: Json) => JsonBudget.Within(ms, (if b.Some? then [b.value] else []) + [v], STARTUP_LIMITS),
          (v: Json, p: string) => v.Obj? && v.members.Keys <= {"p", "send_first"},
          (a: string, b: string) => a == b, (p: string) => true, (t: seq<string>) => true,
          (h: seq<Json>) => true, (p: string) => true, (p: string) => true)
  }

  /**
   So it happens: with the source's own limits, a server whose parameters have exactly as many
   nodes as there may be is lost to `send_first`, which is one too many.
   */
  lemma SendFirstLoses(len: string -> nat, files: Files, m: Machine) returns (s: State, f: ServerForm)
    requires len("p") <= 4096 && files(FullParams(), "TCP") && m.mature
    ensures var rules := FullRules(JsonBudget.Measure(32, len));
            && Budgeted(rules, JsonBudget.Measure(32, len))
            && Numbered(s) && AllSound(rules, s) && Removes(rules, s, 0, f, files)
            && Updated(rules, s, 0, f, files, m) == (State(map[], 1, []), Failure(OverBudget))
  {
    var ms := JsonBudget.Measure(32, len);
    var rules := FullRules(ms);
    var c := Server("TCP", 80, Binding(None, None, None), "", "", Some(FullParams()), None, None, 0, false);
    s := State(map[0 := c], 1, []);
    f := NoForm.(port := Some(81), sendFirst := true);
    FullPasses(ms, files, c, f);
    hide JsonBudget.Within, JsonBudget.Nulls, Check, Sound;
    SendFirstTooMuch(rules, s, 0, f, files, m);
    assert RemoveServer(s, 0) == State(map[], 1, []);
  }

  lemma FullPasses(ms: JsonBudget.Measure, files: Files, c: Server, f: ServerForm)
    requires ms.cell == 32 && ms.len("p") <= 4096 && files(FullParams(), "TCP")
    requires c == Server("TCP", 80, Binding(None, None, None), "", "", Some(FullParams()), None, None, 0, false)
    requires f == NoForm.(port := Some(81), sendFirst := true)
    ensures var rules := FullRules(ms);
            && Sound(rules, c) && Check(rules, files, c, f) == None
            && !rules.fits(Obj(FullParams().members["send_first" := Bool(true)]))
  {
    FullIsFull(ms);
    hide JsonBudget.Within, JsonBudget.Nulls;
    assert FullParams().members["send_first" := Bool(true)] == FullMore().members;
  }

  /** The parameters the new server gets: the form's over the old ones, and `send_first` at most. */
  lemma RestartParams(rules: Rules, files: Files, c: Server, f: ServerForm, k: string)
    requires Check(rules, files, c, f) == None && Folded(rules, Relaunch(rules, c, f)).Some?
    ensures var p := Members(Folded(rules, Relaunch(rules, c, f)).value);
            && (k in Members(f.params) ==> k in p && p[k] == f.params.value.members[k])
            && (k !in Members(f.params) && k in Members(c.params) ==> k in p && p[k] == Members(c.params)[k])
            && (k in p && k !in Members(f.params) && k !in Members(c.params) ==>
                  k == "send_first" && p[k] == Bool(true) && f.sendFirst && rules.hasSendFirst(c.protocol))
  {
  }
}
