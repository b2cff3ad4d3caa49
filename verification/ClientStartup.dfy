/**
 Starting clients concurrently over one shared state (src/cli/client_startup.rs and
 src/cli/startup_guard.rs). A startup runs from one await to the next; at any await it may be
 dropped, which leaves its armed guard's cleanup to the runtime. Everyone else may act on
 clients in between.
 */
module ClientStartup {
  import opened Wrappers

  type Id = nat

  datatype Status = Connecting | Connected | Failed | Disconnected

  datatype Client = Client(status: Status, memory: string)

  datatype App = App(clients: map<Id, Client>, nextId: nat, tasks: map<nat, Id>, nextTask: nat)

  // ---- what the shared state does -------------------------------------------------------

  function AddClient(a: App, c: Client): App {
    a.(clients := a.clients[a.nextId := c], nextId := a.nextId + 1)
  }

  function SetMemory(a: App, id: Id, memory: string): App {
    if id in a.clients then a.(clients := a.clients[id := a.clients[id].(memory := memory)]) else a
  }

  function AddTask(a: App, id: Id): App {
    a.(tasks := a.tasks[a.nextTask := id], nextTask := a.nextTask + 1)
  }

  function SetStatus(a: App, id: Id, status: Status): App {
    if id in a.clients then a.(clients := a.clients[id := a.clients[id].(status := status)]) else a
  }

  /** The client goes, and every scheduled task of its own. */
  function RemoveClient(a: App, id: Id): App {
    a.(clients := a.clients - {id}, tasks := map t | t in a.tasks && a.tasks[t] != id :: a.tasks[t])
  }

  // ---- one startup ----------------------------------------------------------------------

  datatype Request = Request(valid: bool, memory: Option<string>, tasks: nat)

  function Memory(r: Request): string {
    if r.memory.Some? then r.memory.value else ""
  }

  /** Where a startup waits, or how it ended. */
  datatype Phase =
    | Checking
    | SettingMemory
    | AddingTasks(left: nat)
    | Dialling
    | Succeeding
    | Failing
    | Removing
    | Removed
    | Returned
    | Refused
    | Errored
    | Dropped

  /**
   `id` is the registration, once there is one; `guard` what the guard would remove; `said`
   what `connect` answered; `added` the tasks it scheduled.
   */
  datatype Startup = Startup(request: Request, phase: Phase, id: Option<Id>, guard: Option<Id>, said: Option<bool>, added: set<nat>)

  predicate Registered(p: Phase) {
    p.SettingMemory? || p.AddingTasks? || p.Dialling? || p.Succeeding? || p.Failing? || p.Removing? || p.Removed?
  }

  predicate Ended(p: Phase) {
    p.Returned? || p.Refused? || p.Errored? || p.Dropped?
  }

  /** After the tasks comes the connection. */
  function TasksFrom(n: nat): Phase {
    if n == 0 then Dialling else AddingTasks(n)
  }

  /** The next stretch of a startup, up to its next await; `connects` is what `connect` says. */
  function Advance(a: App, s: Startup, connects: bool): (App, Startup)
    requires Registered(s.phase) ==> s.id.Some?
  {
    match s.phase
    case Checking =>
      if !s.request.valid then (a, s.(phase := Refused))
      else
        (AddClient(a, Client(Connecting, "")),
         s.(id := Some(a.nextId), guard := Some(a.nextId),
            phase := if s.request.memory.Some? then SettingMemory else TasksFrom(s.request.tasks)))
    case SettingMemory =>
      (SetMemory(a, s.id.value, Memory(s.request)), s.(phase := TasksFrom(s.request.tasks)))
    case AddingTasks(left) =>
      (AddTask(a, s.id.value), s.(added := s.added + {a.nextTask}, phase := TasksFrom(if left == 0 then 0 else left - 1)))
    case Dialling => (a, s.(said := Some(connects), phase := if connects then Succeeding else Failing))
    case Succeeding => (SetStatus(a, s.id.value, Connected), s.(phase := Returned, guard := None))
    case Failing => (SetStatus(a, s.id.value, Failed), s.(phase := Removing))
    case Removing => (RemoveClient(a, s.id.value), s.(phase := Removed))
    case Removed => (a, s.(phase := Errored, guard := None))
    case _ => (a, s)
  }

  // ---- the system -----------------------------------------------------------------------

  /**
   `cleanups` are the removals guards have handed to the runtime; `stranded` the guards
   dropped where no runtime was there to take them.
   */
  datatype System = System(app: App, startups: seq<Startup>, cleanups: set<Id>, stranded: set<Id>)

  datatype Event =
    | Begin(request: Request)
    | Run(i: nat, connects: bool)
    | Drop(i: nat, runtime: bool)
    | Clean(id: Id)
    | OthersAdd(client: Client)
    | OthersRemove(id: Id)
    | OthersSet(id: Id, status: Status)
    | OthersSetMemory(id: Id, memory: string)
    | OthersSchedule(id: Id)
    | OthersRemoveTask(task: nat)

  /** A task may be scheduled for any client that has existed: that is looked up before the lock is taken to add it. */
  predicate Enabled(s: System, e: Event) {
    match e
    case Run(i, _) =>
      i < |s.startups| && !Ended(s.startups[i].phase) && (Registered(s.startups[i].phase) ==> s.startups[i].id.Some?)
    case Drop(i, _) => i < |s.startups| && !Ended(s.startups[i].phase)
    case Clean(id) => id in s.cleanups
    case OthersSchedule(id) => id < s.app.nextId
    case _ => true
  }

  function DropStartup(s: System, i: nat, runtime: bool): System
    requires i < |s.startups|
  {
    var p := s.startups[i];
    var s' := s.(startups := s.startups[i := p.(phase := Dropped, guard := None)]);
    if p.guard == None then s'
    else if runtime then s'.(cleanups := s.cleanups + {p.guard.value})
    else s'.(stranded := s.stranded + {p.guard.value})
  }

  function Step(s: System, e: Event): System
    requires Enabled(s, e)
  {
    match e
    case Begin(r) => s.(startups := s.startups + [Startup(r, Checking, None, None, None, {})])
    case Run(i, connects) =>
      var (a, p) := Advance(s.app, s.startups[i], connects);
      s.(app := a, startups := s.startups[i := p])
    case Drop(i, runtime) => DropStartup(s, i, runtime)
    case Clean(id) => s.(app := RemoveClient(s.app, id), cleanups := s.cleanups - {id})
    case OthersAdd(c) => s.(app := AddClient(s.app, c))
    case OthersRemove(id) => s.(app := RemoveClient(s.app, id))
    case OthersSet(id, st) => s.(app := SetStatus(s.app, id, st))
    case OthersSetMemory(id, m) => s.(app := SetMemory(s.app, id, m))
    case OthersSchedule(id) => s.(app := AddTask(s.app, id))
    case OthersRemoveTask(t) => s.(app := s.app.(tasks := s.app.tasks - {t}))
  }

  // ---- the invariant --------------------------------------------------------------------

  predicate Gone(a: App, id: Id) {
    id !in a.clients
  }

  /** Who would remove the registration. */
  predicate Guarded(p: Startup) {
    && (p.phase.Checking? || p.phase.Refused? ==> p.id == None)
    && (Registered(p.phase) || p.phase.Returned? || p.phase.Errored? ==> p.id.Some?)
    && p.guard == (if Registered(p.phase) then p.id else None)
    && (p.phase.Succeeding? || p.phase.Returned? ==> p.said == Some(true))
    && (p.phase.Failing? || p.phase.Removing? || p.phase.Removed? || p.phase.Errored? ==> p.said == Some(false))
    && (p.phase.AddingTasks? ==> 0 < p.phase.left <= p.request.tasks && |p.added| == p.request.tasks - p.phase.left)
    && (p.phase.Checking? || p.phase.Refused? || p.phase.SettingMemory? ==> p.added == {})
    && (p.phase.Dialling? || p.phase.Succeeding? || p.phase.Returned? ==> |p.added| == p.request.tasks)
  }

  /** The tasks it scheduled have their numbers. */
  predicate Earlier(p: Startup, a: App) {
    forall t :: t in p.added ==> t < a.nextTask
  }

  /** What has become of the registration. */
  predicate Settled(s: System, p: Startup) {
    p.id.Some? ==>
      && p.id.value < s.app.nextId
      && Earlier(p, s.app)
      && (p.phase.Removed? || p.phase.Errored? ==> Gone(s.app, p.id.value))
      && (p.phase.Dropped? ==> p.id.value in s.cleanups || p.id.value in s.stranded || Gone(s.app, p.id.value))
      && (!p.phase.Dropped? ==> p.id.value !in s.cleanups && p.id.value !in s.stranded)
  }

  predicate Each(s: System) {
    forall i :: 0 <= i < |s.startups| ==> Guarded(s.startups[i]) && Settled(s, s.startups[i])
  }

  /** No two startups have the same registration. */
  predicate Apart(ss: seq<Startup>) {
    forall i, j :: 0 <= i < j < |ss| && ss[i].id.Some? ==> ss[i].id != ss[j].id
  }

  predicate Numbered(a: App) {
    && (forall id :: id in a.clients ==> id < a.nextId)
    && (forall t :: t in a.tasks ==> t < a.nextTask)
  }

  /** `id` was registered by a startup that was then dropped. */
  predicate WasDropped(ss: seq<Startup>, id: Id) {
    exists i :: 0 <= i < |ss| && ss[i].phase.Dropped? && ss[i].id == Some(id)
  }

  predicate Cleanups(s: System) {
    && s.cleanups !! s.stranded
    && (forall id :: id in s.cleanups ==> WasDropped(s.startups, id))
    && (forall id :: id in s.stranded ==> WasDropped(s.startups, id))
  }

  predicate Inv(s: System) {
    Each(s) && Apart(s.startups) && Numbered(s.app) && Cleanups(s)
  }

  predicate Initial(s: System) {
    s.startups == [] && s.cleanups == {} && s.stranded == {} && Numbered(s.app)
  }

  // ---- each event keeps it --------------------------------------------------------------

  /** Numbers are not given out again, and clients that are gone stay gone. */
  predicate KeepsGone(a: App, a': App) {
    && a.nextId <= a'.nextId && a.nextTask <= a'.nextTask
    && forall id :: 0 <= id < a.nextId && Gone(a, id) ==> Gone(a', id)
  }

  lemma OthersKeep(s: System, a: App)
    requires Inv(s) && KeepsGone(s.app, a) && Numbered(a)
    ensures Inv(s.(app := a))
  {
    var s' := s.(app := a);
    forall i | 0 <= i < |s'.startups|
      ensures Guarded(s'.startups[i]) && Settled(s', s'.startups[i])
    {
      assert Guarded(s.startups[i]) && Settled(s, s.startups[i]);
    }
  }

  /** Dropped startups stay dropped. */
  lemma StillDropped(ss: seq<Startup>, i: nat, q: Startup, id: Id)
    requires i < |ss| && WasDropped(ss, id) && (ss[i].phase.Dropped? ==> q == ss[i])
    ensures WasDropped(ss[i := q], id)
  {
    var k :| 0 <= k < |ss| && ss[k].phase.Dropped? && ss[k].id == Some(id);
    assert ss[i := q][k] == ss[k];
  }

  lemma NotPending(s: System, id: Id)
    requires Inv(s) && s.app.nextId <= id
    ensures id !in s.cleanups && id !in s.stranded
    ensures forall j :: 0 <= j < |s.startups| ==> s.startups[j].id != Some(id)
  {
    forall j | 0 <= j < |s.startups| ensures s.startups[j].id != Some(id) {
      assert Settled(s, s.startups[j]);
    }
  }

  /** A startup's own next state, with what it did to the shared state. */
  lemma ReplaceKeeps(s: System, i: nat, a: App, q: Startup)
    requires Inv(s) && i < |s.startups| && !s.startups[i].phase.Dropped? && !q.phase.Dropped?
    requires var p := s.startups[i];
             && (q.id == p.id || (p.id == None && q.id == Some(s.app.nextId) && s.app.nextId < a.nextId))
             && KeepsGone(s.app, a)
    requires Numbered(a) && Guarded(q) && Earlier(q, a)
    requires q.phase.Removed? || q.phase.Errored? ==> Gone(a, q.id.value)
    ensures Inv(s.(app := a, startups := s.startups[i := q]))
  {
    hide Gone, Numbered;
    var p := s.startups[i];
    var s' := s.(app := a, startups := s.startups[i := q]);
    NotPending(s, s.app.nextId);
    assert Settled(s, p);
    forall j | 0 <= j < |s'.startups|
      ensures Guarded(s'.startups[j]) && Settled(s', s'.startups[j])
    {
      assert Guarded(s.startups[j]) && Settled(s, s.startups[j]);
      assert j != i && p.id.Some? ==> s.startups[j].id != p.id;
    }
    forall id | id in s.cleanups || id in s.stranded
      ensures WasDropped(s'.startups, id)
    {
      StillDropped(s.startups, i, q, id);
    }
  }

  lemma AdvanceKeeps(a: App, p: Startup, connects: bool)
    requires Numbered(a) && Guarded(p) && !Ended(p.phase) && Earlier(p, a)
    ensures var (a', q) := Advance(a, p, connects);
            && KeepsGone(a, a') && Numbered(a') && Guarded(q)
            && !q.phase.Dropped? && Earlier(q, a')
            && (q.phase.Removed? ==> Gone(a', p.id.value))
            && (p.phase.Removed? ==> a' == a)
            && (q.phase.Errored? ==> p.phase.Removed?)
            && (q.id == p.id || (p.id == None && q.id == Some(a.nextId) && a.nextId < a'.nextId))
  {
    if p.phase.AddingTasks? {
      assert a.nextTask !in p.added;
    }
  }

  lemma RunKeeps(s: System, i: nat, connects: bool)
    requires Inv(s) && Enabled(s, Run(i, connects))
    ensures Inv(Step(s, Run(i, connects)))
  {
    var p := s.startups[i];
    assert Guarded(p) && Settled(s, p);
    AdvanceKeeps(s.app, p, connects);
    var (a, q) := Advance(s.app, p, connects);
    hide Advance, Gone, Numbered;
    ReplaceKeeps(s, i, a, q);
  }

  lemma DropKeeps(s: System, i: nat, runtime: bool)
    requires Inv(s) && Enabled(s, Drop(i, runtime))
    ensures Inv(Step(s, Drop(i, runtime)))
  {
    hide Gone, Numbered;
    var p := s.startups[i];
    var s' := Step(s, Drop(i, runtime));
    assert Guarded(p) && Settled(s, p);
    forall j | 0 <= j < |s'.startups|
      ensures Guarded(s'.startups[j]) && Settled(s', s'.startups[j])
    {
      assert Guarded(s.startups[j]) && Settled(s, s.startups[j]);
      assert j != i && p.id.Some? ==> s.startups[j].id != p.id;
    }
    forall id | id in s'.cleanups || id in s'.stranded
      ensures WasDropped(s'.startups, id)
    {
      if p.guard == Some(id) {
        assert s'.startups[i].id == Some(id);
      } else {
        StillDropped(s.startups, i, s'.startups[i], id);
      }
    }
  }

  lemma CleanKeeps(s: System, id: Id)
    requires Inv(s) && id in s.cleanups
    ensures Inv(Step(s, Clean(id)))
  {
    var s' := Step(s, Clean(id));
    RemoveKeeps(s.app, id);
    hide RemoveClient, Gone, Numbered;
    forall j | 0 <= j < |s'.startups|
      ensures Guarded(s'.startups[j]) && Settled(s', s'.startups[j])
    {
      assert Guarded(s.startups[j]) && Settled(s, s.startups[j]);
    }
  }

  lemma RemoveKeeps(a: App, id: Id)
    requires Numbered(a)
    ensures var a' := RemoveClient(a, id); KeepsGone(a, a') && Numbered(a') && Gone(a', id) && a'.nextId == a.nextId
  {
  }

  lemma OthersAct(s: System, e: Event)
    requires Inv(s) && Enabled(s, e) && !e.Begin? && !e.Run? && !e.Drop? && !e.Clean?
    ensures Inv(Step(s, e))
  {
    OthersKeep(s, Step(s, e).app);
  }

  lemma StepKeeps(s: System, e: Event)
    requires Inv(s) && Enabled(s, e)
    ensures Inv(Step(s, e))
  {
    match e
    case Begin(r) =>
      var s' := Step(s, e);
      forall i | 0 <= i < |s'.startups|
        ensures Guarded(s'.startups[i]) && Settled(s', s'.startups[i])
      {
        assert i < |s.startups| ==> Guarded(s.startups[i]) && Settled(s, s.startups[i]);
      }
      forall id: Id | WasDropped(s.startups, id) ensures WasDropped(s'.startups, id) {
        var k :| 0 <= k < |s.startups| && s.startups[k].phase.Dropped? && s.startups[k].id == Some(id);
        assert s'.startups[k] == s.startups[k];
      }
    case Run(i, connects) => RunKeeps(s, i, connects);
    case Drop(i, runtime) => DropKeeps(s, i, runtime);
    case Clean(id) => CleanKeeps(s, id);
    case _ => OthersAct(s, e);
  }

  // ---- every run ------------------------------------------------------------------------

  /** The states of a run, and the events between them. */
  predicate IsRun(states: seq<System>, events: seq<Event>) {
    && |states| == |events| + 1
    && Initial(states[0])
    && forall k :: 0 <= k < |events| ==> Enabled(states[k], events[k]) && states[k + 1] == Step(states[k], events[k])
  }

  lemma {:induction false} EveryState(states: seq<System>, events: seq<Event>, k: nat)
    requires IsRun(states, events) && k < |states|
    ensures Inv(states[k])
    decreases k
  {
    hide Guarded, Settled, Step;
    if k > 0 {
      EveryState(states, events, k - 1);
      StepKeeps(states[k - 1], events[k - 1]);
    }
  }

  /**
   In every run, whatever was cancelled where, each registration is answered for: returned to
   the caller, still under its armed guard, waiting for its cleanup, or gone; or its guard was
   dropped outside a runtime.
   */
  lemma NothingIsForgotten(states: seq<System>, events: seq<Event>, k: nat, i: nat)
    requires IsRun(states, events) && k < |states| && i < |states[k].startups|
    ensures var s := states[k];
            var p := s.startups[i];
            p.id.Some? ==>
              || p.phase.Returned?
              || (Registered(p.phase) && p.guard == p.id)
              || (p.phase.Dropped? && (p.id.value in s.cleanups || p.id.value in s.stranded))
              || ((p.phase.Errored? || p.phase.Dropped?) && p.id.value !in s.app.clients)
  {
    EveryState(states, events, k);
    assert Guarded(states[k].startups[i]) && Settled(states[k], states[k].startups[i]);
  }

  /** Once a startup has ended, and its own cleanup has run if it was dropped, its client remains only if it returned. */
  lemma OnlyReturnedRemain(states: seq<System>, events: seq<Event>, k: nat, i: nat)
    requires IsRun(states, events) && k < |states| && i < |states[k].startups|
    requires var p := states[k].startups[i];
             Ended(p.phase) && (p.id.Some? ==> p.id.value !in states[k].cleanups && p.id.value !in states[k].stranded)
    ensures var p := states[k].startups[i];
            p.phase.Returned? || p.id == None || p.id.value !in states[k].app.clients
  {
    NothingIsForgotten(states, events, k, i);
  }

  /** A client only ever disappears by its own startup's failure, its own cleanup, or others' hands. */
  lemma RemovesOnlyItsOwn(s: System, e: Event, id: Id)
    requires Inv(s) && Enabled(s, e) && id in s.app.clients && id !in Step(s, e).app.clients
    ensures || e == OthersRemove(id)
            || (e == Clean(id) && WasDropped(s.startups, id))
            || (e.Run? && s.startups[e.i].phase.Removing? && s.startups[e.i].id == Some(id))
  {
    if e.Run? {
      assert Guarded(s.startups[e.i]);
    }
  }

  /** A startup that returns has its client connected, if others have left it there, and nobody else's changed. */
  lemma ReturnsConnected(s: System, i: nat, connects: bool)
    requires Inv(s) && Enabled(s, Run(i, connects)) && Step(s, Run(i, connects)).startups[i].phase.Returned?
    ensures var s' := Step(s, Run(i, connects));
            var id := s'.startups[i].id;
            && id.Some? && s'.startups[i].guard == None && s'.startups[i].said == Some(true)
            && (id.value in s.app.clients ==> id.value in s'.app.clients && s'.app.clients[id.value].status == Connected)
            && forall c :: c in s.app.clients && Some(c) != id ==> c in s'.app.clients && s'.app.clients[c] == s.app.clients[c]
  {
    assert Guarded(s.startups[i]);
  }

  /** A connection that fails shows on its client, which is still guarded, before it is removed. */
  lemma FailureShows(s: System, i: nat, connects: bool)
    requires Inv(s) && Enabled(s, Run(i, connects)) && Step(s, Run(i, connects)).startups[i].phase.Removing?
    ensures var s' := Step(s, Run(i, connects));
            var id := s'.startups[i].id;
            && id.Some? && s'.startups[i].guard == id && s'.startups[i].said == Some(false)
            && (id.value in s.app.clients ==> id.value in s'.app.clients && s'.app.clients[id.value].status == Failed)
            && forall c :: c in s.app.clients && Some(c) != id ==> c in s'.app.clients && s'.app.clients[c] == s.app.clients[c]
  {
    assert Guarded(s.startups[i]);
  }

  /** A request that does not validate leaves the shared state as it was. */
  lemma RefusalsRegisterNothing(s: System, i: nat, connects: bool)
    requires Enabled(s, Run(i, connects)) && s.startups[i].phase.Checking?
    ensures Step(s, Run(i, connects)).startups[i].phase.Refused? <==> !s.startups[i].request.valid
    ensures !s.startups[i].request.valid ==> Step(s, Run(i, connects)).app == s.app
  {
  }

  // ---- what a startup leaves on its client ----------------------------------------------

  /** A startup's place in the list does not change, nor what it was asked for. */
  lemma SameStartup(s: System, e: Event, i: nat)
    requires Inv(s) && Enabled(s, e) && i < |s.startups|
    ensures i < |Step(s, e).startups|
    ensures var (p, q) := (s.startups[i], Step(s, e).startups[i]);
            && q.request == p.request && (p.id.Some? ==> q.id == p.id) && p.added <= q.added
            && (!(e.Run? && e.i == i) && !(e.Drop? && e.i == i) ==> q == p)
            && (e.Drop? && e.i == i ==> q == p.(phase := Dropped, guard := None))
  {
    if e.Run? && e.i == i {
      assert Guarded(s.startups[i]);
    }
  }

  /** The startup has passed the point where it writes its client's memory. */
  predicate PastMemory(p: Startup) {
    p.phase.Returned? || (Registered(p.phase) && !p.phase.SettingMemory?)
  }

  /** Since the startup wrote it, somebody else wrote the memory that is there. */
  predicate WroteMemory(states: seq<System>, events: seq<Event>, k: nat, i: nat, id: Id, memory: string)
    requires k <= |events| < |states|
  {
    exists j :: 0 <= j < k && events[j] == OthersSetMemory(id, memory) && i < |states[j].startups| && PastMemory(states[j].startups[i])
  }

  /** A client's memory is what its startup was asked to write, or what somebody has written since. */
  lemma {:induction false} MemoryAsWritten(states: seq<System>, events: seq<Event>, k: nat, i: nat)
    requires IsRun(states, events) && k < |states| && i < |states[k].startups|
    ensures var (a, p) := (states[k].app, states[k].startups[i]);
            PastMemory(p) && p.id.Some? && p.id.value in a.clients ==>
              || a.clients[p.id.value].memory == Memory(p.request)
              || WroteMemory(states, events, k, i, p.id.value, a.clients[p.id.value].memory)
    decreases k
  {
    if k > 0 {
      var (s, e) := (states[k - 1], events[k - 1]);
      EveryState(states, events, k - 1);
      if i < |s.startups| {
        SameStartup(s, e, i);
        MemoryAsWritten(states, events, k - 1, i);
        MemoryStep(s, e, i);
        var (p, a) := (states[k].startups[i], states[k].app);
        if PastMemory(p) && p.id.Some? && p.id.value in a.clients && a.clients[p.id.value].memory != Memory(p.request) {
          var m := a.clients[p.id.value].memory;
          if e == OthersSetMemory(p.id.value, m) {
            assert events[k - 1] == OthersSetMemory(p.id.value, m) && PastMemory(states[k - 1].startups[i]);
          } else {
            var j :| 0 <= j < k - 1 && events[j] == OthersSetMemory(p.id.value, m)
                     && i < |states[j].startups| && PastMemory(states[j].startups[i]);
            assert 0 <= j < k;
          }
        }
      }
    }
  }

  /** One step: the memory is what it was, or the startup or somebody else has just written it. */
  lemma MemoryStep(s: System, e: Event, i: nat)
    requires Inv(s) && Enabled(s, e) && i < |s.startups| && i < |Step(s, e).startups|
    ensures var (p, q, b) := (s.startups[i], Step(s, e).startups[i], Step(s, e).app);
            PastMemory(q) && q.id.Some? && q.id.value in b.clients ==>
              || b.clients[q.id.value].memory == Memory(q.request)
              || e == OthersSetMemory(q.id.value, b.clients[q.id.value].memory)
              || (PastMemory(p) && p.id == q.id && q.id.value in s.app.clients && b.clients[q.id.value].memory == s.app.clients[q.id.value].memory)
  {
    var p := s.startups[i];
    assert Guarded(p) && Settled(s, p);
    if e.Run? {
      assert Guarded(s.startups[e.i]) && Settled(s, s.startups[e.i]);
      assert e.i != i && p.id.Some? ==> s.startups[e.i].id != p.id;
    }
  }

  /** Somebody else removed the task. */
  predicate TaskRemoved(events: seq<Event>, k: nat, t: nat)
    requires k <= |events|
  {
    exists j :: 0 <= j < k && events[j] == OthersRemoveTask(t)
  }

  /** As long as its client is there, every task a startup scheduled is too, unless somebody removed it. */
  lemma {:induction false} TasksAsScheduled(states: seq<System>, events: seq<Event>, k: nat, i: nat, t: nat)
    requires IsRun(states, events) && k < |states| && i < |states[k].startups|
    requires var p := states[k].startups[i]; t in p.added && p.id.Some? && p.id.value in states[k].app.clients
    ensures var (a, p) := (states[k].app, states[k].startups[i]);
            (t in a.tasks && a.tasks[t] == p.id.value) || TaskRemoved(events, k, t)
    decreases k
  {
    if k > 0 {
      var (s, e) := (states[k - 1], events[k - 1]);
      EveryState(states, events, k - 1);
      TaskStep(s, e, i, t);
      if i < |s.startups| && t in s.startups[i].added {
        TasksAsScheduled(states, events, k - 1, i, t);
        if e == OthersRemoveTask(t) {
          assert events[k - 1] == OthersRemoveTask(t);
        } else if TaskRemoved(events, k - 1, t) {
          var j :| 0 <= j < k - 1 && events[j] == OthersRemoveTask(t);
          assert 0 <= j < k;
        }
      }
    }
  }

  lemma TaskStep(s: System, e: Event, i: nat, t: nat)
    requires Inv(s) && Enabled(s, e) && i < |Step(s, e).startups|
    requires var q := Step(s, e).startups[i]; t in q.added && q.id.Some? && q.id.value in Step(s, e).app.clients
    ensures var (q, b) := (Step(s, e).startups[i], Step(s, e).app);
            || (t in b.tasks && b.tasks[t] == q.id.value)
            || e == OthersRemoveTask(t)
            || (i < |s.startups| && t in s.startups[i].added && s.startups[i].id == q.id && q.id.value in s.app.clients
                && !(t in s.app.tasks && s.app.tasks[t] == q.id.value))
    ensures i < |s.startups| && t in s.startups[i].added ==>
              s.startups[i].id == Step(s, e).startups[i].id && Step(s, e).startups[i].id.value in s.app.clients
  {
    if i < |s.startups| {
      var p := s.startups[i];
      assert Guarded(p) && Settled(s, p);
      if e.Run? {
        assert Guarded(s.startups[e.i]) && Settled(s, s.startups[e.i]);
        assert e.i != i && p.id.Some? ==> s.startups[e.i].id != p.id;
      }
    }
  }

  /**
   A startup returns only if `connect` succeeded, and fails only if it did not. What it returns
   has the memory and all the tasks that were asked for, except where somebody has since changed
   them.
   */
  lemma ReturnedAsAsked(states: seq<System>, events: seq<Event>, k: nat, i: nat)
    requires IsRun(states, events) && k < |states| && i < |states[k].startups|
    ensures var a := states[k].app;
            var p := states[k].startups[i];
            && (p.phase.Errored? ==> p.said == Some(false))
            && (p.phase.Returned? ==> p.said == Some(true) && p.id.Some? && |p.added| == p.request.tasks)
            && (p.phase.Returned? && p.id.value in a.clients ==>
                  && (a.clients[p.id.value].memory == Memory(p.request)
                      || WroteMemory(states, events, k, i, p.id.value, a.clients[p.id.value].memory))
                  && forall t :: t in p.added ==> (t in a.tasks && a.tasks[t] == p.id.value) || TaskRemoved(events, k, t))
  {
    EveryState(states, events, k);
    var p := states[k].startups[i];
    assert Guarded(p);
    MemoryAsWritten(states, events, k, i);
    if p.phase.Returned? && p.id.value in states[k].app.clients {
      forall t | t in p.added
        ensures (t in states[k].app.tasks && states[k].app.tasks[t] == p.id.value) || TaskRemoved(events, k, t)
      {
        TasksAsScheduled(states, events, k, i, t);
      }
    }
  }

  // ---- what a failed or dropped startup leaves ------------------------------------------

  /** Its client was removed by its own failure or by its cleanup. */
  predicate Withdrawn(s: System, p: Startup) {
    && p.id.Some?
    && (p.phase.Removed? || p.phase.Errored?
        || (p.phase.Dropped? && p.id.value !in s.cleanups && p.id.value !in s.stranded))
  }

  /** The event takes away the client `id`, if it is there, and its tasks. */
  predicate TakesAway(s: System, e: Event, id: Id) {
    || e == OthersRemove(id)
    || e == Clean(id)
    || (e.Run? && e.i < |s.startups| && s.startups[e.i].phase.Removing? && s.startups[e.i].id == Some(id))
  }

  /** The task was scheduled at `j` for a client that was no longer there, and nothing has taken it away since. */
  predicate LeftAt(states: seq<System>, events: seq<Event>, k: nat, id: Id, t: nat, j: nat)
    requires j < k <= |events| < |states|
  {
    && events[j] == OthersSchedule(id) && states[j].app.nextTask == t && id !in states[j].app.clients
    && forall n :: j < n < k ==> events[n] != OthersRemoveTask(t) && !TakesAway(states[n], events[n], id)
  }

  predicate ScheduledLate(states: seq<System>, events: seq<Event>, k: nat, id: Id, t: nat)
    requires k <= |events| < |states|
  {
    exists j :: 0 <= j < k && LeftAt(states, events, k, id, t, j)
  }

  /**
   Of a startup whose client was withdrawn a task is left if and only if it was scheduled when
   the client was gone already, and neither it nor the client has been removed again since.
   */
  lemma {:induction false} OnlyLateTasks(states: seq<System>, events: seq<Event>, k: nat, i: nat, t: nat)
    requires IsRun(states, events) && k < |states| && i < |states[k].startups|
    requires Withdrawn(states[k], states[k].startups[i])
    ensures var (a, id) := (states[k].app, states[k].startups[i].id.value);
            t in a.tasks && a.tasks[t] == id <==> ScheduledLate(states, events, k, id, t)
    decreases k
  {
    hide Step, Inv, Enabled, LeftAt;
    var id := states[k].startups[i].id.value;
    if t in states[k].app.tasks && states[k].app.tasks[t] == id {
      LeftIsLate(states, events, k, i, t);
    }
    if ScheduledLate(states, events, k, id, t) {
      var j :| 0 <= j < k && LeftAt(states, events, k, id, t, j);
      LateIsLeft(states, events, k, id, t, j);
    }
  }

  lemma {:induction false} LeftIsLate(states: seq<System>, events: seq<Event>, k: nat, i: nat, t: nat)
    requires IsRun(states, events) && k < |states| && i < |states[k].startups|
    requires var (s, p) := (states[k], states[k].startups[i]);
             Withdrawn(s, p) && t in s.app.tasks && s.app.tasks[t] == p.id.value
    ensures ScheduledLate(states, events, k, states[k].startups[i].id.value, t)
    decreases k
  {
    hide Step, Inv, Enabled, LeftAt, TakesAway;
    if k > 0 {
      var (s, e) := (states[k - 1], events[k - 1]);
      EveryState(states, events, k - 1);
      assert Enabled(s, e) && states[k] == Step(s, e);
      LateStep(s, e, i, t);
      var id := states[k].startups[i].id.value;
      if i < |s.startups| && Withdrawn(s, s.startups[i]) && s.startups[i].id == Some(id) && t in s.app.tasks && s.app.tasks[t] == id {
        LeftIsLate(states, events, k - 1, i, t);
        var j :| 0 <= j < k - 1 && LeftAt(states, events, k - 1, id, t, j);
        StaysLeft(states, events, k, id, t, j);
      } else {
        JustLeft(states, events, k, id, t);
      }
    }
  }

  lemma JustLeft(states: seq<System>, events: seq<Event>, k: nat, id: Id, t: nat)
    requires 0 < k <= |events| < |states|
    requires events[k - 1] == OthersSchedule(id) && states[k - 1].app.nextTask == t && id !in states[k - 1].app.clients
    ensures LeftAt(states, events, k, id, t, k - 1)
  {
  }

  /** One event later it is still there, so the event did not take it away. */
  lemma StaysLeft(states: seq<System>, events: seq<Event>, k: nat, id: Id, t: nat, j: nat)
    requires IsRun(states, events) && j < k - 1 < |events| && LeftAt(states, events, k - 1, id, t, j)
    requires t in states[k].app.tasks && states[k].app.tasks[t] == id
    ensures LeftAt(states, events, k, id, t, j)
  {
    var (s, e) := (states[k - 1], events[k - 1]);
    assert Enabled(s, e) && states[k] == Step(s, e);
    if e == OthersRemoveTask(t) || TakesAway(s, e, id) {
      TakenIsGone(s, e, id, t);
    }
    hide Step, Enabled, TakesAway;
  }

  lemma TakenIsGone(s: System, e: Event, id: Id, t: nat)
    requires Enabled(s, e) && (e == OthersRemoveTask(t) || TakesAway(s, e, id))
    ensures var a := Step(s, e).app; t !in a.tasks || a.tasks[t] != id
  {
  }

  lemma {:induction false} LateIsLeft(states: seq<System>, events: seq<Event>, k: nat, id: Id, t: nat, j: nat)
    requires IsRun(states, events) && j < k <= |events| && LeftAt(states, events, k, id, t, j)
    ensures t in states[k].app.tasks && states[k].app.tasks[t] == id
    decreases k
  {
    hide Step, Inv, Enabled, TakesAway;
    EveryState(states, events, k - 1);
    assert Enabled(states[k - 1], events[k - 1]) && states[k] == Step(states[k - 1], events[k - 1]);
    if j == k - 1 {
      Scheduled(states[k - 1], id);
    } else {
      LateIsLeft(states, events, k - 1, id, t, j);
      KeptTask(states[k - 1], events[k - 1], id, t);
    }
  }

  lemma Scheduled(s: System, id: Id)
    requires Enabled(s, OthersSchedule(id))
    ensures var a := Step(s, OthersSchedule(id)).app; s.app.nextTask in a.tasks && a.tasks[s.app.nextTask] == id
  {
  }

  lemma KeptTask(s: System, e: Event, id: Id, t: nat)
    requires Inv(s) && Enabled(s, e) && t in s.app.tasks && s.app.tasks[t] == id
    requires e != OthersRemoveTask(t) && !TakesAway(s, e, id)
    ensures var a := Step(s, e).app; t in a.tasks && a.tasks[t] == id
  {
    assert t < s.app.nextTask;
    if e.Run? {
      assert Guarded(s.startups[e.i]);
    }
  }

  lemma LateStep(s: System, e: Event, i: nat, t: nat)
    requires Inv(s) && Enabled(s, e) && i < |Step(s, e).startups|
    requires var (s', q) := (Step(s, e), Step(s, e).startups[i]);
             Withdrawn(s', q) && t in s'.app.tasks && s'.app.tasks[t] == q.id.value
    ensures var q := Step(s, e).startups[i];
            || (e == OthersSchedule(q.id.value) && s.app.nextTask == t && q.id.value !in s.app.clients)
            || (i < |s.startups| && Withdrawn(s, s.startups[i]) && s.startups[i].id == q.id
                && t in s.app.tasks && s.app.tasks[t] == q.id.value)
  {
    if i < |s.startups| {
      var p := s.startups[i];
      assert Guarded(p) && Settled(s, p);
      if e.Run? {
        assert Guarded(s.startups[e.i]) && Settled(s, s.startups[e.i]);
        assert e.i != i && p.id.Some? ==> s.startups[e.i].id != p.id;
      }
    }
  }

  // ---- guards dropped outside a runtime -------------------------------------------------

  /** An earlier event dropped the armed startup of `id` where no runtime was there. */
  predicate DroppedOutside(states: seq<System>, events: seq<Event>, k: nat, id: Id)
    requires k <= |events| < |states|
  {
    exists j :: 0 <= j < k && events[j].Drop? && !events[j].runtime && events[j].i < |states[j].startups|
                && states[j].startups[events[j].i].guard == Some(id)
  }

  /** A client is stranded if and only if its startup was dropped, with its guard armed, outside a runtime. */
  lemma {:induction false} StrandedIff(states: seq<System>, events: seq<Event>, k: nat, id: Id)
    requires IsRun(states, events) && k < |states|
    ensures id in states[k].stranded <==> DroppedOutside(states, events, k, id)
    decreases k
  {
    if k > 0 {
      var (s, e) := (states[k - 1], events[k - 1]);
      StrandedIff(states, events, k - 1, id);
      assert Enabled(s, e) && states[k] == Step(s, e);
      if DroppedOutside(states, events, k - 1, id) {
        var j :| 0 <= j < k - 1 && events[j].Drop? && !events[j].runtime && events[j].i < |states[j].startups|
                 && states[j].startups[events[j].i].guard == Some(id);
        assert 0 <= j < k;
      }
      if e.Drop? && !e.runtime && s.startups[e.i].guard == Some(id) {
        assert events[k - 1].Drop? && states[k - 1].startups[events[k - 1].i].guard == Some(id);
      }
    }
  }

  lemma StrandedStays(s: System, e: Event, id: Id)
    requires Inv(s) && Enabled(s, e) && id in s.stranded && id in s.app.clients && e != OthersRemove(id)
    ensures id in Step(s, e).stranded && id in Step(s, e).app.clients
  {
    if e.Run? || e.Drop? {
      assert Guarded(s.startups[e.i]) && Settled(s, s.startups[e.i]);
    }
  }

  /** And then it stays, over any run, until somebody else removes it. */
  lemma {:induction false} StrandedForGood(states: seq<System>, events: seq<Event>, j: nat, k: nat, id: Id)
    requires IsRun(states, events) && j <= k < |states| && id in states[j].stranded && id in states[j].app.clients
    requires forall n :: j <= n < k ==> events[n] != OthersRemove(id)
    ensures id in states[k].stranded && id in states[k].app.clients
    decreases k
  {
    if j < k {
      StrandedForGood(states, events, j, k - 1, id);
      EveryState(states, events, k - 1);
      StrandedStays(states[k - 1], events[k - 1], id);
    }
  }

  /** So it happens: a startup registered and then dropped outside a runtime. */
  lemma StrandingRun(a: App) returns (states: seq<System>, events: seq<Event>)
    requires Numbered(a)
    ensures IsRun(states, events) && |events| == 3 && states[0].app == a
    ensures a.nextId in states[3].stranded && a.nextId in states[3].app.clients
  {
    var r := Request(true, None, 0);
    var s0 := System(a, [], {}, {});
    var s1 := Step(s0, Begin(r));
    var s2 := Step(s1, Run(0, true));
    var s3 := Step(s2, Drop(0, false));
    states, events := [s0, s1, s2, s3], [Begin(r), Run(0, true), Drop(0, false)];
  }

  /** And a task is left behind when it was scheduled after the cleanup. */
  lemma LateTaskRun(a: App) returns (states: seq<System>, events: seq<Event>)
    requires Numbered(a)
    ensures IsRun(states, events) && |events| == 5 && states[0].app == a
    ensures var s := states[5];
            && |s.startups| == 1 && s.startups[0].phase.Dropped? && s.cleanups == {} && s.stranded == {}
            && a.nextId !in s.app.clients && a.nextTask in s.app.tasks && s.app.tasks[a.nextTask] == a.nextId
  {
    var r := Request(true, None, 0);
    var s0 := System(a, [], {}, {});
    var s1 := Step(s0, Begin(r));
    var s2 := Step(s1, Run(0, true));
    var s3 := Step(s2, Drop(0, true));
    var s4 := Step(s3, Clean(a.nextId));
    var s5 := Step(s4, OthersSchedule(a.nextId));
    states := [s0, s1, s2, s3, s4, s5];
    events := [Begin(r), Run(0, true), Drop(0, true), Clean(a.nextId), OthersSchedule(a.nextId)];
  }
}
