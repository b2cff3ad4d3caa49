/**
 Updates of running servers that meet (src/cli/management.rs). Each runs from one await to the
 next and may be dropped there; others start, change and remove servers in between.
 */
module ServerUpdateRuns {
  import opened Wrappers
  import opened Composer
  import opened ServerUpdate

  // ---- one write ------------------------------------------------------------------------

  datatype Write =
    | Instruction(text: string)
    | Memory(text: string)
    | Handlers(list: seq<Json>)
    | Feedback(text: string)
    | Talk(history: nat, batching: bool)
    | Task(name: string)

  function Put(v: Server, w: Write): Server {
    match w
    case Instruction(t) => v.(instruction := t)
    case Memory(t) => v.(memory := t)
    case Handlers(h) => v.(handlers := Some(h))
    case Feedback(t) => v.(feedback := Some(t))
    case Talk(h, b) => v.(history := h, batching := b)
    case Task(_) => v
  }

  function PutAll(v: Server, ws: seq<Write>): Server
    decreases |ws|
  {
    if ws == [] then v else PutAll(Put(v, ws[0]), ws[1..])
  }

  /** A write to a server that is gone does nothing; a task is added all the same. */
  function Perform(s: State, id: Id, w: Write): State {
    if w.Task? then s.(tasks := s.tasks + [(id, w.name)])
    else if id in s.servers then s.(servers := s.servers[id := Put(s.servers[id], w)])
    else s
  }

  function TaskWrites(tasks: Option<seq<string>>): seq<Write> {
    if tasks == None then [] else seq(|tasks.value|, i requires 0 <= i < |tasks.value| => Task(tasks.value[i]))
  }

  /** The hot path's writes, one lock each. */
  function HotWrites(c: Server, f: ServerForm): seq<Write> {
    TextWrites(f) + OtherWrites(c, f) + TaskWrites(f.tasks)
  }

  function TextWrites(f: ServerForm): seq<Write> {
    (if f.instruction.Some? then [Instruction(f.instruction.value)] else []) +
    (if f.memory.Some? then [Memory(f.memory.value)] else [])
  }

  function OtherWrites(c: Server, f: ServerForm): seq<Write> {
    (if f.handlers.Some? then [Handlers(f.handlers.value)] else []) +
    (if f.feedback.Some? then [Feedback(f.feedback.value)] else []) +
    (if f.history.Some? || f.batching.Some? then [Talk(Or(f.history, c.history), Or(f.batching, c.batching))] else [])
  }

  /** A new server's writes once it is registered. */
  function FillWrites(l: Launch): seq<Write> {
    (if l.memory.Some? then [Memory(l.memory.value)] else []) +
    (if l.handlers.Some? then [Handlers(l.handlers.value)] else []) +
    TaskWrites(l.tasks)
  }

  // ---- one update -----------------------------------------------------------------------

  /** `Owed` is what a drop leaves to do: nothing, a cleanup, or one that no runtime took. */
  datatype Owed = Nothing | Cleanup | Stranded | Cleaned

  datatype Phase =
    | Checking
    | Writing(todo: seq<Write>)
    | Stopping
    | Starting
    | Filling(todo: seq<Write>)
    | Undoing
    | Returned(outcome: Outcome)
    | Refused(error: Error)
    | Midway(error: Error)
    | Failed(error: Error)
    | Dropped(owed: Owed)

  /** `seen` is the server as it was checked; `removed` whether it was then removed; `next` what was registered. */
  datatype Update = Update(target: Id, form: ServerForm, phase: Phase, seen: Option<Server>, removed: bool, next: Option<Id>)

  predicate Ended(p: Phase) {
    p.Returned? || p.Refused? || p.Midway? || p.Failed? || p.Dropped?
  }

  /** The guard is armed. */
  predicate Armed(p: Phase) {
    p.Filling? || p.Undoing?
  }

  function CheckStep(rules: Rules, files: Files, s: State, u: Update): (State, Update) {
    if Oversized(rules, u.form.params) then (s, u.(phase := Refused(OverBudget)))
    else if u.target !in s.servers then (s, u.(phase := Refused(NotFound)))
    else
      var c := s.servers[u.target];
      if Oversized(rules, c.params) then
        (s.(servers := s.servers[u.target := c.(params := None)]), u.(phase := Refused(OverBudget)))
      else
        var error := Check(rules, files, c, u.form);
        if error.Some? then (s, u.(phase := Refused(error.value)))
        else (s, u.(seen := Some(c), phase := if NeedsRestart(u.form) then Stopping else Writing(HotWrites(c, u.form))))
  }

  function StartStep(rules: Rules, s: State, u: Update, m: Machine): (State, Update) {
    if u.seen == None || Merged(rules, u.seen.value, u.form) == None then (s, u.(phase := Failed(BadParams)))
    else
      var l := Relaunch(rules, u.seen.value, u.form);
      var error := StartCheck(rules, l, m);
      if error.Some? then (s, u.(phase := Failed(error.value)))
      else (AddServer(s, Launched(rules, l.(memory := None, handlers := None))),
            u.(next := Some(s.nextId), phase := Filling(FillWrites(l))))
  }

  /** The next stretch, up to the next await. */
  function Advance(rules: Rules, s: State, u: Update, m: Machine): (State, Update)
    requires Armed(u.phase) ==> u.next.Some?
  {
    match u.phase
    case Checking => CheckStep(rules, m.files, s, u)
    case Writing(todo) =>
      if todo == [] then (s, u.(phase := Returned(Outcome(u.target, false))))
      else if todo[0].Handlers? && !rules.handlersOk(todo[0].list) then (s, u.(phase := Midway(BadHandlers)))
      else (Perform(s, u.target, todo[0]), u.(phase := Writing(todo[1..])))
    case Stopping => (RemoveServer(s, u.target), u.(removed := true, phase := Starting))
    case Starting => StartStep(rules, s, u, m)
    case Filling(todo) =>
      if todo != [] then (Perform(s, u.next.value, todo[0]), u.(phase := Filling(todo[1..])))
      else (s, u.(phase := if m.spawns then Returned(Outcome(u.next.value, true)) else Undoing))
    case Undoing => (RemoveServer(s, u.next.value), u.(phase := Failed(SpawnFailed)))
    case _ => (s, u)
  }

  // ---- the system -----------------------------------------------------------------------

  datatype System = System(state: State, updates: seq<Update>)

  datatype Event =
    | Begin(id: Id, form: ServerForm)
    | Run(i: nat, machine: Machine)
    | Drop(i: nat, runtime: bool)
    | Clean(i: nat)
    | OthersStart(launch: Launch, machine: Machine)
    | OthersRemove(id: Id)
    | OthersWrite(id: Id, write: Write)

  /** Others write no settings that were not resolved, no handlers that were not parsed, and schedule for ids there have been. */
  predicate Enabled(rules: Rules, s: System, e: Event) {
    match e
    case Run(i, _) => i < |s.updates| && !Ended(s.updates[i].phase) && (Armed(s.updates[i].phase) ==> s.updates[i].next.Some?)
    case Drop(i, _) => i < |s.updates| && !Ended(s.updates[i].phase)
    case Clean(i) => i < |s.updates| && s.updates[i].phase == Dropped(Cleanup) && s.updates[i].next.Some?
    case OthersWrite(id, w) => id < s.state.nextId && !w.Talk? && (w.Handlers? ==> rules.handlersOk(w.list))
    case _ => true
  }

  function Step(rules: Rules, s: System, e: Event): System
    requires Enabled(rules, s, e)
  {
    match e
    case Begin(id, f) => s.(updates := s.updates + [Update(id, f, Checking, None, false, None)])
    case Run(i, m) =>
      var (t, u) := Advance(rules, s.state, s.updates[i], m);
      System(t, s.updates[i := u])
    case Drop(i, runtime) =>
      var u := s.updates[i];
      var owed := if !Armed(u.phase) then Nothing else if runtime then Cleanup else Stranded;
      s.(updates := s.updates[i := u.(phase := Dropped(owed))])
    case Clean(i) =>
      System(RemoveServer(s.state, s.updates[i].next.value), s.updates[i := s.updates[i].(phase := Dropped(Cleaned))])
    case OthersStart(l, m) => s.(state := Started(rules, s.state, l, m).0)
    case OthersRemove(id) => s.(state := RemoveServer(s.state, id))
    case OthersWrite(id, w) => s.(state := Perform(s.state, id, w))
  }

  // ---- the invariant --------------------------------------------------------------------

  /** Writes that leave a sound server of this protocol sound. */
  predicate Safe(rules: Rules, ws: seq<Write>, protocol: string) {
    forall i :: 0 <= i < |ws| ==>
      && (ws[i].Handlers? ==> rules.handlersOk(ws[i].list))
      && (ws[i].Talk? ==> Talks(rules, ws[i].history, ws[i].batching, protocol))
  }

  predicate Checked(rules: Rules, u: Update) {
    u.seen.Some? && Sound(rules, u.seen.value) && Accepts(rules, u.seen.value, u.form)
  }

  /** What an update knows by its phase. */
  predicate Consistent(rules: Rules, u: Update) {
    match u.phase
    case Checking => u.seen == None && !u.removed && u.next == None
    case Refused(_) => u.seen == None && !u.removed && u.next == None
    case Writing(todo) => Checked(rules, u) && !NeedsRestart(u.form) && !u.removed && u.next == None && Safe(rules, todo, u.seen.value.protocol)
    case Stopping => Checked(rules, u) && NeedsRestart(u.form) && !u.removed && u.next == None
    case Starting => Checked(rules, u) && NeedsRestart(u.form) && u.removed && u.next == None
    case Filling(todo) => Checked(rules, u) && NeedsRestart(u.form) && u.removed && u.next.Some? && Safe(rules, todo, u.seen.value.protocol)
    case Undoing => Checked(rules, u) && NeedsRestart(u.form) && u.removed && u.next.Some?
    case Returned(o) =>
      && Checked(rules, u) && (o.restarted <==> NeedsRestart(u.form))
      && (if o.restarted then u.removed && u.next == Some(o.id) else !u.removed && u.next == None && o.id == u.target)
    case Midway(_) => false
    case Failed(_) => Checked(rules, u) && NeedsRestart(u.form) && u.removed
    case Dropped(owed) => (u.next.Some? ==> u.removed && !owed.Nothing?) && (u.removed ==> Checked(rules, u) && NeedsRestart(u.form))
  }

  predicate SameProtocol(s: State, id: Id, v: Server) {
    id in s.servers ==> s.servers[id].protocol == v.protocol
  }

  /** What an update relies on in the shared state. */
  predicate Holds(s: State, u: Update) {
    && (u.seen.Some? ==> u.target < s.nextId && SameProtocol(s, u.target, u.seen.value))
    && (u.removed ==> u.seen.Some? && u.target !in s.servers)
    && (u.next.Some? ==> u.seen.Some? && u.target < u.next.value < s.nextId && SameProtocol(s, u.next.value, u.seen.value))
    && (u.next.Some? && (u.phase.Failed? || u.phase == Dropped(Cleaned)) ==> u.next.value !in s.servers)
  }

  predicate Apart(us: seq<Update>) {
    forall i, j :: 0 <= i < j < |us| && us[i].next.Some? ==> us[i].next != us[j].next
  }

  predicate Inv(rules: Rules, s: System) {
    && Numbered(s.state) && AllSound(rules, s.state) && Apart(s.updates)
    && forall i :: 0 <= i < |s.updates| ==> Consistent(rules, s.updates[i]) && Holds(s.state, s.updates[i])
  }

  predicate Initial(rules: Rules, s: System) {
    s.updates == [] && Numbered(s.state) && AllSound(rules, s.state)
  }

  // ---- each step keeps it ---------------------------------------------------------------

  /** Servers keep their protocol, and those that are gone stay gone. */
  predicate Onward(s: State, t: State) {
    && s.nextId <= t.nextId
    && forall id :: id in t.servers && id < s.nextId ==> id in s.servers && t.servers[id].protocol == s.servers[id].protocol
  }

  predicate Fine(rules: Rules, s: State, t: State) {
    Onward(s, t) && Numbered(t) && AllSound(rules, t)
  }

  lemma HoldsOnward(s: State, t: State, u: Update)
    requires Onward(s, t) && Holds(s, u)
    ensures Holds(t, u)
  {
  }

  lemma RemovalFine(rules: Rules, s: State, id: Id)
    requires Numbered(s) && AllSound(rules, s)
    ensures Fine(rules, s, RemoveServer(s, id)) && id !in RemoveServer(s, id).servers
  {
    RemovalKeeps(rules, s, id);
    hide Sound, Without;
  }

  lemma WriteFine(rules: Rules, s: State, id: Id, w: Write)
    requires Numbered(s) && AllSound(rules, s) && id < s.nextId
    requires id in s.servers ==> Safe(rules, [w], s.servers[id].protocol)
    ensures Fine(rules, s, Perform(s, id, w))
  {
    if id in s.servers {
      assert Sound(rules, s.servers[id]) && w == [w][0];
      assert Sound(rules, Put(s.servers[id], w));
    }
    hide Sound, Safe, Put;
  }

  lemma StartFine(rules: Rules, s: State, l: Launch, m: Machine)
    requires Numbered(s) && AllSound(rules, s)
    ensures Fine(rules, s, Started(rules, s, l, m).0)
  {
    StartKeeps(rules, s, l, m);
    if Started(rules, s, l, m).1.Failure? {
      FailedStart(rules, s, l, m);
      hide Started, Sound;
    } else {
      hide StartCheck, Sound, Launched;
    }
  }

  lemma SafeAppend(rules: Rules, a: seq<Write>, b: seq<Write>, protocol: string)
    requires Safe(rules, a, protocol) && Safe(rules, b, protocol)
    ensures Safe(rules, a + b, protocol)
  {
    hide Talks;
  }

  lemma OtherWritesSafe(rules: Rules, c: Server, f: ServerForm)
    requires HandlersPass(rules, f.handlers) && Talks(rules, Or(f.history, c.history), Or(f.batching, c.batching), c.protocol)
    ensures Safe(rules, OtherWrites(c, f), c.protocol)
  {
    hide Talks;
  }

  lemma HotWritesSafe(rules: Rules, c: Server, f: ServerForm)
    requires Accepts(rules, c, f)
    ensures Safe(rules, HotWrites(c, f), c.protocol)
  {
    OtherWritesSafe(rules, c, f);
    hide Check, Accepts, OtherWrites;
    SafeAppend(rules, TextWrites(f), OtherWrites(c, f), c.protocol);
    SafeAppend(rules, TextWrites(f) + OtherWrites(c, f), TaskWrites(f.tasks), c.protocol);
  }

  lemma FillWritesSafe(rules: Rules, l: Launch, m: Machine)
    requires StartCheck(rules, l, m) == None
    ensures Safe(rules, FillWrites(l), l.protocol)
  {
  }

  /** Only one update moved. */
  lemma OneMoved(rules: Rules, s: System, i: nat, t: State, u: Update)
    requires Inv(rules, s) && i < |s.updates| && Fine(rules, s.state, t)
    requires Consistent(rules, u) && Holds(t, u)
    requires u.next == s.updates[i].next || u.next == Some(s.state.nextId)
    ensures Inv(rules, System(t, s.updates[i := u]))
  {
    var us := s.updates[i := u];
    forall j | 0 <= j < |us| ensures Consistent(rules, us[j]) && Holds(t, us[j]) {
      if j != i {
        assert Consistent(rules, s.updates[j]) && Holds(s.state, s.updates[j]);
        HoldsOnward(s.state, t, s.updates[j]);
      }
    }
    forall j, k | 0 <= j < k < |us| && us[j].next.Some? ensures us[j].next != us[k].next {
      assert Holds(s.state, s.updates[j]) && Holds(s.state, s.updates[k]);
      assert s.updates[j].next.Some? ==> s.updates[j].next != s.updates[k].next;
    }
  }

  /** Nobody's update moved. */
  lemma NoneMoved(rules: Rules, s: System, t: State)
    requires Inv(rules, s) && Fine(rules, s.state, t)
    ensures Inv(rules, s.(state := t))
  {
    forall j | 0 <= j < |s.updates| ensures Consistent(rules, s.updates[j]) && Holds(t, s.updates[j]) {
      HoldsOnward(s.state, t, s.updates[j]);
    }
  }

  lemma CheckFine(rules: Rules, files: Files, s: State, u: Update)
    requires Numbered(s) && AllSound(rules, s) && u.phase.Checking? && Consistent(rules, u)
    ensures var (t, v) := CheckStep(rules, files, s, u); t == s && Consistent(rules, v) && Holds(s, v) && v.next == None
  {
    if u.target in s.servers {
      assert Sound(rules, s.servers[u.target]);
      if Check(rules, files, s.servers[u.target], u.form) == None {
        CheckAccepts(rules, files, s.servers[u.target], u.form);
        HotWritesSafe(rules, s.servers[u.target], u.form);
      }
    }
    hide Check, Accepts, HotWrites;
  }

  lemma StartStepFine(rules: Rules, s: State, u: Update, m: Machine)
    requires Numbered(s) && AllSound(rules, s) && u.phase.Starting? && Consistent(rules, u) && Holds(s, u)
    ensures var (t, v) := StartStep(rules, s, u, m);
            Fine(rules, s, t) && Consistent(rules, v) && Holds(t, v) && (v.next == None || v.next == Some(s.nextId))
  {
    var l := Relaunch(rules, u.seen.value, u.form);
    assert l.protocol == u.seen.value.protocol;
    if StartCheck(rules, l, m) == None {
      FillWritesSafe(rules, l, m);
      assert Sound(rules, Launched(rules, l.(memory := None, handlers := None)));
      hide StartCheck, Check, Accepts, Sound, FillWrites, Safe;
    }
  }

  lemma AdvanceFine(rules: Rules, s: State, u: Update, m: Machine)
    requires Numbered(s) && AllSound(rules, s) && Consistent(rules, u) && Holds(s, u) && !Ended(u.phase)
    ensures var (t, v) := Advance(rules, s, u, m);
            Fine(rules, s, t) && Consistent(rules, v) && Holds(t, v) && (v.next == u.next || v.next == Some(s.nextId))
  {
    hide Check, Accepts, Sound, RemoveServer, Perform, CheckStep, StartStep, AllSound, Numbered;
    match u.phase
    case Checking => CheckFine(rules, m.files, s, u);
    case Writing(todo) =>
      if todo != [] {
        WriteFine(rules, s, u.target, todo[0]);
        HoldsOnward(s, Perform(s, u.target, todo[0]), u);
      }
    case Stopping =>
      RemovalFine(rules, s, u.target);
      HoldsOnward(s, RemoveServer(s, u.target), u);
    case Starting => StartStepFine(rules, s, u, m);
    case Filling(todo) =>
      if todo != [] {
        WriteFine(rules, s, u.next.value, todo[0]);
        HoldsOnward(s, Perform(s, u.next.value, todo[0]), u);
      }
    case Undoing =>
      RemovalFine(rules, s, u.next.value);
      HoldsOnward(s, RemoveServer(s, u.next.value), u);
  }

  lemma StepKeeps(rules: Rules, s: System, e: Event)
    requires Inv(rules, s) && Enabled(rules, s, e)
    ensures Inv(rules, Step(rules, s, e))
  {
    hide Sound, RemoveServer, Perform, Advance, Started, AllSound, Numbered, Check, Accepts;
    match e
    case Begin(id, f) =>
      var s' := Step(rules, s, e);
      forall j | 0 <= j < |s'.updates| ensures Consistent(rules, s'.updates[j]) && Holds(s'.state, s'.updates[j]) {
        assert j < |s.updates| ==> Consistent(rules, s.updates[j]) && Holds(s.state, s.updates[j]);
      }
    case Run(i, m) =>
      AdvanceFine(rules, s.state, s.updates[i], m);
      var (t, u) := Advance(rules, s.state, s.updates[i], m);
      OneMoved(rules, s, i, t, u);
    case Drop(i, runtime) =>
      assert Consistent(rules, s.updates[i]) && Holds(s.state, s.updates[i]);
      OneMoved(rules, s, i, s.state, Step(rules, s, e).updates[i]);
    case Clean(i) =>
      var id := s.updates[i].next.value;
      assert Consistent(rules, s.updates[i]) && Holds(s.state, s.updates[i]);
      RemovalFine(rules, s.state, id);
      HoldsOnward(s.state, RemoveServer(s.state, id), s.updates[i]);
      OneMoved(rules, s, i, RemoveServer(s.state, id), Step(rules, s, e).updates[i]);
    case OthersStart(l, m) =>
      StartFine(rules, s.state, l, m);
      NoneMoved(rules, s, Started(rules, s.state, l, m).0);
    case OthersRemove(id) =>
      RemovalFine(rules, s.state, id);
      NoneMoved(rules, s, RemoveServer(s.state, id));
    case OthersWrite(id, w) =>
      WriteFine(rules, s.state, id, w);
      NoneMoved(rules, s, Perform(s.state, id, w));
  }

  // ---- every run ------------------------------------------------------------------------

  /** The states of a run, and the events between them. */
  predicate IsRun(rules: Rules, states: seq<System>, events: seq<Event>) {
    && |states| == |events| + 1
    && Initial(rules, states[0])
    && forall k :: 0 <= k < |events| ==> Enabled(rules, states[k], events[k]) && states[k + 1] == Step(rules, states[k], events[k])
  }

  /** In particular no server's parameters are ever too large, and no update is ever stopped midway. */
  lemma {:induction false} EveryState(rules: Rules, states: seq<System>, events: seq<Event>, k: nat)
    requires IsRun(rules, states, events) && k < |states|
    ensures Inv(rules, states[k])
    decreases k
  {
    hide Consistent, Holds, Step, Sound;
    if k > 0 {
      EveryState(rules, states, events, k - 1);
      StepKeeps(rules, states[k - 1], events[k - 1]);
    }
  }

  predicate Untried(p: Phase) {
    p.Checking? || p.Refused?
  }

  lemma UntriedBefore(rules: Rules, s: System, e: Event, i: nat)
    requires Inv(rules, s) && Enabled(rules, s, e) && i < |s.updates| && Untried(Step(rules, s, e).updates[i].phase)
    ensures Untried(s.updates[i].phase)
    ensures e.Run? && e.i == i ==> Step(rules, s, e).state == s.state
  {
    if e.Run? && e.i == i {
      assert Consistent(rules, s.updates[i]);
      if s.updates[i].phase.Checking? {
        CheckFine(rules, e.machine.files, s.state, s.updates[i]);
      }
      hide Check, Accepts, StartCheck, Sound;
    }
  }

  /** Whatever happens around it, an update that is refused has changed nothing in any of its steps. */
  lemma {:induction false} RefusedTouchedNothing(rules: Rules, states: seq<System>, events: seq<Event>, j: nat, k: nat, i: nat)
    requires IsRun(rules, states, events) && j < k < |states| && i < |states[j].updates|
    requires i < |states[k].updates| && Untried(states[k].updates[i].phase)
    ensures events[j].Run? && events[j].i == i ==> states[j + 1].state == states[j].state
    decreases k
  {
    hide Step, Inv, Enabled;
    EveryState(rules, states, events, k - 1);
    var (s, e) := (states[k - 1], events[k - 1]);
    assert Enabled(rules, s, e) && states[k] == Step(rules, s, e);
    UpdatesStay(rules, states, events, j, k - 1);
    UntriedBefore(rules, s, e, i);
    if j < k - 1 {
      RefusedTouchedNothing(rules, states, events, j, k - 1, i);
    }
  }

  lemma {:induction false} UpdatesStay(rules: Rules, states: seq<System>, events: seq<Event>, j: nat, k: nat)
    requires IsRun(rules, states, events) && j <= k < |states|
    ensures |states[j].updates| <= |states[k].updates|
    decreases k
  {
    if j < k {
      UpdatesStay(rules, states, events, j, k - 1);
      assert Enabled(rules, states[k - 1], events[k - 1]) && states[k] == Step(rules, states[k - 1], events[k - 1]);
      hide Advance, Started, Perform, RemoveServer;
    }
  }

  /** At no time do a server and its replacement both exist; and what is replaced never comes back. */
  lemma NeverBoth(rules: Rules, states: seq<System>, events: seq<Event>, k: nat, i: nat)
    requires IsRun(rules, states, events) && k < |states| && i < |states[k].updates|
    ensures var u := states[k].updates[i];
            && (u.next.Some? ==> u.removed && u.target < u.next.value)
            && (u.removed ==> u.target !in states[k].state.servers)
  {
    EveryState(rules, states, events, k);
    assert Consistent(rules, states[k].updates[i]) && Holds(states[k].state, states[k].updates[i]);
    hide Check, Accepts, Sound;
  }

  /**
   Past its removal only an update that returns leaves a server: one that fails or is dropped
   leaves neither the old nor the new, once its cleanup has run.
   */
  lemma LostUnlessReturned(rules: Rules, states: seq<System>, events: seq<Event>, k: nat, i: nat)
    requires IsRun(rules, states, events) && k < |states| && i < |states[k].updates|
    requires var p := states[k].updates[i].phase;
             (p.Failed? || (p.Dropped? && !p.owed.Cleanup? && !p.owed.Stranded?)) && states[k].updates[i].removed
    ensures var u := states[k].updates[i];
            && u.target !in states[k].state.servers
            && (u.next.Some? ==> u.next.value !in states[k].state.servers)
  {
    EveryState(rules, states, events, k);
    assert Consistent(rules, states[k].updates[i]) && Holds(states[k].state, states[k].updates[i]);
    hide Check, Accepts, Sound;
  }

  /** An update that returns a new server did so when that server had come up. */
  lemma {:induction false} ReturnedCameUp(rules: Rules, states: seq<System>, events: seq<Event>, k: nat, i: nat) returns (n: nat)
    requires IsRun(rules, states, events) && k < |states| && i < |states[k].updates|
    requires states[k].updates[i].phase.Returned? && states[k].updates[i].phase.outcome.restarted
    ensures n < k && events[n].Run? && events[n].i == i && events[n].machine.spawns
    decreases k
  {
    hide Check, StartCheck, HotWrites, FillWrites, RemoveServer, Perform, Relaunch, Launched, Started;
    n := k - 1;
    assert states[k] == Step(rules, states[n], events[n]);
    if i < |states[n].updates| && states[n].updates[i].phase == states[k].updates[i].phase {
      n := ReturnedCameUp(rules, states, events, n, i);
    }
  }

  /** One whose server did not come up takes it away again, with its tasks, and fails. */
  lemma NotUpIsUndone(rules: Rules, s: System, i: nat, m: Machine, m': Machine)
    requires i < |s.updates| && s.updates[i].phase == Filling([]) && s.updates[i].next.Some? && !m.spawns
    ensures Enabled(rules, s, Run(i, m)) && Enabled(rules, Step(rules, s, Run(i, m)), Run(i, m'))
    ensures var t := Step(rules, Step(rules, s, Run(i, m)), Run(i, m'));
            var id := s.updates[i].next.value;
            && t.updates[i].phase == Failed(SpawnFailed)
            && t.state.servers == s.state.servers - {id}
            && forall x :: x in t.state.tasks <==> x in s.state.tasks && x.0 != id
  {
    WithoutIs(s.state.tasks, s.updates[i].next.value);
    hide Without;
  }

  /** So a restart dropped just after the removal loses its server. */
  lemma LosingRun(rules: Rules, s: State, id: Id, f: ServerForm, m: Machine) returns (states: seq<System>, events: seq<Event>)
    requires Numbered(s) && AllSound(rules, s) && Removes(rules, s, id, f, m.files)
    ensures IsRun(rules, states, events) && |events| == 4 && states[0].state == s
    ensures states[4].state == RemoveServer(s, id) && |states[4].updates| == 1 && states[4].updates[0].phase == Dropped(Nothing)
  {
    assert Sound(rules, s.servers[id]);
    assert !Oversized(rules, s.servers[id].params);
    hide Check, Accepts, Sound, RemoveServer, HotWrites, AllSound, Numbered;
    var s0 := System(s, []);
    var s1 := Step(rules, s0, Begin(id, f));
    var s2 := Step(rules, s1, Run(0, m));
    assert s2.updates[0].phase == Stopping && s2.state == s;
    var s3 := Step(rules, s2, Run(0, m));
    var s4 := Step(rules, s3, Drop(0, true));
    states, events := [s0, s1, s2, s3, s4], [Begin(id, f), Run(0, m), Run(0, m), Drop(0, true)];
  }

  // ---- two restarts of one server -------------------------------------------------------

  /** An update that looks for its server after another has removed it is refused. */
  lemma TooLate(rules: Rules, states: seq<System>, events: seq<Event>, k: nat, i: nat, j: nat, m: Machine)
    requires IsRun(rules, states, events) && k < |states| && i < |states[k].updates| && j < |states[k].updates|
    requires states[k].updates[i].removed && states[k].updates[j].phase.Checking?
    requires states[k].updates[j].target == states[k].updates[i].target
    ensures Advance(rules, states[k].state, states[k].updates[j], m).1.phase.Refused?
  {
    NeverBoth(rules, states, events, k, i);
  }

  /** A restart whose new server needs no writes of its own. */
  predicate Plain(rules: Rules, s: State, id: Id, f: ServerForm, m: Machine) {
    && Removes(rules, s, id, f, m.files) && m.spawns
    && StartCheck(rules, Relaunch(rules, s.servers[id], f), m) == None
    && FillWrites(Relaunch(rules, s.servers[id], f)) == []
  }

  lemma Looks(rules: Rules, s: State, us: seq<Update>, i: nat, f: ServerForm, m: Machine)
    requires i < |us| && AllSound(rules, s) && Removes(rules, s, us[i].target, f, m.files)
    requires us[i] == Update(us[i].target, f, Checking, None, false, None)
    ensures Step(rules, System(s, us), Run(i, m)) ==
            System(s, us[i := Update(us[i].target, f, Stopping, Some(s.servers[us[i].target]), false, None)])
  {
    assert Sound(rules, s.servers[us[i].target]);
    hide Check, Accepts, HotWrites, NeedsRestart;
  }

  lemma Starts(rules: Rules, s: State, us: seq<Update>, i: nat, f: ServerForm, c: Server, m: Machine)
    requires i < |us| && us[i] == Update(us[i].target, f, Starting, Some(c), true, None)
    requires Merged(rules, c, f).Some? && StartCheck(rules, Relaunch(rules, c, f), m) == None
    requires FillWrites(Relaunch(rules, c, f)) == []
    ensures Step(rules, System(s, us), Run(i, m)).updates == us[i := Update(us[i].target, f, Filling([]), Some(c), true, Some(s.nextId))]
    ensures var s' := Step(rules, System(s, us), Run(i, m)).state;
            s'.servers.Keys == s.servers.Keys + {s.nextId} && s'.nextId == s.nextId + 1
  {
    hide StartCheck, Launched, Merged, FillWrites;
  }

  lemma Stops(rules: Rules, s: State, us: seq<Update>, i: nat, f: ServerForm, c: Server, m: Machine)
    requires i < |us| && us[i] == Update(us[i].target, f, Stopping, Some(c), false, None)
    ensures Step(rules, System(s, us), Run(i, m)) ==
            System(RemoveServer(s, us[i].target), us[i := Update(us[i].target, f, Starting, Some(c), true, None)])
  {
    hide RemoveServer;
  }

  lemma ComesUp(rules: Rules, s: State, us: seq<Update>, i: nat, m: Machine)
    requires i < |us| && us[i].phase == Filling([]) && us[i].next.Some? && m.spawns
    ensures Step(rules, System(s, us), Run(i, m)) ==
            System(s, us[i := us[i].(phase := Returned(Outcome(us[i].next.value, true)))])
  {
  }

  /** One event more. */
  lemma Then(rules: Rules, states: seq<System>, events: seq<Event>, e: Event) returns (t: System, states': seq<System>, events': seq<Event>)
    requires IsRun(rules, states, events) && Enabled(rules, states[|events|], e)
    ensures t == Step(rules, states[|events|], e) && states' == states + [t] && events' == events + [e]
    ensures IsRun(rules, states', events') && |states| == |events| + 1
  {
    hide Step, Enabled, Initial;
    t := Step(rules, states[|events|], e);
    states', events' := states + [t], events + [e];
  }

  lemma BothLook(rules: Rules, s: State, id: Id, f: ServerForm, g: ServerForm, m: Machine)
    returns (states: seq<System>, events: seq<Event>)
    requires Numbered(s) && AllSound(rules, s) && Removes(rules, s, id, f, m.files) && Removes(rules, s, id, g, m.files)
    ensures IsRun(rules, states, events) && |events| == 4 && |states| == 5 && states[0].state == s
    ensures var c := s.servers[id];
            states[4] == System(s, [Update(id, f, Stopping, Some(c), false, None), Update(id, g, Stopping, Some(c), false, None)])
  {
    hide Check, Accepts, Sound, AllSound, Numbered, NeedsRestart, IsRun, Advance;
    var t := System(s, []);
    states, events := [t], [];
    assert IsRun(rules, states, events) by {
      assert Initial(rules, states[0]);
      RunOfNone(rules, t);
    }
    t, states, events := Then(rules, states, events, Begin(id, f));
    t, states, events := Then(rules, states, events, Begin(id, g));
    Looks(rules, s, t.updates, 0, f, m);
    t, states, events := Then(rules, states, events, Run(0, m));
    Looks(rules, s, t.updates, 1, g, m);
    t, states, events := Then(rules, states, events, Run(1, m));
  }

  lemma RunOfNone(rules: Rules, s: System)
    requires Initial(rules, s)
    ensures IsRun(rules, [s], [])
  {
  }

  lemma BothStop(rules: Rules, s: State, id: Id, f: ServerForm, g: ServerForm, m: Machine)
    returns (states: seq<System>, events: seq<Event>)
    requires Numbered(s) && AllSound(rules, s) && Removes(rules, s, id, f, m.files) && Removes(rules, s, id, g, m.files)
    ensures IsRun(rules, states, events) && |events| == 6 && |states| == 7 && states[0].state == s
    ensures var (c, t) := (s.servers[id], states[6]);
            && t.state.servers == s.servers - {id} && t.state.nextId == s.nextId
            && t.updates == [Update(id, f, Starting, Some(c), true, None), Update(id, g, Starting, Some(c), true, None)]
  {
    var c := s.servers[id];
    hide Check, Accepts, Sound, AllSound, Numbered, NeedsRestart, Without, Step, IsRun;
    states, events := BothLook(rules, s, id, f, g, m);
    var t := states[4];
    Stops(rules, t.state, t.updates, 0, f, c, m);
    t, states, events := Then(rules, states, events, Run(0, m));
    Stops(rules, t.state, t.updates, 1, g, c, m);
    t, states, events := Then(rules, states, events, Run(1, m));
  }

  lemma BothStart(rules: Rules, s: State, id: Id, f: ServerForm, g: ServerForm, m: Machine)
    returns (states: seq<System>, events: seq<Event>)
    requires Numbered(s) && AllSound(rules, s) && Plain(rules, s, id, f, m) && Plain(rules, s, id, g, m)
    ensures IsRun(rules, states, events) && |events| == 8 && |states| == 9 && states[0].state == s
    ensures var (c, t) := (s.servers[id], states[8]);
            && t.state.servers.Keys == s.servers.Keys - {id} + {s.nextId, s.nextId + 1}
            && t.updates == [Update(id, f, Filling([]), Some(c), true, Some(s.nextId)),
                             Update(id, g, Filling([]), Some(c), true, Some(s.nextId + 1))]
  {
    hide Check, Accepts, Sound, StartCheck, Relaunch, FillWrites, AllSound, Numbered, Merged, NeedsRestart, Step, IsRun, Oversized;
    var c := s.servers[id];
    CheckAccepts(rules, m.files, c, f);
    CheckAccepts(rules, m.files, c, g);
    states, events := BothStop(rules, s, id, f, g, m);
    var t := states[6];
    Starts(rules, t.state, t.updates, 0, f, c, m);
    t, states, events := Then(rules, states, events, Run(0, m));
    Starts(rules, t.state, t.updates, 1, g, c, m);
    t, states, events := Then(rules, states, events, Run(1, m));
  }

  /** But two that both looked before either removed leave two servers in its place. */
  lemma TwoForOne(rules: Rules, s: State, id: Id, f: ServerForm, g: ServerForm, m: Machine)
    returns (states: seq<System>, events: seq<Event>)
    requires Numbered(s) && AllSound(rules, s) && Plain(rules, s, id, f, m) && Plain(rules, s, id, g, m)
    ensures IsRun(rules, states, events) && |events| == 10 && states[0].state == s
    ensures states[10].state.servers.Keys == s.servers.Keys - {id} + {s.nextId, s.nextId + 1}
    ensures var us := states[10].updates;
            && |us| == 2
            && us[0].phase == Returned(Outcome(s.nextId, true))
            && us[1].phase == Returned(Outcome(s.nextId + 1, true))
  {
    states, events := BothStart(rules, s, id, f, g, m);
    hide Plain, AllSound, Numbered, Step, IsRun;
    var t := states[8];
    ComesUp(rules, t.state, t.updates, 0, m);
    t, states, events := Then(rules, states, events, Run(0, m));
    ComesUp(rules, t.state, t.updates, 1, m);
    t, states, events := Then(rules, states, events, Run(1, m));
  }

  // ---- an update nobody disturbs --------------------------------------------------------

  lemma {:induction false} PutAllAppend(v: Server, a: seq<Write>, b: seq<Write>)
    ensures PutAll(v, a + b) == PutAll(PutAll(v, a), b)
    decreases |a|
  {
    if a == [] {
      assert a + b == b;
    } else {
      assert (a + b)[1..] == a[1..] + b;
      PutAllAppend(Put(v, a[0]), a[1..], b);
    }
  }

  lemma {:induction false} PutTasks(v: Server, ws: seq<Write>)
    requires forall i :: 0 <= i < |ws| ==> ws[i].Task?
    ensures PutAll(v, ws) == v
    decreases |ws|
  {
    if ws != [] {
      PutTasks(v, ws[1..]);
    }
  }

  lemma PutOne(v: Server, w: Write)
    ensures PutAll(v, [w]) == Put(v, w)
  {
    assert [w][1..] == [];
  }

  lemma TextsPut(v: Server, f: ServerForm)
    ensures PutAll(v, TextWrites(f)) == Halfway(v, f)
  {
    var a := if f.instruction.Some? then [Instruction(f.instruction.value)] else [];
    var b := if f.memory.Some? then [Memory(f.memory.value)] else [];
    PutAllAppend(v, a, b);
    if f.instruction.Some? {
      PutOne(v, a[0]);
    }
    if f.memory.Some? {
      PutOne(PutAll(v, a), b[0]);
    }
  }

  lemma OthersPut(c: Server, v: Server, f: ServerForm)
    requires (v.history, v.batching) == (c.history, c.batching)
    ensures PutAll(v, OtherWrites(c, f)) ==
            v.(handlers := if f.handlers.Some? then f.handlers else v.handlers,
               feedback := if f.feedback.Some? then f.feedback else v.feedback,
               history := Or(f.history, c.history), batching := Or(f.batching, c.batching))
  {
    var a := if f.handlers.Some? then [Handlers(f.handlers.value)] else [];
    var b := if f.feedback.Some? then [Feedback(f.feedback.value)] else [];
    var t := if f.history.Some? || f.batching.Some? then [Talk(Or(f.history, c.history), Or(f.batching, c.batching))] else [];
    PutAllAppend(v, a, b);
    PutAllAppend(v, a + b, t);
    if f.handlers.Some? {
      PutOne(v, a[0]);
    }
    if f.feedback.Some? {
      PutOne(PutAll(v, a), b[0]);
    }
    if f.history.Some? || f.batching.Some? {
      PutOne(PutAll(v, a + b), t[0]);
    }
  }

  /** The hot writes together are the patch. */
  lemma HotWritesPatch(c: Server, f: ServerForm)
    ensures PutAll(c, HotWrites(c, f)) == Patched(c, f)
  {
    PutAllAppend(c, TextWrites(f), OtherWrites(c, f));
    PutAllAppend(c, TextWrites(f) + OtherWrites(c, f), TaskWrites(f.tasks));
    TextsPut(c, f);
    OthersPut(c, Halfway(c, f), f);
    PutTasks(PutAll(c, TextWrites(f) + OtherWrites(c, f)), TaskWrites(f.tasks));
    hide TextWrites, OtherWrites, TaskWrites, PutAll;
  }

  /** And a new server's writes make it the one that was asked for. */
  lemma FillWritesLaunch(rules: Rules, l: Launch)
    requires Folded(rules, l).Some?
    ensures PutAll(Launched(rules, l.(memory := None, handlers := None)), FillWrites(l)) == Launched(rules, l)
  {
    var v := Launched(rules, l.(memory := None, handlers := None));
    var a := if l.memory.Some? then [Memory(l.memory.value)] else [];
    var b := if l.handlers.Some? then [Handlers(l.handlers.value)] else [];
    PutAllAppend(v, a, b);
    PutAllAppend(v, a + b, TaskWrites(l.tasks));
    PutTasks(PutAll(v, a + b), TaskWrites(l.tasks));
    assert FillWrites(l) == a + b + TaskWrites(l.tasks);
    if l.memory.Some? {
      PutOne(v, a[0]);
    }
    if l.handlers.Some? {
      PutOne(PutAll(v, a), b[0]);
    }
    hide TaskWrites, FillWrites;
  }

  predicate Own(u: Update, id: Id) {
    id == u.target || u.next == Some(id)
  }

  /** The event is another's and may change one of the update's two servers. */
  predicate Disturbs(s: System, e: Event, i: nat)
    requires i < |s.updates|
  {
    var u := s.updates[i];
    match e
    case Run(j, _) => j != i && j < |s.updates| && (Own(u, s.updates[j].target) || s.updates[j].next == Some(u.target))
    case Clean(j) => j < |s.updates| && s.updates[j].next == Some(u.target)
    case OthersRemove(id) => Own(u, id)
    case OthersWrite(id, w) => Own(u, id) && !w.Task?
    case _ => false
  }

  /** What a restart of `c` is to end in. */
  predicate Relaunched(rules: Rules, c: Server, f: ServerForm, v: Server) {
    Merged(rules, c, f).Some? && Folded(rules, Relaunch(rules, c, f)).Some? && v == Launched(rules, Relaunch(rules, c, f))
  }

  /** The writes still to do will end in what was asked of `c`. */
  predicate OnCourse(rules: Rules, s: State, u: Update, c: Server) {
    match u.phase
    case Checking => u.target in s.servers && s.servers[u.target] == c
    case Writing(todo) => u.seen == Some(c) && u.target in s.servers && PutAll(s.servers[u.target], todo) == Patched(c, u.form)
    case Stopping => u.seen == Some(c)
    case Starting => u.seen == Some(c)
    case Filling(todo) =>
      u.seen == Some(c) && u.next.Some? && u.next.value in s.servers && Relaunched(rules, c, u.form, PutAll(s.servers[u.next.value], todo))
    case Returned(o) =>
      && u.seen == Some(c) && o.id in s.servers
      && (if o.restarted then Relaunched(rules, c, u.form, s.servers[o.id]) else s.servers[o.id] == Patched(c, u.form))
    case _ => true
  }

  lemma CheckOnCourse(rules: Rules, files: Files, s: State, u: Update, c: Server)
    requires u.phase.Checking? && OnCourse(rules, s, u, c)
    ensures var (t, v) := CheckStep(rules, files, s, u); OnCourse(rules, t, v, c)
  {
    HotWritesPatch(c, u.form);
    hide Check, Accepts, HotWrites, Patched, PutAll;
  }

  lemma StartOnCourse(rules: Rules, s: State, u: Update, m: Machine, c: Server)
    requires u.phase.Starting? && OnCourse(rules, s, u, c)
    ensures var (t, v) := StartStep(rules, s, u, m); OnCourse(rules, t, v, c)
  {
    if Merged(rules, c, u.form).Some? {
      var l := Relaunch(rules, c, u.form);
      if StartCheck(rules, l, m) == None {
        FillWritesLaunch(rules, l);
      }
      hide StartCheck, FillWrites, PutAll, Launched;
    }
  }

  lemma OwnStep(rules: Rules, s: State, u: Update, m: Machine, c: Server)
    requires OnCourse(rules, s, u, c) && Consistent(rules, u) && !Ended(u.phase)
    ensures var (t, v) := Advance(rules, s, u, m); OnCourse(rules, t, v, c)
  {
    hide CheckStep, StartStep, Relaunched, Patched, Check, Accepts, Sound;
    match u.phase
    case Checking => CheckOnCourse(rules, m.files, s, u, c);
    case Starting => StartOnCourse(rules, s, u, m, c);
    case _ =>
  }

  predicate SameAt(s: State, t: State, id: Id) {
    (id in s.servers <==> id in t.servers) && (id in s.servers ==> t.servers[id] == s.servers[id])
  }

  lemma TouchesItsOwn(rules: Rules, s: State, v: Update, m: Machine, id: Id)
    requires (Armed(v.phase) ==> v.next.Some?) && !Own(v, id) && id < s.nextId
    ensures SameAt(s, Advance(rules, s, v, m).0, id)
  {
    hide Check, Accepts, StartCheck, Launched, Relaunch, Merged, Without;
  }

  /** Nobody else's event touches the update's servers, unless it disturbs. */
  lemma LeavesAlone(rules: Rules, s: System, e: Event, i: nat, id: Id)
    requires Inv(rules, s) && Enabled(rules, s, e) && i < |s.updates| && !Disturbs(s, e, i)
    requires Own(s.updates[i], id) && id < s.state.nextId && !(e.Run? && e.i == i) && !(e.Clean? && e.i == i)
    ensures SameAt(s.state, Step(rules, s, e).state, id)
  {
    var u := s.updates[i];
    match e
    case Run(j, m) =>
      assert s.updates[j].next.Some? ==> s.updates[j].next != u.next;
      TouchesItsOwn(rules, s.state, s.updates[j], m, id);
      hide Advance, Consistent, Holds, Sound;
    case Clean(j) =>
      assert s.updates[j].next != u.next;
      hide Consistent, Holds, Sound, Without;
    case OthersStart(l, m) =>
      if Started(rules, s.state, l, m).1.Failure? {
        FailedStart(rules, s.state, l, m);
        hide Started, Consistent, Holds, Sound;
      } else {
        hide StartCheck, Launched, Consistent, Holds, Sound;
      }
    case _ => hide Consistent, Holds, Sound, Without;
  }

  predicate SameRequest(u: Update, v: Update) {
    u.target == v.target && u.form == v.form
  }

  lemma RequestKept(rules: Rules, s: State, u: Update, m: Machine)
    requires Armed(u.phase) ==> u.next.Some?
    ensures SameRequest(u, Advance(rules, s, u, m).1)
  {
    hide Check, Accepts, StartCheck, Launched, Relaunch, Merged, RemoveServer, Perform, HotWrites, FillWrites;
  }

  lemma CourseKept(rules: Rules, s: System, e: Event, i: nat, c: Server)
    requires Inv(rules, s) && Enabled(rules, s, e) && i < |s.updates| && !Disturbs(s, e, i)
    requires OnCourse(rules, s.state, s.updates[i], c)
    ensures OnCourse(rules, Step(rules, s, e).state, Step(rules, s, e).updates[i], c)
    ensures SameRequest(s.updates[i], Step(rules, s, e).updates[i])
  {
    var u := s.updates[i];
    if e.Run? {
      RequestKept(rules, s.state, s.updates[e.i], e.machine);
    }
    assert Consistent(rules, u) && Holds(s.state, u);
    if e.Run? && e.i == i {
      OwnStep(rules, s.state, u, e.machine, c);
      hide Advance, OnCourse;
    } else if !(e.Clean? && e.i == i) && !(e.Drop? && e.i == i) {
      forall id: Id | Own(u, id) && id < s.state.nextId ensures SameAt(s.state, Step(rules, s, e).state, id) {
        LeavesAlone(rules, s, e, i, id);
      }
      StillOnCourse(rules, s.state, Step(rules, s, e).state, u, c);
      hide OnCourse, Advance, Started, Perform, RemoveServer, Inv, Consistent, Holds;
    }
  }

  lemma StillOnCourse(rules: Rules, s: State, t: State, u: Update, c: Server)
    requires Numbered(s) && Consistent(rules, u) && Holds(s, u) && OnCourse(rules, s, u, c)
    requires forall id: Id :: Own(u, id) && id < s.nextId ==> SameAt(s, t, id)
    ensures OnCourse(rules, t, u, c)
  {
    hide Check, Accepts, Sound, Relaunched, Patched, PutAll, NeedsRestart;
    assert Own(u, u.target);
    if u.next.Some? {
      assert Own(u, u.next.value);
    }
  }

  lemma {:induction false} OnCourseThroughout(rules: Rules, states: seq<System>, events: seq<Event>, j: nat, k: nat, i: nat, c: Server)
    requires IsRun(rules, states, events) && j <= k < |states| && i < |states[j].updates|
    requires OnCourse(rules, states[j].state, states[j].updates[i], c)
    requires forall n :: j <= n < k ==> i < |states[n].updates| && !Disturbs(states[n], events[n], i)
    ensures i < |states[k].updates| && OnCourse(rules, states[k].state, states[k].updates[i], c)
    ensures SameRequest(states[j].updates[i], states[k].updates[i])
    decreases k
  {
    hide Step, Inv, Enabled, OnCourse, Disturbs;
    if j < k {
      OnCourseThroughout(rules, states, events, j, k - 1, i, c);
      EveryState(rules, states, events, k - 1);
      UpdatesStay(rules, states, events, k - 1, k);
      assert Enabled(rules, states[k - 1], events[k - 1]) && states[k] == Step(rules, states[k - 1], events[k - 1]);
      CourseKept(rules, states[k - 1], events[k - 1], i, c);
    }
  }

  // ---- the tasks an update schedules ----------------------------------------------------

  function Asked(f: ServerForm): seq<string> {
    if f.tasks.Some? then f.tasks.value else []
  }

  /** The tasks among the writes. */
  function Due(ws: seq<Write>): seq<string> {
    if ws == [] then [] else (if ws[0].Task? then [ws[0].name] else []) + Due(ws[1..])
  }

  /** The tasks scheduled for a server. */
  function Names(tasks: seq<(Id, string)>, id: Id): seq<string> {
    if tasks == [] then []
    else Names(tasks[..|tasks| - 1], id) + (if tasks[|tasks| - 1].0 == id then [tasks[|tasks| - 1].1] else [])
  }

  predicate TasksGrow(s: State, t: State, id: Id) {
    multiset(Names(s.tasks, id)) <= multiset(Names(t.tasks, id))
  }

  lemma {:induction false} DueAppend(a: seq<Write>, b: seq<Write>)
    ensures Due(a + b) == Due(a) + Due(b)
    decreases |a|
  {
    if a == [] {
      assert a + b == b;
    } else {
      assert (a + b)[1..] == a[1..] + b;
      DueAppend(a[1..], b);
    }
  }

  lemma {:induction false} DueNone(ws: seq<Write>)
    requires forall i :: 0 <= i < |ws| ==> !ws[i].Task?
    ensures Due(ws) == []
    decreases |ws|
  {
    if ws != [] {
      DueNone(ws[1..]);
    }
  }

  lemma {:induction false} DueTasks(names: seq<string>)
    ensures Due(TaskWrites(Some(names))) == names
    decreases |names|
  {
    var ws := TaskWrites(Some(names));
    if names != [] {
      DueTasks(names[1..]);
      assert ws[1..] == TaskWrites(Some(names[1..]));
    }
  }

  lemma HotDue(c: Server, f: ServerForm)
    ensures Due(HotWrites(c, f)) == Asked(f)
  {
    DueNone(TextWrites(f));
    DueNone(OtherWrites(c, f));
    DueAppend(TextWrites(f), OtherWrites(c, f));
    DueAppend(TextWrites(f) + OtherWrites(c, f), TaskWrites(f.tasks));
    if f.tasks.Some? {
      DueTasks(f.tasks.value);
    }
    hide TextWrites, OtherWrites, TaskWrites;
  }

  lemma FillDue(l: Launch)
    ensures Due(FillWrites(l)) == if l.tasks.Some? then l.tasks.value else []
  {
    var a := if l.memory.Some? then [Memory(l.memory.value)] else [];
    var b := if l.handlers.Some? then [Handlers(l.handlers.value)] else [];
    var c := TaskWrites(l.tasks);
    DueNone(a);
    DueNone(b);
    DueAppend(a, b);
    DueAppend(a + b, c);
    assert FillWrites(l) == a + b + c;
    if l.tasks.Some? {
      DueTasks(l.tasks.value);
    }
    hide TaskWrites, FillWrites;
    assert l.tasks == None ==> c == [];
  }

  lemma {:induction false} NamesAppend(a: seq<(Id, string)>, b: seq<(Id, string)>, id: Id)
    ensures Names(a + b, id) == Names(a, id) + Names(b, id)
    decreases |b|
  {
    if b == [] {
      assert a + b == a;
    } else {
      assert (a + b)[..|a + b| - 1] == a + b[..|b| - 1];
      NamesAppend(a, b[..|b| - 1], id);
    }
  }

  lemma {:induction false} NamesWithout(tasks: seq<(Id, string)>, other: Id, id: Id)
    requires other != id
    ensures Names(Without(tasks, other), id) == Names(tasks, id)
    decreases |tasks|
  {
    if tasks != [] {
      var first := if tasks[0].0 == other then [] else [tasks[0]];
      NamesWithout(tasks[1..], other, id);
      NamesAppend(first, Without(tasks[1..], other), id);
      NamesAppend([tasks[0]], tasks[1..], id);
      assert tasks == [tasks[0]] + tasks[1..];
      OneName(tasks[0], id);
      NoNames(id);
    }
  }

  lemma OneName(t: (Id, string), id: Id)
    ensures Names([t], id) == if t.0 == id then [t.1] else []
  {
    assert [t][..0] == [];
  }

  lemma NoNames(id: Id)
    ensures Names([], id) == []
  {
  }

  lemma MoreTasks(s: State, t: State, more: seq<(Id, string)>, id: Id)
    requires t.tasks == s.tasks + more
    ensures TasksGrow(s, t, id)
  {
    NamesAppend(s.tasks, more, id);
  }

  lemma TasksOfOthers(rules: Rules, s: State, v: Update, m: Machine, id: Id)
    requires (Armed(v.phase) ==> v.next.Some?) && !Own(v, id)
    ensures TasksGrow(s, Advance(rules, s, v, m).0, id)
  {
    hide Check, Accepts, StartCheck, Launched, Relaunch, Merged, Without, Names, HotWrites, FillWrites;
    var t := Advance(rules, s, v, m).0;
    if v.phase.Stopping? {
      NamesWithout(s.tasks, v.target, id);
    } else if v.phase.Undoing? {
      NamesWithout(s.tasks, v.next.value, id);
    } else if t.tasks == s.tasks {
    } else if v.phase.Writing? {
      MoreTasks(s, t, [(v.target, v.phase.todo[0].name)], id);
    } else {
      MoreTasks(s, t, [(v.next.value, v.phase.todo[0].name)], id);
    }
  }

  lemma TasksLeftAlone(rules: Rules, s: System, e: Event, i: nat, id: Id)
    requires Inv(rules, s) && Enabled(rules, s, e) && i < |s.updates| && !Disturbs(s, e, i)
    requires Own(s.updates[i], id) && id < s.state.nextId && !(e.Run? && e.i == i) && !(e.Clean? && e.i == i)
    ensures TasksGrow(s.state, Step(rules, s, e).state, id)
  {
    hide Consistent, Holds, Sound, Advance, Names, Without, StartCheck, Launched;
    var u := s.updates[i];
    var t := Step(rules, s, e).state;
    match e
    case Run(j, m) =>
      assert s.updates[j].next.Some? ==> s.updates[j].next != u.next;
      TasksOfOthers(rules, s.state, s.updates[j], m, id);
    case Clean(j) =>
      assert s.updates[j].next != u.next;
      NamesWithout(s.state.tasks, s.updates[j].next.value, id);
    case OthersStart(l, m) =>
      if Started(rules, s.state, l, m).1.Failure? {
        FailedStart(rules, s.state, l, m);
        hide Started;
      } else {
        MoreTasks(s.state, t, TasksFor(s.state.nextId, l.tasks), id);
      }
    case OthersRemove(other) => NamesWithout(s.state.tasks, other, id);
    case OthersWrite(other, w) =>
      if w.Task? {
        MoreTasks(s.state, t, [(other, w.name)], id);
      }
    case _ =>
  }

  /** Each of the tasks asked for is there, or due. */
  predicate Covered(asked: seq<string>, there: seq<string>, due: seq<string>) {
    multiset(asked) <= multiset(there) + multiset(due)
  }

  /** What the form asks for is scheduled, or still among the writes to do. */
  predicate Tasked(s: State, u: Update) {
    match u.phase
    case Writing(todo) => Covered(Asked(u.form), Names(s.tasks, u.target), Due(todo))
    case Filling(todo) => u.next.Some? ==> Covered(Asked(u.form), Names(s.tasks, u.next.value), Due(todo))
    case Returned(o) => Covered(Asked(u.form), Names(s.tasks, o.id), [])
    case _ => true
  }

  lemma CoveredAtFirst(asked: seq<string>, there: seq<string>)
    ensures Covered(asked, there, asked)
  {
  }

  lemma WriteTasked(s: State, id: Id, todo: seq<Write>, asked: seq<string>)
    requires todo != [] && Covered(asked, Names(s.tasks, id), Due(todo))
    ensures Covered(asked, Names(Perform(s, id, todo[0]).tasks, id), Due(todo[1..]))
  {
    if todo[0].Task? {
      NamesAppend(s.tasks, [(id, todo[0].name)], id);
      OneName((id, todo[0].name), id);
      assert multiset(Due(todo)) == multiset{todo[0].name} + multiset(Due(todo[1..]));
    } else {
      assert Due(todo) == Due(todo[1..]);
    }
    hide Names;
  }

  lemma CheckTasked(rules: Rules, files: Files, s: State, u: Update)
    requires u.phase.Checking?
    ensures var (t, v) := CheckStep(rules, files, s, u); Tasked(t, v)
  {
    hide Check, Names, HotWrites, NeedsRestart, Due, Covered, Asked, Oversized;
    if u.target in s.servers {
      HotDue(s.servers[u.target], u.form);
      CoveredAtFirst(Asked(u.form), Names(s.tasks, u.target));
    }
  }

  lemma RelaunchDue(rules: Rules, c: Server, f: ServerForm)
    requires Merged(rules, c, f).Some?
    ensures Due(FillWrites(Relaunch(rules, c, f))) == Asked(f)
  {
    FillDue(Relaunch(rules, c, f));
    hide FillWrites, Due, Merged;
  }

  lemma StartTasked(rules: Rules, s: State, u: Update, m: Machine)
    requires u.phase.Starting?
    ensures var (t, v) := StartStep(rules, s, u, m); Tasked(t, v)
  {
    hide StartCheck, Launched, Merged, Names, FillWrites, Due, Covered, Relaunch, Asked;
    if u.seen.Some? && Merged(rules, u.seen.value, u.form).Some? {
      RelaunchDue(rules, u.seen.value, u.form);
      CoveredAtFirst(Asked(u.form), Names(s.tasks, s.nextId));
    }
  }

  lemma OwnTasks(rules: Rules, s: State, u: Update, m: Machine)
    requires Tasked(s, u) && Consistent(rules, u) && !Ended(u.phase)
    ensures var (t, v) := Advance(rules, s, u, m); Tasked(t, v)
  {
    hide Checked, CheckStep, StartStep, Names, Perform, NeedsRestart, RemoveServer, Safe, Covered, Asked;
    match u.phase
    case Checking => CheckTasked(rules, m.files, s, u);
    case Writing(todo) =>
      if todo != [] {
        WriteTasked(s, u.target, todo, Asked(u.form));
      }
    case Starting => StartTasked(rules, s, u, m);
    case Filling(todo) =>
      if todo != [] {
        WriteTasked(s, u.next.value, todo, Asked(u.form));
      }
    case _ =>
  }

  lemma StillTasked(rules: Rules, s: State, t: State, u: Update)
    requires Consistent(rules, u) && Holds(s, u) && Tasked(s, u)
    requires forall id: Id :: Own(u, id) && id < s.nextId ==> TasksGrow(s, t, id)
    ensures Tasked(t, u)
  {
    hide Check, Accepts, Sound, NeedsRestart, Names, Due;
    assert Own(u, u.target);
    if u.next.Some? {
      assert Own(u, u.next.value);
    }
  }

  lemma TaskedStep(rules: Rules, s: System, e: Event, i: nat)
    requires Inv(rules, s) && Enabled(rules, s, e) && i < |s.updates| && !Disturbs(s, e, i) && Tasked(s.state, s.updates[i])
    ensures Tasked(Step(rules, s, e).state, Step(rules, s, e).updates[i])
  {
    var u := s.updates[i];
    assert Consistent(rules, u) && Holds(s.state, u);
    if e.Run? && e.i == i {
      OwnTasks(rules, s.state, u, e.machine);
      hide Advance, Tasked;
    } else if !(e.Clean? && e.i == i) && !(e.Drop? && e.i == i) {
      forall id: Id | Own(u, id) && id < s.state.nextId ensures TasksGrow(s.state, Step(rules, s, e).state, id) {
        TasksLeftAlone(rules, s, e, i, id);
      }
      StillTasked(rules, s.state, Step(rules, s, e).state, u);
      hide Tasked, Advance, Started, Perform, RemoveServer, Inv, Consistent, Holds;
    }
  }

  lemma {:induction false} TaskedThroughout(rules: Rules, states: seq<System>, events: seq<Event>, j: nat, k: nat, i: nat)
    requires IsRun(rules, states, events) && j <= k < |states| && i < |states[j].updates|
    requires Tasked(states[j].state, states[j].updates[i])
    requires forall n :: j <= n < k ==> i < |states[n].updates| && !Disturbs(states[n], events[n], i)
    ensures i < |states[k].updates| && Tasked(states[k].state, states[k].updates[i])
    decreases k
  {
    hide Step, Inv, Enabled, Tasked, Disturbs;
    if j < k {
      TaskedThroughout(rules, states, events, j, k - 1, i);
      EveryState(rules, states, events, k - 1);
      UpdatesStay(rules, states, events, k - 1, k);
      assert Enabled(rules, states[k - 1], events[k - 1]) && states[k] == Step(rules, states[k - 1], events[k - 1]);
      TaskedStep(rules, states[k - 1], events[k - 1], i);
    }
  }

  /**
   Nobody having touched its server in between, an update that returns has done exactly what it
   does by itself, whatever else ran: step by step is all at once. Its tasks are there too,
   under the id it returned.
   */
  lemma UndisturbedIsAtomic(rules: Rules, states: seq<System>, events: seq<Event>, j: nat, k: nat, i: nat)
    requires IsRun(rules, states, events) && j <= k < |states| && i < |states[j].updates|
    requires states[j].updates[i].phase.Checking? && states[j].updates[i].target in states[j].state.servers
    requires forall n :: j <= n < k ==> i < |states[n].updates| && !Disturbs(states[n], events[n], i)
    requires i < |states[k].updates| && states[k].updates[i].phase.Returned?
    ensures var (u, now) := (states[k].updates[i], states[k].state);
            var (c, o) := (states[j].state.servers[states[j].updates[i].target], u.phase.outcome);
            && SameRequest(states[j].updates[i], u) && u.seen == Some(c) && Accepts(rules, c, u.form) && (o.restarted <==> NeedsRestart(u.form))
            && o.id in now.servers
            && (o.restarted ==> u.target !in now.servers && Relaunched(rules, c, u.form, now.servers[o.id]))
            && (!o.restarted ==> o.id == u.target && now.servers[o.id] == Patched(c, u.form))
            && Covered(Asked(u.form), Names(now.tasks, o.id), [])
  {
    var c := states[j].state.servers[states[j].updates[i].target];
    TaskedThroughout(rules, states, events, j, k, i);
    OnCourseThroughout(rules, states, events, j, k, i, c);
    EveryState(rules, states, events, k);
    assert Consistent(rules, states[k].updates[i]) && Holds(states[k].state, states[k].updates[i]);
    hide Check, Accepts, Sound, Relaunched, Patched, NeedsRestart;
  }
}
