/**
 Who answers an LLM request in the browser demo (`site/js/demo.js`): the queue of requests,
 the models that can be loaded, chosen and retired, and every event that may happen to them.
 */
module Scheduler {
  import opened Wrappers

  const MODEL_WAIT_MS := 120_000

  datatype Kind = Builtin | WebLlm

  datatype ModelState = Checking | Loadable | NeedsClick | Loading | Ready | Failed | Unsupported

  /** `quiet` holds the state to go back to while a quiet creation is pending. */
  datatype Model = Model(kind: Kind, state: ModelState, engine: Option<nat>, session: bool, creating: bool,
                         quiet: Option<ModelState>, cached: bool)

  datatype Mode = Fresh | Waiting | Manual | Answering

  /** `attempts` counts how often a model was asked to answer this request. */
  datatype Entry = Entry(started: int, mode: Mode, touched: bool, modelFailed: bool, waitedOut: bool,
                         waitFor: Option<nat>, timer: Option<int>, attempts: nat)

  /** `unloads` counts the calls of `unload` on this engine. */
  datatype Engine = Engine(busy: nat, retire: bool, unloads: nat)

  /** A model answering a request right now, with the engine it holds. */
  datatype Call = Call(entry: nat, engine: Option<nat>)

  datatype Choice = Nobody | You | Of(model: nat)

  /** Requests are numbered in the order they arrive; `resolved` lists those answered, in order. */
  datatype State = State(
    models: seq<Model>, selected: Choice, active: Option<nat>,
    entries: seq<Entry>, queue: seq<nat>, current: Option<nat>, resolved: seq<nat>,
    engines: seq<Engine>, calls: seq<Call>,
    checkStarted: bool, unchecked: set<nat>, waiters: seq<nat>,
    now: int)

  datatype Route = ToModel(model: nat) | ToWait(model: nat) | ToYou

  // ---- routing --------------------------------------------------------------------------

  function RouteNow(s: State): Route {
    if s.selected.You? then ToYou
    else if s.active.Some? then ToModel(s.active.value)
    else if s.selected.Of? && s.selected.model < |s.models| &&
            (var st := s.models[s.selected.model].state; st.Loading? || st.Checking? || st.Loadable?)
    then ToWait(s.selected.model)
    else ToYou
  }

  function WaitLeft(s: State, e: nat): int
    requires e < |s.entries|
  {
    MODEL_WAIT_MS - (s.now - s.entries[e].started)
  }

  function AnswerManually(s: State, e: nat): State
    requires e < |s.entries|
  {
    s.(entries := s.entries[e := s.entries[e].(mode := Manual, timer := None)])
  }

  function RenderWaiting(s: State, e: nat, m: nat): State
    requires e < |s.entries|
  {
    var left := WaitLeft(s, e);
    var deadline := s.now + (if left > 0 then left else 0);
    s.(entries := s.entries[e := s.entries[e].(mode := Waiting, waitFor := Some(m), timer := Some(deadline))])
  }

  /** The model answering now is asked, and its engine is busy until it returns. */
  function AnswerWithModel(s: State, e: nat): State
    requires e < |s.entries|
  {
    var x := s.entries[e];
    var asked := s.(entries := s.entries[e := x.(mode := Answering, timer := None, attempts := x.attempts + 1)]);
    if s.active.None? || s.active.value >= |s.models| then asked else
      var m := s.models[s.active.value];
      var g := if m.kind.Builtin? then None else m.engine;
      var called := asked.(calls := s.calls + [Call(e, g)]);
      if g.Some? && g.value < |s.engines| then
        called.(engines := s.engines[g.value := s.engines[g.value].(busy := s.engines[g.value].busy + 1)])
      else called
  }

  function Dispatch(s: State, e: nat): State
    requires e < |s.entries|
  {
    var r := RouteNow(s);
    if r.ToModel? then AnswerWithModel(s, e)
    else if r.ToWait? && WaitLeft(s, e) > 0 then RenderWaiting(s, e, r.model)
    else AnswerManually(s, e)
  }

  /** Route the request on screen again after something changed. */
  function Reroute(s: State): State {
    if s.current.None? || s.current.value >= |s.entries| then s else
      var e := s.current.value;
      var cur := s.entries[e];
      var r := RouteNow(s);
      if cur.mode.Answering? then s
      else if cur.mode.Waiting? then
        if r.ToModel? then AnswerWithModel(s, e)
        else if r.ToWait? && Some(r.model) == cur.waitFor then s
        else if r.ToWait? && WaitLeft(s, e) > 0 then RenderWaiting(s, e, r.model)
        else AnswerManually(s, e)
      else if !cur.mode.Manual? || cur.touched || cur.modelFailed then s
      else if r.ToModel? then AnswerWithModel(s, e)
      else if r.ToWait? && !cur.waitedOut && WaitLeft(s, e) > 0 then RenderWaiting(s, e, r.model)
      else s
  }

  // ---- the queue ------------------------------------------------------------------------

  function Pump(s: State): State {
    if s.current.Some? || s.queue == [] || s.queue[0] >= |s.entries| then s
    else Dispatch(s.(current := Some(s.queue[0]), queue := s.queue[1..]), s.queue[0])
  }

  function Arrive(s: State): State {
    var x := Entry(s.now, Fresh, false, false, false, None, None, 0);
    Pump(s.(entries := s.entries + [x], queue := s.queue + [|s.entries|]))
  }

  function Finish(s: State, e: nat): State
    requires e < |s.entries|
  {
    if s.current != Some(e) then s else
      Pump(s.(entries := s.entries[e := s.entries[e].(timer := None)], resolved := s.resolved + [e], current := None))
  }

  // ---- models ---------------------------------------------------------------------------

  function SetState(s: State, m: nat, st: ModelState): State
    requires m < |s.models|
  {
    s.(models := s.models[m := s.models[m].(state := st)])
  }

  /** Unload an engine that no longer answers, once the request it may be in finishes. */
  function Retire(s: State, m: nat): State
    requires m < |s.models|
  {
    var t := s.(models := s.models[m := s.models[m].(engine := None, state := Loadable)]);
    match s.models[m].engine
    case None => t
    case Some(g) =>
      if g >= |s.engines| then t
      else if s.engines[g].busy > 0 then t.(engines := s.engines[g := s.engines[g].(retire := true)])
      else t.(engines := s.engines[g := s.engines[g].(unloads := s.engines[g].unloads + 1)])
  }

  /** Retire every loaded WebLLM model but `keep`, from the `i`th on. */
  function RetireOthers(s: State, keep: nat, i: nat): State
    requires i <= |s.models|
    decreases |s.models| - i
  {
    if i == |s.models| then s
    else if i != keep && s.models[i].kind.WebLlm? && s.models[i].state.Ready? then RetireOthers(Retire(s, i), keep, i + 1)
    else RetireOthers(s, keep, i + 1)
  }

  function Activate(s: State, m: nat): State {
    Reroute(RetireOthers(s.(active := Some(m)), m, 0))
  }

  function LoadBuiltin(s: State, m: nat, quiet: bool): State
    requires m < |s.models|
  {
    var x := s.models[m];
    if x.session || x.creating then s
    else if quiet then s.(models := s.models[m := x.(creating := true, quiet := Some(x.state))])
    else Reroute(s.(models := s.models[m := x.(creating := true, quiet := None, state := Loading)]))
  }

  function LoadWebLlm(s: State, m: nat): State
    requires m < |s.models|
  {
    if s.models[m].state.Loading? then s else Reroute(SetState(s, m, Loading))
  }

  function LoadModel(s: State, m: nat): State
    requires m < |s.models|
  {
    if s.models[m].kind.Builtin? then LoadBuiltin(s, m, false) else LoadWebLlm(s, m)
  }

  /** Ask once which WebLLM models are already on this device. */
  function StartCheck(s: State): State {
    if s.checkStarted then s
    else s.(checkStarted := true, unchecked := set m | 0 <= m < |s.models| && s.models[m].kind.WebLlm? :: m)
  }

  function Choose(s: State, c: Choice): State {
    match c
    case Nobody => s
    case You => Reroute(s.(selected := You, active := None))
    case Of(m) =>
      if m >= |s.models| || s.models[m].state.Unsupported? then s else
        var t := s.(selected := c);
        match s.models[m].state
        case Ready => Reroute(Activate(t, m))
        case Loadable => Reroute(LoadModel(t, m))
        case Checking => Reroute(StartCheck(t).(waiters := t.waiters + [m]))
        case _ => Reroute(t)
  }

  // ---- events ---------------------------------------------------------------------------

  datatype Event =
    | Arrives
    | Chooses(c: Choice)
    | ClicksLoad
    | Gestures
    | LoadsQuietly(m: nat)
    | BuiltinProgresses(m: nat)
    | BuiltinReady(m: nat)
    | BuiltinFails(m: nat, needsClick: bool)
    | WebLlmProgresses(m: nat)
    | WebLlmLoaded(m: nat)
    | WebLlmFails(m: nat)
    | CacheKnown(m: nat, cached: bool)
    | CheckContinues
    | TimerFires(e: nat)
    | Touches
    | Sends
    | ModelReturns(k: nat)
    | ModelThrows(k: nat)
    | TimePasses(ms: nat)

  predicate CurrentIs(s: State, mode: Mode) {
    s.current.Some? && s.current.value < |s.entries| && s.entries[s.current.value].mode == mode
  }

  predicate IsBuiltin(s: State, m: nat) {
    m < |s.models| && s.models[m].kind.Builtin?
  }

  predicate IsWebLlm(s: State, m: nat) {
    m < |s.models| && s.models[m].kind.WebLlm?
  }

  /** When an event can happen at all. */
  predicate Enabled(s: State, ev: Event) {
    match ev
    case ClicksLoad =>
      s.selected.Of? && s.selected.model < |s.models| &&
      (s.models[s.selected.model].state.NeedsClick? || s.models[s.selected.model].state.Failed?)
    case Gestures => s.selected.Of? && IsBuiltin(s, s.selected.model) && s.models[s.selected.model].state.NeedsClick?
    case LoadsQuietly(m) => IsBuiltin(s, m) && s.selected == Of(m)
    case BuiltinProgresses(m) => IsBuiltin(s, m) && s.models[m].creating
    case BuiltinReady(m) => IsBuiltin(s, m) && s.models[m].creating
    case BuiltinFails(m, _) => IsBuiltin(s, m) && s.models[m].creating
    case WebLlmProgresses(m) => IsWebLlm(s, m) && s.models[m].state.Loading?
    case WebLlmLoaded(m) => IsWebLlm(s, m) && s.models[m].state.Loading?
    case WebLlmFails(m) => IsWebLlm(s, m) && s.models[m].state.Loading?
    case CacheKnown(m, _) => IsWebLlm(s, m) && m in s.unchecked
    case CheckContinues => s.unchecked == {} && s.waiters != []
    case TimerFires(e) => e < |s.entries| && s.entries[e].timer.Some? && s.entries[e].timer.value <= s.now
    case Touches => CurrentIs(s, Manual)
    case Sends => CurrentIs(s, Manual)
    case ModelReturns(k) => k < |s.calls| && s.calls[k].entry < |s.entries|
    case ModelThrows(k) => k < |s.calls| && s.calls[k].entry < |s.entries|
    case _ => true
  }

  /** The timer of a request that is still waiting hands it to the visitor. */
  function WaitedOut(s: State, e: nat): State
    requires e < |s.entries|
  {
    var fired := s.(entries := s.entries[e := s.entries[e].(timer := None)]);
    if s.current != Some(e) || !s.entries[e].mode.Waiting? then fired
    else AnswerManually(fired.(entries := fired.entries[e := fired.entries[e].(waitedOut := true)]), e)
  }

  /** A call ends: its engine is one request less busy, and goes if it was only waiting for that. */
  function Release(s: State, c: Call): State {
    if c.engine.None? || c.engine.value >= |s.engines| || s.engines[c.engine.value].busy == 0 then s else
      var g := c.engine.value;
      var x := s.engines[g].(busy := s.engines[g].busy - 1);
      s.(engines := s.engines[g := if x.busy == 0 && x.retire then x.(unloads := x.unloads + 1) else x])
  }

  function EndCall(s: State, k: nat): State
    requires k < |s.calls|
  {
    s.(calls := s.calls[..k] + s.calls[k + 1..])
  }

  function ModelFails(s: State, e: nat): State
    requires e < |s.entries|
  {
    if s.current != Some(e) then s
    else AnswerManually(s.(entries := s.entries[e := s.entries[e].(modelFailed := true)]), e)
  }

  function BuiltinArrives(s: State, m: nat): State
    requires m < |s.models|
  {
    var t := s.(models := s.models[m := s.models[m].(creating := false, quiet := None, session := true, state := Ready)]);
    if s.selected == Of(m) then Activate(t, m) else Reroute(t)
  }

  function BuiltinDenied(s: State, m: nat, needsClick: bool): State
    requires m < |s.models|
  {
    var x := s.models[m];
    var st := if x.quiet.Some? then x.quiet.value else if needsClick then NeedsClick else Failed;
    Reroute(s.(models := s.models[m := x.(creating := false, quiet := None, state := st)]))
  }

  /** A new engine: kept if its model is still the chosen one, unloaded at once if not. */
  function EngineArrives(s: State, m: nat): State
    requires m < |s.models|
  {
    var g := |s.engines|;
    if s.selected == Of(m) then
      Activate(s.(engines := s.engines + [Engine(0, false, 0)],
                  models := s.models[m := s.models[m].(engine := Some(g), state := Ready, cached := true)]), m)
    else
      Reroute(s.(engines := s.engines + [Engine(0, false, 1)],
                 models := s.models[m := s.models[m].(state := Loadable, cached := true)]))
  }

  function LearnsCache(s: State, m: nat, cached: bool): State
    requires m < |s.models|
  {
    var x := s.models[m].(cached := cached);
    var st := if x.state.Checking? then (if cached then Loadable else NeedsClick) else x.state;
    s.(models := s.models[m := x.(state := st)], unchecked := s.unchecked - {m})
  }

  function ContinueCheck(s: State): State
    requires s.waiters != []
  {
    var m := s.waiters[0];
    var t := s.(waiters := s.waiters[1..]);
    if s.selected == Of(m) && m < |s.models| && s.models[m].state.Loadable? then LoadModel(t, m) else Reroute(t)
  }

  function Step(s: State, ev: Event): State
    requires Enabled(s, ev)
  {
    match ev
    case Arrives => Arrive(s)
    case Chooses(c) => Choose(s, c)
    case ClicksLoad => LoadModel(s, s.selected.model)
    case Gestures => LoadBuiltin(s, s.selected.model, false)
    case LoadsQuietly(m) => LoadBuiltin(s, m, true)
    case BuiltinProgresses(m) =>
      var t := SetState(s, m, Loading);
      if s.selected == Of(m) then Reroute(t) else t
    case BuiltinReady(m) => BuiltinArrives(s, m)
    case BuiltinFails(m, needsClick) => BuiltinDenied(s, m, needsClick)
    case WebLlmProgresses(m) => if s.selected == Of(m) then Reroute(s) else s
    case WebLlmLoaded(m) => EngineArrives(s, m)
    case WebLlmFails(m) => Reroute(SetState(s, m, Failed))
    case CacheKnown(m, cached) => LearnsCache(s, m, cached)
    case CheckContinues => ContinueCheck(s)
    case TimerFires(e) => WaitedOut(s, e)
    case Touches => s.(entries := s.entries[s.current.value := s.entries[s.current.value].(touched := true)])
    case Sends => Finish(s, s.current.value)
    case ModelReturns(k) => Finish(Release(EndCall(s, k), s.calls[k]), s.calls[k].entry)
    case ModelThrows(k) => Release(ModelFails(EndCall(s, k), s.calls[k].entry), s.calls[k])
    case TimePasses(ms) => s.(now := s.now + ms)
  }
}
