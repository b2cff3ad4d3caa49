/**
 The demo page's `app` object and its callbacks, updating their fields in place. Every method
 is tied to the function of the state that it computes, and every event keeps the invariant.
 */
module DemoApp {
  import opened Wrappers
  import opened Scheduler
  import opened SchedulerInv

  class App {
    var models: seq<Model>
    var selected: Choice
    var active: Option<nat>
    var entries: seq<Entry>
    var queue: seq<nat>
    var current: Option<nat>
    var resolved: seq<nat>
    var engines: seq<Engine>
    var calls: seq<Call>
    var checkStarted: bool
    var unchecked: set<nat>
    var waiters: seq<nat>
    var now: int

    ghost function S(): State
      reads this
    {
      State(models, selected, active, entries, queue, current, resolved, engines, calls, checkStarted, unchecked, waiters, now)
    }

    constructor (setup: seq<Model>, time: int)
      ensures S() == State(setup, Nobody, None, [], [], None, [], [], [], false, {}, [], time)
    {
      models, selected, active := setup, Nobody, None;
      entries, queue, current, resolved := [], [], None, [];
      engines, calls := [], [];
      checkStarted, unchecked, waiters := false, {}, [];
      now := time;
    }

    method SwitchToManual(e: nat)
      requires e < |entries|
      modifies this`entries
      ensures S() == AnswerManually(old(S()), e)
    {
      entries := entries[e := entries[e].(mode := Manual, timer := None)];
    }

    method SwitchToWaiting(e: nat, m: nat)
      requires e < |entries|
      modifies this`entries
      ensures S() == RenderWaiting(old(S()), e, m)
    {
      var left := MODEL_WAIT_MS - (now - entries[e].started);
      var deadline := now + (if left > 0 then left else 0);
      entries := entries[e := entries[e].(mode := Waiting, waitFor := Some(m), timer := Some(deadline))];
    }

    method SwitchToModel(e: nat)
      requires e < |entries|
      modifies this`entries, this`calls, this`engines
      ensures S() == AnswerWithModel(old(S()), e)
    {
      entries := entries[e := entries[e].(mode := Answering, timer := None, attempts := entries[e].attempts + 1)];
      if active.Some? && active.value < |models| {
        var model := models[active.value];
        var engine := if model.kind.Builtin? then None else model.engine;
        calls := calls + [Call(e, engine)];
        if engine.Some? && engine.value < |engines| {
          var g := engine.value;
          engines := engines[g := engines[g].(busy := engines[g].busy + 1)];
        }
      }
    }

    method Route() returns (r: Route)
      ensures r == RouteNow(S())
    {
      if selected.You? {
        return ToYou;
      }
      if active.Some? {
        return ToModel(active.value);
      }
      if selected.Of? && selected.model < |models| {
        var st := models[selected.model].state;
        if st.Loading? || st.Checking? || st.Loadable? {
          return ToWait(selected.model);
        }
      }
      return ToYou;
    }

    method DispatchEntry(e: nat)
      requires e < |entries|
      modifies this`entries, this`calls, this`engines
      ensures S() == Dispatch(old(S()), e)
    {
      var r := Route();
      if r.ToModel? {
        SwitchToModel(e);
      } else if r.ToWait? && MODEL_WAIT_MS - (now - entries[e].started) > 0 {
        SwitchToWaiting(e, r.model);
      } else {
        SwitchToManual(e);
      }
    }

    method RerouteCurrent()
      modifies this`entries, this`calls, this`engines
      ensures S() == Reroute(old(S()))
    {
      if current.None? || current.value >= |entries| {
        return;
      }
      var e := current.value;
      var cur := entries[e];
      if cur.mode.Answering? {
        return;
      }
      var r := Route();
      var left := MODEL_WAIT_MS - (now - cur.started);
      if cur.mode.Waiting? {
        if r.ToModel? {
          SwitchToModel(e);
        } else if r.ToWait? && Some(r.model) == cur.waitFor {
        } else if r.ToWait? && left > 0 {
          SwitchToWaiting(e, r.model);
        } else {
          SwitchToManual(e);
        }
        return;
      }
      if !cur.mode.Manual? || cur.touched || cur.modelFailed {
        return;
      }
      if r.ToModel? {
        SwitchToModel(e);
      } else if r.ToWait? && !cur.waitedOut && left > 0 {
        SwitchToWaiting(e, r.model);
      }
    }

    method PumpQueue()
      modifies this`current, this`queue, this`entries, this`calls, this`engines
      ensures S() == Pump(old(S()))
    {
      if current.Some? || queue == [] || queue[0] >= |entries| {
        return;
      }
      var e := queue[0];
      current, queue := Some(e), queue[1..];
      DispatchEntry(e);
    }

    method HandleRequest()
      modifies this`current, this`queue, this`entries, this`calls, this`engines
      ensures S() == Arrive(old(S()))
    {
      queue := queue + [|entries|];
      entries := entries + [Entry(now, Fresh, false, false, false, None, None, 0)];
      PumpQueue();
    }

    method FinishEntry(e: nat)
      requires e < |entries|
      modifies this`current, this`queue, this`entries, this`calls, this`engines, this`resolved
      ensures S() == Finish(old(S()), e)
    {
      if current != Some(e) {
        return;
      }
      entries := entries[e := entries[e].(timer := None)];
      resolved := resolved + [e];
      current := None;
      PumpQueue();
    }

    method RetireWebLlm(m: nat)
      requires m < |models|
      modifies this`models, this`engines
      ensures S() == Retire(old(S()), m)
    {
      var engine := models[m].engine;
      models := models[m := models[m].(engine := None, state := Loadable)];
      if engine.Some? && engine.value < |engines| {
        var g := engine.value;
        if engines[g].busy > 0 {
          engines := engines[g := engines[g].(retire := true)];
        } else {
          engines := engines[g := engines[g].(unloads := engines[g].unloads + 1)];
        }
      }
    }

    method ActivateModel(m: nat)
      modifies this`active, this`models, this`entries, this`calls, this`engines
      ensures S() == Activate(old(S()), m)
    {
      active := Some(m);
      ghost var s := S();
      var i := 0;
      while i < |models|
        invariant i <= |models|
        invariant RetireOthers(S(), m, i) == RetireOthers(s, m, 0)
      {
        if i != m && models[i].kind.WebLlm? && models[i].state.Ready? {
          RetireWebLlm(i);
        }
        i := i + 1;
      }
      RerouteCurrent();
    }

    method StartBuiltin(m: nat, quiet: bool)
      requires m < |models|
      modifies this`models, this`entries, this`calls, this`engines
      ensures S() == LoadBuiltin(old(S()), m, quiet)
    {
      hide Reroute;
      if models[m].session || models[m].creating {
        return;
      }
      var before := models[m].state;
      models := models[m := models[m].(creating := true, quiet := if quiet then Some(before) else None)];
      if !quiet {
        models := models[m := models[m].(state := Loading)];
        assert models == old(models)[m := models[m]];
        RerouteCurrent();
      }
    }

    method StartWebLlm(m: nat)
      requires m < |models|
      modifies this`models, this`entries, this`calls, this`engines
      ensures S() == LoadWebLlm(old(S()), m)
    {
      if models[m].state.Loading? {
        return;
      }
      models := models[m := models[m].(state := Loading)];
      RerouteCurrent();
    }

    method StartModel(m: nat)
      requires m < |models|
      modifies this`models, this`entries, this`calls, this`engines
      ensures S() == LoadModel(old(S()), m)
    {
      if models[m].kind.Builtin? {
        StartBuiltin(m, false);
      } else {
        StartWebLlm(m);
      }
    }

    method ChooseAnswerer(c: Choice)
      modifies this
      ensures S() == Choose(old(S()), c)
    {
      hide Reroute, Activate, LoadModel;
      if c.You? {
        selected, active := You, None;
        RerouteCurrent();
        return;
      }
      if c.Nobody? || c.model >= |models| || models[c.model].state.Unsupported? {
        return;
      }
      var m := c.model;
      var st := models[m].state;
      selected := c;
      if st.Ready? {
        ActivateModel(m);
      } else if st.Loadable? {
        StartModel(m);
      } else if st.Checking? {
        if !checkStarted {
          checkStarted := true;
          unchecked := set k | 0 <= k < |models| && models[k].kind.WebLlm? :: k;
        }
        waiters := waiters + [m];
      }
      RerouteCurrent();
    }

    method EngineLoaded(m: nat)
      requires m < |models|
      modifies this
      ensures S() == EngineArrives(old(S()), m)
    {
      hide Reroute, Activate;
      var g := |engines|;
      models := models[m := models[m].(cached := true)];
      if selected == Of(m) {
        engines := engines + [Engine(0, false, 0)];
        models := models[m := models[m].(engine := Some(g), state := Ready)];
        assert models == old(models)[m := models[m]];
        ActivateModel(m);
      } else {
        engines := engines + [Engine(0, false, 1)];
        models := models[m := models[m].(state := Loadable)];
        assert models == old(models)[m := models[m]];
        RerouteCurrent();
      }
    }

    method SessionCreated(m: nat)
      requires m < |models|
      modifies this
      ensures S() == BuiltinArrives(old(S()), m)
    {
      models := models[m := models[m].(creating := false, quiet := None, session := true, state := Ready)];
      if selected == Of(m) {
        ActivateModel(m);
      } else {
        RerouteCurrent();
      }
    }

    method SessionDenied(m: nat, needsClick: bool)
      requires m < |models|
      modifies this
      ensures S() == BuiltinDenied(old(S()), m, needsClick)
    {
      hide Reroute;
      var quiet := models[m].quiet;
      models := models[m := models[m].(creating := false, quiet := None)];
      if quiet.Some? {
        models := models[m := models[m].(state := quiet.value)];
      } else if needsClick {
        models := models[m := models[m].(state := NeedsClick)];
      } else {
        models := models[m := models[m].(state := Failed)];
      }
      assert models == old(models)[m := models[m]];
      RerouteCurrent();
    }

    /** The `finally` of a model call. */
    method ReleaseEngine(c: Call)
      modifies this`engines
      ensures S() == Release(old(S()), c)
    {
      if c.engine.Some? && c.engine.value < |engines| && engines[c.engine.value].busy > 0 {
        var g := c.engine.value;
        engines := engines[g := engines[g].(busy := engines[g].busy - 1)];
        if engines[g].busy == 0 && engines[g].retire {
          engines := engines[g := engines[g].(unloads := engines[g].unloads + 1)];
        }
      }
    }

    method CallReturns(k: nat)
      requires k < |calls| && calls[k].entry < |entries|
      modifies this
      ensures S() == Finish(Release(EndCall(old(S()), k), old(calls)[k]), old(calls)[k].entry)
    {
      hide Finish, Release;
      var c := calls[k];
      calls := calls[..k] + calls[k + 1..];
      ReleaseEngine(c);
      FinishEntry(c.entry);
    }

    method CallThrows(k: nat)
      requires k < |calls| && calls[k].entry < |entries|
      modifies this
      ensures S() == Release(ModelFails(EndCall(old(S()), k), old(calls)[k].entry), old(calls)[k])
    {
      hide Release;
      var c := calls[k];
      calls := calls[..k] + calls[k + 1..];
      if current == Some(c.entry) {
        entries := entries[c.entry := entries[c.entry].(modelFailed := true)];
        SwitchToManual(c.entry);
      }
      ReleaseEngine(c);
    }

    method TimedOut(e: nat)
      requires e < |entries|
      modifies this`entries
      ensures S() == WaitedOut(old(S()), e)
    {
      entries := entries[e := entries[e].(timer := None)];
      if current == Some(e) && entries[e].mode.Waiting? {
        entries := entries[e := entries[e].(waitedOut := true)];
        SwitchToManual(e);
      }
    }

    method CacheLookedUp(m: nat, cached: bool)
      requires m < |models|
      modifies this`models, this`unchecked
      ensures S() == LearnsCache(old(S()), m, cached)
    {
      models := models[m := models[m].(cached := cached)];
      if models[m].state.Checking? {
        models := models[m := models[m].(state := if cached then Loadable else NeedsClick)];
      }
      unchecked := unchecked - {m};
    }

    method CheckDone()
      requires waiters != []
      modifies this
      ensures S() == ContinueCheck(old(S()))
    {
      var m := waiters[0];
      waiters := waiters[1..];
      if selected == Of(m) && m < |models| && models[m].state.Loadable? {
        StartModel(m);
      } else {
        RerouteCurrent();
      }
    }

    method BuiltinProgress(m: nat)
      requires m < |models|
      modifies this
      ensures S() == if old(selected) == Of(m) then Reroute(SetState(old(S()), m, Loading)) else SetState(old(S()), m, Loading)
    {
      models := models[m := models[m].(state := Loading)];
      if selected == Of(m) {
        RerouteCurrent();
      }
    }

    method WebLlmDenied(m: nat)
      requires m < |models|
      modifies this
      ensures S() == Reroute(SetState(old(S()), m, Failed))
    {
      models := models[m := models[m].(state := Failed)];
      RerouteCurrent();
    }

    /** The events that concern a model. */
    method HandleModel(ev: Event)
      requires OfModel(ev) && Enabled(S(), ev)
      modifies this
      ensures S() == Step(old(S()), ev)
    {
      hide Choose, LoadModel, LoadBuiltin, Reroute, BuiltinArrives, BuiltinDenied, EngineArrives, LearnsCache, ContinueCheck, SetState;
      match ev {
        case Chooses(c) => ChooseAnswerer(c);
        case ClicksLoad => StartModel(selected.model);
        case Gestures => StartBuiltin(selected.model, false);
        case LoadsQuietly(m) => StartBuiltin(m, true);
        case BuiltinProgresses(m) => BuiltinProgress(m);
        case BuiltinReady(m) => SessionCreated(m);
        case BuiltinFails(m, needsClick) => SessionDenied(m, needsClick);
        case WebLlmProgresses(m) =>
          if selected == Of(m) {
            RerouteCurrent();
          }
        case WebLlmLoaded(m) => EngineLoaded(m);
        case WebLlmFails(m) => WebLlmDenied(m);
        case CacheKnown(m, cached) => CacheLookedUp(m, cached);
        case CheckContinues => CheckDone();
      }
    }

    /** The events that concern a request, and time. */
    method HandleOther(ev: Event)
      requires !OfModel(ev) && Enabled(S(), ev)
      modifies this
      ensures S() == Step(old(S()), ev)
    {
      hide Arrive, WaitedOut, Finish, Release, EndCall, ModelFails;
      match ev {
        case Arrives => HandleRequest();
        case TimerFires(e) => TimedOut(e);
        case Touches => entries := entries[current.value := entries[current.value].(touched := true)];
        case Sends => FinishEntry(current.value);
        case ModelReturns(k) => CallReturns(k);
        case ModelThrows(k) => CallThrows(k);
        case TimePasses(ms) => now := now + ms;
      }
    }

    /** One event, whichever it is, from a good state to a good state. */
    method Handle(ev: Event)
      requires Inv(S()) && Enabled(S(), ev)
      modifies this
      ensures S() == Step(old(S()), ev) && Inv(S())
    {
      StepKeeps(S(), ev);
      hide Inv, Step, Enabled;
      if OfModel(ev) {
        HandleModel(ev);
      } else {
        HandleOther(ev);
      }
    }
  }

  predicate OfModel(ev: Event) {
    !(ev.Arrives? || ev.TimerFires? || ev.Touches? || ev.Sends? || ev.ModelReturns? || ev.ModelThrows? || ev.TimePasses?)
  }
}
