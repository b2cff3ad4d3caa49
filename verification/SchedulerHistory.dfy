/** What never changes back, over whole runs. */
module SchedulerHistory {
  import opened Wrappers
  import opened Scheduler
  import opened SchedulerInv

  /**
   How a request may change until it is resolved. One a model is answering stays with it
   until that model fails on it; one the visitor has begun, or a model has failed on, stays
   the visitor's; one that waited its full time never waits again.
   */
  predicate Later(x: Entry, y: Entry) {
    && (x.mode.Answering? ==> y == x || (y.mode.Manual? && y.modelFailed))
    && (x.touched ==> y.mode.Manual? && y.touched)
    && (x.modelFailed ==> y.mode.Manual? && y.modelFailed)
    && (x.waitedOut ==> y.waitedOut && !y.mode.Waiting?)
    && x.attempts <= y.attempts
  }

  predicate EntryEvolves(x: Entry, y: Entry, e: nat, before: nat, after: nat) {
    y.started == x.started && if e < before then y == x else e < after || Later(x, y)
  }

  /** Requests are only added, answers are only added behind those given, and none is changed. */
  predicate Evolves(s: State, t: State) {
    && |s.entries| <= |t.entries|
    && s.resolved <= t.resolved
    && forall e :: 0 <= e < |s.entries| ==> EntryEvolves(s.entries[e], t.entries[e], e, |s.resolved|, |t.resolved|)
  }

  lemma EvolvesTrans(s: State, t: State, u: State)
    requires Evolves(s, t) && Evolves(t, u)
    ensures Evolves(s, u)
  {
    forall e | 0 <= e < |s.entries|
      ensures EntryEvolves(s.entries[e], u.entries[e], e, |s.resolved|, |u.resolved|)
    {
      assert EntryEvolves(s.entries[e], t.entries[e], e, |s.resolved|, |t.resolved|);
      assert EntryEvolves(t.entries[e], u.entries[e], e, |t.resolved|, |u.resolved|);
    }
  }

  lemma LaterSelf(s: State)
    requires EntriesOk(s.entries, s.current, |s.resolved|)
    ensures forall i :: |s.resolved| <= i < |s.entries| ==> Later(s.entries[i], s.entries[i])
  {
    forall i | |s.resolved| <= i < |s.entries|
      ensures Later(s.entries[i], s.entries[i])
    {
      assert EntryOk(s.entries[i], i, s.current, |s.resolved|);
    }
  }

  lemma SameEntries(s: State, t: State)
    requires EntriesOk(s.entries, s.current, |s.resolved|)
    requires t.entries == s.entries && t.resolved == s.resolved
    ensures Evolves(s, t)
  {
    LaterSelf(s);
  }

  /** One entry, not yet resolved, changes as allowed. */
  lemma OneEvolves(s: State, t: State, e: nat, x: Entry)
    requires EntriesOk(s.entries, s.current, |s.resolved|)
    requires |s.resolved| <= e < |s.entries| && t.resolved == s.resolved && t.entries == s.entries[e := x]
    requires x.started == s.entries[e].started && Later(s.entries[e], x)
    ensures Evolves(s, t)
  {
    LaterSelf(s);
  }

  lemma RerouteEvolves(s: State)
    requires Core(s)
    ensures Evolves(s, Reroute(s))
  {
    var t := Reroute(s);
    if s.current.None? {
      SameEntries(s, t);
    } else {
      var e := s.current.value;
      assert EntryOk(s.entries[e], e, s.current, |s.resolved|);
      OneEvolves(s, t, e, t.entries[e]);
    }
  }

  /** A change that concerns no request, and then routing again. */
  lemma ReroutedEvolves(s: State, u: State)
    requires Core(s) && Core(u) && u.entries == s.entries && u.resolved == s.resolved
    ensures Evolves(s, Reroute(u))
  {
    SameEntries(s, u);
    RerouteEvolves(u);
    EvolvesTrans(s, u, Reroute(u));
  }

  lemma ActivateEvolves(s: State, m: nat)
    requires Core(s) && s.selected == Of(m) && s.models[m].state.Ready?
    ensures Evolves(s, Activate(s, m))
  {
    var t := s.(active := Some(m));
    RetireOthersKeeps(t, m, 0);
    ReroutedEvolves(s, RetireOthers(t, m, 0));
  }

  lemma LoadEvolves(s: State, m: nat, quiet: bool)
    requires Unrouted(s) && m < |s.models| && !s.models[m].state.Ready? && !s.models[m].state.Unsupported?
    ensures IsBuiltin(s, m) ==> Evolves(s, LoadBuiltin(s, m, quiet))
    ensures Evolves(s, LoadModel(s, m))
  {
    var x := s.models[m];
    assert ModelOk(x, |s.engines|);
    SameEntries(s, s);
    if x.kind.WebLlm? {
      if !x.state.Loading? {
        SetStateKeeps(s, m, x.(state := Loading));
        ReroutedEvolves(s, SetState(s, m, Loading));
      }
    } else if !x.creating {
      var y := x.(creating := true, quiet := None, state := Loading);
      SetStateKeeps(s, m, y);
      ReroutedEvolves(s, s.(models := s.models[m := y]));
      SameEntries(s, s.(models := s.models[m := x.(creating := true, quiet := Some(x.state))]));
    }
  }

  // ---- the queue ------------------------------------------------------------------------

  lemma DispatchEvolves(s: State, e: nat)
    requires EntriesOk(s.entries, s.current, |s.resolved|) && |s.resolved| <= e < |s.entries| && Untouched(s.entries[e])
    ensures Evolves(s, Dispatch(s, e))
  {
    var t := Dispatch(s, e);
    OneEvolves(s, t, e, t.entries[e]);
  }

  lemma ArriveEvolves(s: State)
    requires Core(s)
    ensures Evolves(s, Arrive(s))
  {
    var n := |s.entries|;
    var x := Entry(s.now, Fresh, false, false, false, None, None, 0);
    var t := s.(entries := s.entries + [x], queue := s.queue + [n]);
    LaterSelf(s);
    assert Evolves(s, t);
    if s.current.None? {
      var u := t.(current := Some(n), queue := []);
      assert t.queue[1..] == [];
      forall e | 0 <= e < |u.entries|
        ensures EntryOk(u.entries[e], e, u.current, |u.resolved|)
      {
        if e < n {
          assert EntryOk(s.entries[e], e, s.current, |s.resolved|);
        }
      }
      DispatchEvolves(u, n);
      assert Evolves(s, u);
      EvolvesTrans(s, u, Dispatch(u, n));
    }
  }

  lemma FinishEvolves(s: State, e: nat)
    requires Frame(s) && s.current == Some(e)
    ensures Evolves(s, Finish(s, e))
  {
    FinishedEntries(s.entries, e);
    LaterSelf(s);
    var t := s.(entries := s.entries[e := s.entries[e].(timer := None)], resolved := s.resolved + [e], current := None);
    assert Evolves(s, t);
    if s.queue != [] {
      var n := s.queue[0];
      var u := t.(current := Some(n), queue := s.queue[1..]);
      assert n == e + 1 && EntryOk(s.entries[n], n, s.current, |s.resolved|);
      assert Evolves(s, u);
      DispatchEvolves(u, n);
      EvolvesTrans(s, u, Dispatch(u, n));
    }
  }

  // ---- every event, every run -----------------------------------------------------------

  lemma ChooseEvolves(s: State, c: Choice)
    requires Inv(s)
    ensures Evolves(s, Choose(s, c))
  {
    SameEntries(s, s);
    if c.You? {
      ReroutedEvolves(s, s.(selected := You, active := None));
    } else if c.Of? && c.model < |s.models| && !s.models[c.model].state.Unsupported? {
      var m := c.model;
      SelectKeeps(s, m);
      var t := s.(selected := c);
      SameEntries(s, t);
      match s.models[m].state
      case Ready =>
        ActivateKeeps(t, m);
        ActivateEvolves(t, m);
        RerouteEvolves(Activate(t, m));
        EvolvesTrans(s, t, Activate(t, m));
        EvolvesTrans(s, Activate(t, m), Reroute(Activate(t, m)));
      case Loadable =>
        LoadModelKeeps(t, m);
        LoadEvolves(t, m, false);
        RerouteEvolves(LoadModel(t, m));
        EvolvesTrans(s, t, LoadModel(t, m));
        EvolvesTrans(s, LoadModel(t, m), Reroute(LoadModel(t, m)));
      case Checking => ReroutedEvolves(s, StartCheck(t).(waiters := t.waiters + [m]));
      case _ => ReroutedEvolves(s, t);
    }
  }

  lemma BuiltinEvolves(s: State, m: nat, needsClick: bool)
    requires Inv(s) && IsBuiltin(s, m) && s.models[m].creating
    ensures Evolves(s, BuiltinArrives(s, m)) && Evolves(s, BuiltinDenied(s, m, needsClick))
    ensures Evolves(s, Reroute(SetState(s, m, Loading))) && Evolves(s, SetState(s, m, Loading))
  {
    var x := s.models[m];
    assert ModelOk(x, |s.engines|);
    var st := if x.quiet.Some? then x.quiet.value else if needsClick then NeedsClick else Failed;
    var y := x.(creating := false, quiet := None, state := st);
    SetStateKeeps(s, m, y);
    ReroutedEvolves(s, s.(models := s.models[m := y]));
    SetStateKeeps(s, m, x.(state := Loading));
    SameEntries(s, SetState(s, m, Loading));
    ReroutedEvolves(s, SetState(s, m, Loading));
    SessionKept(s, m);
    var t := s.(models := s.models[m := x.(creating := false, quiet := None, session := true, state := Ready)]);
    SameEntries(s, t);
    if s.selected == Of(m) {
      ActivateEvolves(t, m);
      EvolvesTrans(s, t, Activate(t, m));
    } else {
      ReroutedEvolves(s, t);
    }
  }

  lemma WebEvolves(s: State, m: nat)
    requires Inv(s) && IsWebLlm(s, m) && s.models[m].state.Loading?
    ensures Evolves(s, EngineArrives(s, m))
    ensures Evolves(s, Reroute(SetState(s, m, Failed))) && Evolves(s, Reroute(s))
  {
    var x := s.models[m];
    assert ModelOk(x, |s.engines|);
    SetStateKeeps(s, m, x.(state := Failed));
    ReroutedEvolves(s, SetState(s, m, Failed));
    RerouteEvolves(s);
    if s.selected == Of(m) {
      NewEngineKept(s, m);
      var t := s.(engines := s.engines + [Engine(0, false, 0)],
                  models := s.models[m := x.(engine := Some(|s.engines|), state := Ready, cached := true)]);
      SameEntries(s, t);
      ActivateEvolves(t, m);
      EvolvesTrans(s, t, Activate(t, m));
    } else {
      NewEngineDropped(s, m);
      ReroutedEvolves(s, s.(engines := s.engines + [Engine(0, false, 1)],
                            models := s.models[m := x.(state := Loadable, cached := true)]));
    }
  }

  lemma CheckEvolves(s: State)
    requires Inv(s) && s.unchecked == {} && s.waiters != []
    ensures Evolves(s, ContinueCheck(s))
  {
    var m := s.waiters[0];
    var t := s.(waiters := s.waiters[1..]);
    PopWaiter(s);
    SameEntries(s, t);
    if s.selected == Of(m) && s.models[m].state.Loadable? {
      LoadEvolves(t, m, false);
      EvolvesTrans(s, t, LoadModel(t, m));
    } else {
      ReroutedEvolves(s, t);
    }
  }

  lemma EntryEventsEvolve(s: State, e: nat)
    requires Core(s) && s.current == Some(e)
    ensures s.entries[e].mode.Waiting? ==> Evolves(s, WaitedOut(s, e))
    ensures s.entries[e].mode.Manual? ==> Evolves(s, s.(entries := s.entries[e := s.entries[e].(touched := true)]))
  {
    var x := s.entries[e];
    assert EntryOk(x, e, s.current, |s.resolved|);
    if x.mode.Waiting? {
      var t := WaitedOut(s, e);
      assert t.entries == s.entries[e := x.(timer := None, waitedOut := true, mode := Manual)];
      OneEvolves(s, t, e, x.(timer := None, waitedOut := true, mode := Manual));
    } else if x.mode.Manual? {
      OneEvolves(s, s.(entries := s.entries[e := x.(touched := true)]), e, x.(touched := true));
    }
  }

  lemma CallEndEvolves(s: State, k: nat)
    requires Core(s) && k < |s.calls| && s.calls[k].entry < |s.entries|
    ensures Evolves(s, Finish(Release(EndCall(s, k), s.calls[k]), s.calls[k].entry))
    ensures Evolves(s, Release(ModelFails(EndCall(s, k), s.calls[k].entry), s.calls[k]))
  {
    EndedFrame(s, k);
    var c := s.calls[k];
    var u := Release(EndCall(s, k), c);
    FinishEvolves(u, c.entry);
    SameEntries(s, u);
    EvolvesTrans(s, u, Finish(u, c.entry));
    var x := s.entries[c.entry];
    assert EntryOk(x, c.entry, s.current, |s.resolved|);
    var t := Release(ModelFails(EndCall(s, k), c.entry), c);
    assert t.entries == s.entries[c.entry := x.(modelFailed := true, mode := Manual, timer := None)];
    OneEvolves(s, t, c.entry, x.(modelFailed := true, mode := Manual, timer := None));
  }

  lemma StepEvolves(s: State, ev: Event)
    requires Inv(s) && Enabled(s, ev)
    ensures Evolves(s, Step(s, ev))
  {
    SameEntries(s, s);
    match ev
    case Arrives => ArriveEvolves(s);
    case Chooses(c) => ChooseEvolves(s, c);
    case ClicksLoad => LoadEvolves(s, s.selected.model, false);
    case Gestures => LoadEvolves(s, s.selected.model, false);
    case LoadsQuietly(m) =>
      if !s.models[m].state.Ready? {
        LoadEvolves(s, m, true);
      } else {
        assert ModelOk(s.models[m], |s.engines|);
      }
    case BuiltinProgresses(m) => BuiltinEvolves(s, m, false);
    case BuiltinReady(m) => BuiltinEvolves(s, m, false);
    case BuiltinFails(m, needsClick) => BuiltinEvolves(s, m, needsClick);
    case WebLlmProgresses(m) => WebEvolves(s, m);
    case WebLlmLoaded(m) => WebEvolves(s, m);
    case WebLlmFails(m) => WebEvolves(s, m);
    case CacheKnown(m, cached) => SameEntries(s, LearnsCache(s, m, cached));
    case CheckContinues => CheckEvolves(s);
    case TimerFires(e) =>
      assert EntryOk(s.entries[e], e, s.current, |s.resolved|);
      EntryEventsEvolve(s, e);
    case Touches => EntryEventsEvolve(s, s.current.value);
    case Sends => FinishEvolves(s, s.current.value);
    case ModelReturns(k) => CallEndEvolves(s, k);
    case ModelThrows(k) => CallEndEvolves(s, k);
    case TimePasses(ms) => SameEntries(s, s.(now := s.now + ms));
  }

  /** Over any further run, every request only moves forward and answers are only appended. */
  lemma {:induction false} RunEvolves(s: State, evs: seq<Event>)
    requires Inv(s)
    ensures Evolves(s, Run(s, evs))
    decreases |evs|
  {
    SameEntries(s, s);
    hide Inv, Step, Enabled, Evolves, EntriesOk;
    if evs != [] {
      if Enabled(s, evs[0]) {
        var t := Step(s, evs[0]);
        StepKeeps(s, evs[0]);
        StepEvolves(s, evs[0]);
        RunEvolves(t, evs[1..]);
        EvolvesTrans(s, t, Run(t, evs[1..]));
      } else {
        RunEvolves(s, evs[1..]);
      }
    }
  }

  // ---- what the page promises, in every reachable state ---------------------------------

  /**
   Where the request on screen is, in every reachable state: the visitor's if they have begun it
   or a model has failed on it; else with the model that answers; else, unless one is still
   answering it, waiting for the chosen model while that may become ready and time is left. It
   waits for no other model, and for none but until a cache check ends.
   */
  lemma RequestsArePlaced(s: State, evs: seq<Event>)
    requires Initial(s) && Run(s, evs).current.Some?
    ensures var t := Run(s, evs);
            && t.current.value < |t.entries|
            && var x := t.entries[t.current.value];
            && (x.touched || x.modelFailed ==> x.mode == Manual)
            && (!x.touched && !x.modelFailed && t.active.Some? ==> x.mode == Answering)
            && (!x.touched && !x.modelFailed && t.active.None? && x.mode != Answering ==>
                  if Hopeful(t) && !x.waitedOut && WaitLeft(t, t.current.value) > 0 then x.mode == Waiting && x.waitFor == Some(t.selected.model)
                  else x.mode == Manual || (x.mode == Waiting && (Hopeful(t) || t.waiters != [])))
            && (x.mode == Waiting && Hopeful(t) ==> x.waitFor == Some(t.selected.model))
  {
    EveryRun(s, evs);
  }

  /** The answering model is ready and holds an engine that is not unloaded, or its session. */
  lemma AnswererIsReady(s: State, evs: seq<Event>)
    requires Initial(s)
    ensures var t := Run(s, evs);
            && (t.active.Some? ==>
                  && t.active.value < |t.models|
                  && var x := t.models[t.active.value];
                  && x.state.Ready?
                  && if x.kind.Builtin? then x.session
                     else x.engine.Some? && x.engine.value < |t.engines| && t.engines[x.engine.value].unloads == 0)
            && (forall a: nat, b: nat :: LoadedWeb(t, a) && LoadedWeb(t, b) ==> a == b)
  {
    EveryRun(s, evs);
    var t := Run(s, evs);
    if t.active.Some? {
      var a := t.active.value;
      assert ModelOk(t.models[a], |t.engines|);
      if t.models[a].kind.WebLlm? {
        var g := t.models[a].engine.value;
        assert EngineOk(t.models, t.engines[g], g, t.calls);
        assert t.models[a].engine == Some(g);
        assert Owned(t.models, g);
      }
    }
  }

  /** Every engine ever created is held, or retired but still in use, or unloaded exactly once and unused. */
  lemma EnginesAreReleased(s: State, evs: seq<Event>, g: nat)
    requires Initial(s) && g < |Run(s, evs).engines|
    ensures var t := Run(s, evs);
            var x := t.engines[g];
            var used := exists k :: 0 <= k < |t.calls| && t.calls[k].engine == Some(g);
            && (x.unloads == 0 <==> Owned(t.models, g) || (x.retire && used))
            && (x.unloads == 1 <==> !Owned(t.models, g) && !used)
            && (x.busy > 0 <==> used)
  {
    EveryRun(s, evs);
    var t := Run(s, evs);
    assert EngineOk(t.models, t.engines[g], g, t.calls);
    if |t.calls| > 0 && t.calls[0].engine == Some(g) {
      assert 0 <= 0 < |t.calls| && t.calls[0].engine == Some(g);
    }
  }

  /** Each request is exactly one of resolved, current and queued, and answers come in arrival order. */
  lemma AnsweredInOrder(s: State, evs: seq<Event>, e: nat)
    requires Initial(s)
    ensures var t := Run(s, evs);
            && t.resolved == seq(|t.resolved|, i => i)
            && (e < |t.entries| <==> e in t.resolved || t.current == Some(e) || e in t.queue)
            && !(e in t.resolved && t.current == Some(e)) && !(e in t.resolved && e in t.queue)
            && !(t.current == Some(e) && e in t.queue)
            && (t.current.None? ==> t.queue == [])
  {
    EveryRun(s, evs);
    var t := Run(s, evs);
    var ahead := |t.resolved| + (if t.current.Some? then 1 else 0);
    if e < |t.resolved| {
      assert t.resolved[e] == e;
    } else if ahead <= e < |t.entries| {
      assert t.queue[e - ahead] == e;
    }
  }

  /** One model attempt at most, and a request that waits has its timer set for its full wait. */
  lemma AttemptsAndTimers(s: State, evs: seq<Event>, e: nat)
    requires Initial(s) && e < |Run(s, evs).entries|
    ensures var t := Run(s, evs);
            var x := t.entries[e];
            && x.attempts <= 1
            && (x.timer.Some? <==> t.current == Some(e) && x.mode.Waiting?)
            && (x.timer.Some? ==> x.timer.value == x.started + 120_000)
            && (t.current == Some(e) && x.mode.Answering? ==> |t.calls| == 1 && t.calls[0].entry == e)
  {
    EveryRun(s, evs);
    var t := Run(s, evs);
    assert EntryOk(t.entries[e], e, t.current, |t.resolved|);
  }
}
