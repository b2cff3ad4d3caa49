/** What holds after every event, whatever order they come in. */
module SchedulerInv {
  import opened Wrappers
  import opened Scheduler

  // ---- models and engines ---------------------------------------------------------------

  /** A WebLLM model is ready exactly while it holds an engine, a built-in one with its session. */
  predicate ModelOk(x: Model, engines: nat) {
    match x.kind
    case WebLlm =>
      && !x.session && !x.creating && x.quiet.None?
      && (x.engine.Some? <==> x.state.Ready?)
      && (x.engine.Some? ==> x.engine.value < engines)
    case Builtin =>
      && x.engine.None?
      && (x.session <==> x.state.Ready?)
      && !(x.session && x.creating)
      && !x.state.Checking?
      && (x.quiet.Some? ==> x.creating && !x.quiet.value.Ready? && !x.quiet.value.Unsupported? && !x.quiet.value.Checking?)
  }

  predicate ModelsOk(models: seq<Model>, engines: nat) {
    && (forall m :: 0 <= m < |models| ==> ModelOk(models[m], engines))
    && (forall a, b :: 0 <= a < |models| && 0 <= b < |models| && models[a].engine.Some? && models[a].engine == models[b].engine ==> a == b)
  }

  predicate ChoiceOk(s: State) {
    && (s.selected.Of? ==> s.selected.model < |s.models| && !s.models[s.selected.model].state.Unsupported?)
    && (s.active.Some? ==> s.selected.Of? && s.active.value < |s.models| && s.models[s.active.value].state.Ready?)
  }

  predicate Owned(models: seq<Model>, g: nat) {
    exists m :: 0 <= m < |models| && models[m].engine == Some(g)
  }

  /** How many calls are using engine `g`, when there is at most one call. */
  function Uses(calls: seq<Call>, g: nat): nat {
    if |calls| > 0 && calls[0].engine == Some(g) then 1 else 0
  }

  /**
   An engine belongs to a model, or is retired and still in use, or has been unloaded once;
   it is never unloaded while in use.
   */
  predicate EngineOk(models: seq<Model>, x: Engine, g: nat, calls: seq<Call>) {
    && x.busy == Uses(calls, g)
    && x.unloads <= 1
    && (x.unloads == 1 ==> x.busy == 0 && !Owned(models, g))
    && (x.unloads == 0 ==> if Owned(models, g) then !x.retire else x.retire && x.busy > 0)
  }

  predicate EnginesOk(models: seq<Model>, engines: seq<Engine>, calls: seq<Call>) {
    forall g :: 0 <= g < |engines| ==> EngineOk(models, engines[g], g, calls)
  }

  // ---- requests -------------------------------------------------------------------------

  /** Requests are answered in the order they arrived: resolved, then current, then queued. */
  predicate Fifo(arrived: nat, queue: seq<nat>, current: Option<nat>, resolved: seq<nat>) {
    && (forall i :: 0 <= i < |resolved| ==> resolved[i] == i)
    && (current.Some? ==> current.value == |resolved|)
    && (current.None? ==> queue == [])
    && |resolved| + (if current.Some? then 1 else 0) + |queue| == arrived
    && (forall i :: 0 <= i < |queue| ==> queue[i] == |resolved| + 1 + i)
  }

  predicate Untouched(x: Entry) {
    x.mode.Fresh? && !x.touched && !x.modelFailed && !x.waitedOut && x.timer.None? && x.attempts == 0
  }

  /** What is true of the request on screen in each of its modes. */
  predicate OnScreen(x: Entry) {
    match x.mode
    case Fresh => Untouched(x)
    case Waiting =>
      && !x.touched && !x.modelFailed && !x.waitedOut && x.attempts == 0
      && x.waitFor.Some? && x.timer == Some(x.started + MODEL_WAIT_MS)
    case Manual => x.timer.None? && x.attempts == (if x.modelFailed then 1 else 0)
    case Answering => x.timer.None? && !x.touched && !x.modelFailed && x.attempts == 1
  }

  predicate EntryOk(x: Entry, e: nat, current: Option<nat>, done: nat) {
    if e < done then x.timer.None? && x.attempts <= 1
    else if current == Some(e) then OnScreen(x)
    else Untouched(x)
  }

  predicate EntriesOk(entries: seq<Entry>, current: Option<nat>, done: nat) {
    forall e :: 0 <= e < |entries| ==> EntryOk(entries[e], e, current, done)
  }

  /** A call is running exactly while the request on screen is being answered by a model. */
  predicate CallsOk(s: State) {
    if CurrentIs(s, Answering) then
      && |s.calls| == 1 && s.calls[0].entry == s.current.value
      && (s.calls[0].engine.Some? ==> s.calls[0].engine.value < |s.engines|)
    else s.calls == []
  }

  /** While the chosen model is being looked up, something will route again when that is done. */
  predicate CheckOk(s: State) {
    && (forall m :: 0 <= m < |s.models| && s.models[m].state.Checking? && s.checkStarted ==> m in s.unchecked)
    && (s.selected.Of? && s.selected.model < |s.models| && s.models[s.selected.model].state.Checking? ==>
          s.checkStarted && s.waiters != [])
    && (forall i :: 0 <= i < |s.waiters| ==> IsWebLlm(s, s.waiters[i]))
  }

  /** Everything but that a call runs for the request on screen. */
  predicate Frame(s: State) {
    && CheckOk(s)
    && ModelsOk(s.models, |s.engines|) && ChoiceOk(s)
    && EnginesOk(s.models, s.engines, s.calls)
    && Fifo(|s.entries|, s.queue, s.current, s.resolved)
    && EntriesOk(s.entries, s.current, |s.resolved|)
  }

  predicate Core(s: State) {
    Frame(s) && CallsOk(s)
  }

  predicate LoadedWeb(s: State, m: nat) {
    m < |s.models| && s.models[m].kind.WebLlm? && s.models[m].state.Ready?
  }

  /** At most one WebLLM model is loaded, and none beside another that answers. */
  ghost predicate Exclusive(s: State) {
    && (forall a: nat, b: nat :: LoadedWeb(s, a) && LoadedWeb(s, b) ==> a == b)
    && (forall a: nat :: LoadedWeb(s, a) && s.active.Some? ==> s.active == Some(a))
  }

  /** A chosen model that is ready is the one that answers. */
  predicate ChosenAnswers(s: State) {
    s.selected.Of? && s.selected.model < |s.models| && s.models[s.selected.model].state.Ready? ==> s.active == Some(s.selected.model)
  }

  /** The visitor has chosen a model that may still become ready. */
  predicate Hopeful(s: State) {
    && s.selected.Of? && s.selected.model < |s.models|
    && var st := s.models[s.selected.model].state; (st == Loading || st == Checking || st == Loadable)
  }

  /** A model answers, and the visitor does not want to. */
  predicate Served(s: State) {
    s.active.Some? && s.selected != You
  }

  /**
   The request on screen is where it belongs. One that the visitor has begun or a model has
   failed on is the visitor's. Any other is with a model if one answers; it waits if the chosen
   model may still become ready, there is time left and it has not waited its time out already;
   and otherwise the visitor has it. One that a model is answering stays there, and one that
   waits may be in the wrong place only until a cache check ends.
   */
  predicate Settled(s: State) {
    s.current.Some? && s.current.value < |s.entries| ==>
      var x := s.entries[s.current.value];
      var open := !x.touched && !x.modelFailed;
      && x.mode != Fresh
      && (!open ==> x.mode == Manual)
      && (open && Served(s) ==> x.mode == Answering)
      && (open && !Served(s) && Hopeful(s) && x.mode != Answering && !x.waitedOut && WaitLeft(s, s.current.value) > 0 ==>
            x.mode == Waiting && x.waitFor == Some(s.selected.model))
      && (x.mode == Waiting ==>
            !Served(s) && if Hopeful(s) then x.waitFor == Some(s.selected.model) else s.waiters != [])
  }

  /** All of it, except that the request on screen may have to be routed again. */
  ghost predicate Unrouted(s: State) {
    Core(s) && Exclusive(s) && ChosenAnswers(s) && !CurrentIs(s, Fresh)
  }

  ghost predicate Inv(s: State) {
    Core(s) && Exclusive(s) && ChosenAnswers(s) && Settled(s)
  }

  // ---- moving the request on screen -----------------------------------------------------

  lemma EntryMoved(entries: seq<Entry>, e: nat, x: Entry, done: nat)
    requires EntriesOk(entries, Some(e), done) && done <= e < |entries| && OnScreen(x)
    ensures EntriesOk(entries[e := x], Some(e), done)
  {
  }

  lemma ManuallyKeeps(s: State, e: nat)
    requires Core(s) && s.current == Some(e) && !s.entries[e].mode.Answering?
    ensures Core(AnswerManually(s, e))
  {
    var x := s.entries[e].(mode := Manual, timer := None);
    assert EntryOk(s.entries[e], e, s.current, |s.resolved|);
    EntryMoved(s.entries, e, x, |s.resolved|);
  }

  lemma WaitingKeeps(s: State, e: nat, m: nat)
    requires Core(s) && s.current == Some(e) && WaitLeft(s, e) > 0
    requires var x := s.entries[e]; !x.mode.Answering? && !x.touched && !x.modelFailed && !x.waitedOut
    ensures Core(RenderWaiting(s, e, m))
  {
    var x := s.entries[e].(mode := Waiting, waitFor := Some(m), timer := Some(s.entries[e].started + MODEL_WAIT_MS));
    assert EntryOk(s.entries[e], e, s.current, |s.resolved|);
    EntryMoved(s.entries, e, x, |s.resolved|);
  }

  lemma AnsweringKeeps(s: State, e: nat)
    requires Core(s) && s.current == Some(e) && s.active.Some?
    requires var x := s.entries[e]; !x.mode.Answering? && !x.touched && !x.modelFailed
    ensures Core(AnswerWithModel(s, e))
  {
    var x := s.entries[e].(mode := Answering, timer := None, attempts := s.entries[e].attempts + 1);
    assert EntryOk(s.entries[e], e, s.current, |s.resolved|);
    EntryMoved(s.entries, e, x, |s.resolved|);
    var t := AnswerWithModel(s, e);
    var m := s.active.value;
    assert ModelOk(s.models[m], |s.engines|);
    forall g | 0 <= g < |t.engines|
      ensures EngineOk(t.models, t.engines[g], g, t.calls)
    {
      assert EngineOk(s.models, s.engines[g], g, s.calls);
      if s.models[m].kind.WebLlm? && s.models[m].engine == Some(g) {
        assert Owned(s.models, g);
      }
    }
  }

  /** Where a request goes, in terms of who was chosen and who is ready. */
  lemma RouteIs(s: State)
    ensures RouteNow(s).ToModel? <==> Served(s)
    ensures RouteNow(s).ToModel? ==> s.active == Some(RouteNow(s).model)
    ensures RouteNow(s).ToWait? <==> !Served(s) && Hopeful(s)
    ensures RouteNow(s).ToWait? ==> s.selected == Of(RouteNow(s).model)
  {
  }

  lemma DispatchKeeps(s: State, e: nat)
    requires Core(s) && s.current == Some(e) && s.entries[e].mode.Fresh?
    ensures Core(Dispatch(s, e)) && Settled(Dispatch(s, e))
  {
    assert EntryOk(s.entries[e], e, s.current, |s.resolved|);
    RouteIs(s);
    hide RouteNow;
    var r := RouteNow(s);
    if r.ToModel? {
      AnsweringKeeps(s, e);
    } else if r.ToWait? && WaitLeft(s, e) > 0 {
      WaitingKeeps(s, e, r.model);
    } else {
      ManuallyKeeps(s, e);
    }
  }

  /** Routing the request on screen again leaves it settled. */
  lemma RerouteSettles(s: State)
    requires EntriesOk(s.entries, s.current, |s.resolved|) && !CurrentIs(s, Fresh)
    requires s.current.Some? ==> |s.resolved| == s.current.value < |s.entries|
    ensures Settled(Reroute(s))
  {
    if s.current.Some? {
      var e := s.current.value;
      assert EntryOk(s.entries[e], e, s.current, |s.resolved|);
      RouteIs(s);
      hide RouteNow;
    }
  }

  /** Rerouting touches the request on screen, the calls and the engines' use, nothing else. */
  lemma RerouteFrame(s: State)
    ensures var t := Reroute(s);
            t.(entries := s.entries, calls := s.calls, engines := s.engines) == s && |t.engines| == |s.engines|
  {
  }

  lemma RerouteCore(s: State)
    requires Core(s) && !CurrentIs(s, Fresh)
    ensures Core(Reroute(s))
  {
    if s.current.Some? {
      var e := s.current.value;
      var cur := s.entries[e];
      assert EntryOk(cur, e, s.current, |s.resolved|);
      hide Core, OnScreen;
      var r := RouteNow(s);
      if cur.mode.Answering? || (cur.mode.Manual? && (cur.touched || cur.modelFailed)) {
      } else if r.ToModel? {
        AnsweringKeeps(s, e);
      } else if cur.mode.Waiting? {
        if r.ToWait? && Some(r.model) == cur.waitFor {
        } else if r.ToWait? && WaitLeft(s, e) > 0 {
          WaitingKeeps(s, e, r.model);
        } else {
          ManuallyKeeps(s, e);
        }
      } else if r.ToWait? && !cur.waitedOut && WaitLeft(s, e) > 0 {
        WaitingKeeps(s, e, r.model);
      }
    }
  }

  /** Once the models are right, routing again makes everything right. */
  lemma RerouteKeeps(s: State)
    requires Unrouted(s)
    ensures Inv(Reroute(s))
  {
    RerouteCore(s);
    RerouteSettles(s);
    RerouteFrame(s);
    hide Core, Settled, Reroute;
    assert forall a: nat :: LoadedWeb(Reroute(s), a) <==> LoadedWeb(s, a);
  }

  // ---- the queue ------------------------------------------------------------------------

  lemma PumpKeeps(s: State)
    requires s.current.None? && s.queue != []
    requires Core(s.(current := Some(s.queue[0]), queue := s.queue[1..]))
    requires s.queue[0] < |s.entries| && s.entries[s.queue[0]].mode.Fresh?
    ensures Core(Pump(s)) && Settled(Pump(s))
  {
    DispatchKeeps(s.(current := Some(s.queue[0]), queue := s.queue[1..]), s.queue[0]);
  }

  /** Everything about models and engines, nothing about requests. */
  predicate SameModels(s: State, t: State) {
    s.models == t.models && s.selected == t.selected && s.active == t.active && s.waiters == t.waiters
  }

  lemma DispatchFrame(s: State, e: nat)
    requires e < |s.entries|
    ensures var t := Dispatch(s, e);
            t.(entries := s.entries, calls := s.calls, engines := s.engines) == s && |t.engines| == |s.engines|
  {
  }

  lemma SameModelsKeep(s: State, t: State)
    requires SameModels(s, t)
    ensures Exclusive(s) ==> Exclusive(t)
    ensures ChosenAnswers(s) ==> ChosenAnswers(t)
  {
    assert forall a: nat :: LoadedWeb(t, a) <==> LoadedWeb(s, a);
  }

  function Arrived(s: State): State {
    s.(entries := s.entries + [Entry(s.now, Fresh, false, false, false, None, None, 0)], queue := s.queue + [|s.entries|])
  }

  lemma ArrivedEntries(s: State)
    requires EntriesOk(s.entries, s.current, |s.resolved|) && (s.current.None? ==> |s.resolved| == |s.entries|)
    requires s.current.Some? ==> s.current.value < |s.entries|
    ensures EntriesOk(Arrived(s).entries, if s.current.Some? then s.current else Some(|s.entries|), |s.resolved|)
  {
    var t := Arrived(s);
    forall e | 0 <= e < |t.entries|
      ensures EntryOk(t.entries[e], e, if s.current.Some? then s.current else Some(|s.entries|), |s.resolved|)
    {
      if e < |s.entries| {
        assert EntryOk(s.entries[e], e, s.current, |s.resolved|);
      }
    }
  }

  lemma ArriveKeeps(s: State)
    requires Inv(s)
    ensures Inv(Arrive(s))
  {
    var n := |s.entries|;
    var t := Arrived(s);
    assert Arrive(s) == Pump(t);
    ArrivedEntries(s);
    SameModelsKeep(s, Arrive(s));
    hide EntriesOk, EnginesOk, ModelsOk;
    if s.current.None? {
      assert t.queue[1..] == [];
      PumpKeeps(t);
      DispatchFrame(t.(current := Some(n), queue := []), n);
      hide Settled, Dispatch;
    }
  }

  lemma FinishedEntries(entries: seq<Entry>, e: nat)
    requires EntriesOk(entries, Some(e), e) && e < |entries|
    ensures EntriesOk(entries[e := entries[e].(timer := None)], if e + 1 < |entries| then Some(e + 1) else None, e + 1)
  {
    var after := entries[e := entries[e].(timer := None)];
    var next := if e + 1 < |entries| then Some(e + 1) else None;
    forall i | 0 <= i < |after|
      ensures EntryOk(after[i], i, next, e + 1)
    {
      assert EntryOk(entries[i], i, Some(e), e);
    }
  }

  /** Resolving the request on screen brings the next one up. */
  lemma FinishKeeps(s: State, e: nat)
    requires Frame(s) && Exclusive(s) && ChosenAnswers(s)
    requires s.calls == [] && s.current == Some(e)
    ensures Inv(Finish(s, e))
  {
    FinishedEntries(s.entries, e);
    var t := s.(entries := s.entries[e := s.entries[e].(timer := None)], resolved := s.resolved + [e], current := None);
    if s.queue != [] {
      var n := s.queue[0];
      var u := t.(current := Some(n), queue := s.queue[1..]);
      assert n == e + 1 && EntryOk(s.entries[n], n, s.current, |s.resolved|);
      assert Fifo(|u.entries|, u.queue, u.current, u.resolved);
      assert Core(u);
      PumpKeeps(t);
      DispatchFrame(u, n);
    }
    SameModelsKeep(s, Finish(s, e));
  }

  // ---- models ---------------------------------------------------------------------------

  /** A model without an engine owns none; every other owner stays. */
  lemma OwnedWithout(models: seq<Model>, engines: nat, m: nat, x: Model)
    requires ModelsOk(models, engines) && m < |models| && x.engine.None?
    ensures forall g: nat :: Owned(models[m := x], g) <==> Owned(models, g) && models[m].engine != Some(g)
  {
    var after := models[m := x];
    forall g: nat
      ensures Owned(after, g) <==> Owned(models, g) && models[m].engine != Some(g)
    {
      if Owned(after, g) {
        var k :| 0 <= k < |after| && after[k].engine == Some(g);
        assert k != m && models[k].engine == Some(g);
      }
      if Owned(models, g) && models[m].engine != Some(g) {
        var k :| 0 <= k < |models| && models[k].engine == Some(g);
        assert after[k].engine == Some(g);
      }
    }
  }

  lemma RetireEngines(s: State, m: nat)
    requires Core(s) && LoadedWeb(s, m)
    ensures var t := Retire(s, m); EnginesOk(t.models, t.engines, t.calls)
  {
    var t := Retire(s, m);
    assert ModelOk(s.models[m], |s.engines|);
    OwnedWithout(s.models, |s.engines|, m, s.models[m].(engine := None, state := Loadable));
    forall g | 0 <= g < |t.engines|
      ensures EngineOk(t.models, t.engines[g], g, t.calls)
    {
      assert EngineOk(s.models, s.engines[g], g, s.calls);
      if s.models[m].engine == Some(g) {
        assert Owned(s.models, g);
      }
    }
  }

  lemma RetireKeeps(s: State, m: nat)
    requires Core(s) && LoadedWeb(s, m) && s.active != Some(m)
    ensures Core(Retire(s, m))
  {
    RetireEngines(s, m);
    RetireModels(s, m);
    hide EnginesOk, EntriesOk, Fifo, ModelsOk;
  }

  lemma RetireModels(s: State, m: nat)
    requires ModelsOk(s.models, |s.engines|) && LoadedWeb(s, m)
    ensures ModelsOk(Retire(s, m).models, |Retire(s, m).engines|)
  {
    var t := Retire(s, m);
    assert ModelOk(s.models[m], |s.engines|);
    forall j | 0 <= j < |t.models| ensures ModelOk(t.models[j], |t.engines|) {
      assert ModelOk(s.models[j], |s.engines|);
    }
  }

  predicate SameRequests(s: State, t: State) {
    && s.entries == t.entries && s.queue == t.queue && s.current == t.current && s.resolved == t.resolved
    && s.calls == t.calls && s.waiters == t.waiters && s.now == t.now
    && s.selected == t.selected && s.active == t.active && |s.models| == |t.models|
  }

  lemma RetireFrame(s: State, m: nat, other: nat)
    requires m < |s.models| && other < |s.models| && m != other
    ensures var t := Retire(s, m);
            SameRequests(s, t) && t.models[other] == s.models[other] && !LoadedWeb(t, m)
    ensures forall j: nat :: LoadedWeb(Retire(s, m), j) ==> LoadedWeb(s, j)
  {
  }

  lemma {:induction false} RetireOthersKeeps(s: State, keep: nat, i: nat)
    requires Core(s) && s.active == Some(keep) && keep < |s.models| && i <= |s.models|
    requires forall j: nat :: j < i && j != keep ==> !LoadedWeb(s, j)
    ensures var t := RetireOthers(s, keep, i);
            && Core(t) && SameRequests(s, t) && t.models[keep] == s.models[keep]
            && forall j: nat :: j != keep ==> !LoadedWeb(t, j)
    decreases |s.models| - i
  {
    hide Core, Retire;
    if i < |s.models| {
      if i != keep && LoadedWeb(s, i) {
        RetireKeeps(s, i);
        RetireFrame(s, i, keep);
        RetireOthersKeeps(Retire(s, i), keep, i + 1);
      } else {
        RetireOthersKeeps(s, keep, i + 1);
      }
    }
  }

  /** Activating the chosen, ready model unloads every other and hands it the waiting request. */
  lemma ActivateKeeps(s: State, m: nat)
    requires Core(s) && !CurrentIs(s, Fresh) && s.selected == Of(m) && s.models[m].state.Ready?
    ensures Inv(Activate(s, m)) && Activate(s, m).active == Some(m) && Activate(s, m).selected == Of(m)
  {
    var t := s.(active := Some(m));
    RetireOthersKeeps(t, m, 0);
    var u := RetireOthers(t, m, 0);
    RerouteKeeps(u);
    RerouteFrame(u);
  }

  /** A model whose state changes to another it may have while it holds nothing. */
  lemma SetStateKeeps(s: State, m: nat, x: Model)
    requires Unrouted(s) && m < |s.models| && s.models[m].engine.None? && !s.models[m].session
    requires ModelOk(x, |s.engines|) && x.kind == s.models[m].kind && !x.state.Ready? && !x.state.Unsupported? && !x.state.Checking?
    ensures Unrouted(s.(models := s.models[m := x]))
  {
    var t := s.(models := s.models[m := x]);
    assert ModelOk(s.models[m], |s.engines|);
    OwnedWithout(s.models, |s.engines|, m, x);
    forall g | 0 <= g < |t.engines|
      ensures EngineOk(t.models, t.engines[g], g, t.calls)
    {
      assert EngineOk(s.models, s.engines[g], g, s.calls);
    }
    assert forall a: nat :: LoadedWeb(t, a) <==> LoadedWeb(s, a);
  }

  // ---- loading --------------------------------------------------------------------------

  lemma LoadBuiltinKeeps(s: State, m: nat, quiet: bool)
    requires Unrouted(s) && IsBuiltin(s, m) && !s.models[m].state.Unsupported?
    ensures Unrouted(LoadBuiltin(s, m, quiet))
    ensures Inv(s) ==> Inv(LoadBuiltin(s, m, quiet))
  {
    var x := s.models[m];
    assert ModelOk(x, |s.engines|);
    if !x.session && !x.creating {
      if quiet {
        var y := x.(creating := true, quiet := Some(x.state));
        SetStateKeeps(s, m, y);
      } else {
        var y := x.(creating := true, quiet := None, state := Loading);
        SetStateKeeps(s, m, y);
        RerouteKeeps(s.(models := s.models[m := y]));
      }
    }
  }

  lemma LoadWebLlmKeeps(s: State, m: nat)
    requires Unrouted(s) && IsWebLlm(s, m) && !s.models[m].state.Ready?
    ensures Unrouted(LoadWebLlm(s, m))
    ensures Inv(s) ==> Inv(LoadWebLlm(s, m))
  {
    assert ModelOk(s.models[m], |s.engines|);
    if !s.models[m].state.Loading? {
      SetStateKeeps(s, m, s.models[m].(state := Loading));
      RerouteKeeps(SetState(s, m, Loading));
    }
  }

  lemma LoadModelKeeps(s: State, m: nat)
    requires Unrouted(s) && m < |s.models| && !s.models[m].state.Ready? && !s.models[m].state.Unsupported?
    ensures Unrouted(LoadModel(s, m))
    ensures Inv(s) ==> Inv(LoadModel(s, m))
  {
    if s.models[m].kind.Builtin? {
      LoadBuiltinKeeps(s, m, false);
    } else {
      LoadWebLlmKeeps(s, m);
    }
  }

  lemma SessionKept(s: State, m: nat)
    requires Inv(s) && IsBuiltin(s, m) && s.models[m].creating
    ensures var t := s.(models := s.models[m := s.models[m].(creating := false, quiet := None, session := true, state := Ready)]);
            Core(t) && !CurrentIs(t, Fresh) && (s.selected != Of(m) ==> Unrouted(t))
  {
    assert ModelOk(s.models[m], |s.engines|);
    var x := s.models[m].(creating := false, quiet := None, session := true, state := Ready);
    var t := s.(models := s.models[m := x]);
    OwnedWithout(s.models, |s.engines|, m, x);
    forall g | 0 <= g < |t.engines|
      ensures EngineOk(t.models, t.engines[g], g, t.calls)
    {
      assert EngineOk(s.models, s.engines[g], g, s.calls);
    }
    assert forall a: nat :: LoadedWeb(t, a) <==> LoadedWeb(s, a);
  }

  lemma BuiltinArrivesKeeps(s: State, m: nat)
    requires Inv(s) && IsBuiltin(s, m) && s.models[m].creating
    ensures Inv(BuiltinArrives(s, m))
  {
    SessionKept(s, m);
    var t := s.(models := s.models[m := s.models[m].(creating := false, quiet := None, session := true, state := Ready)]);
    if s.selected == Of(m) {
      ActivateKeeps(t, m);
    } else {
      RerouteKeeps(t);
    }
  }

  lemma BuiltinDeniedKeeps(s: State, m: nat, needsClick: bool)
    requires Inv(s) && IsBuiltin(s, m) && s.models[m].creating
    ensures Inv(BuiltinDenied(s, m, needsClick))
  {
    var x := s.models[m];
    assert ModelOk(x, |s.engines|);
    var st := if x.quiet.Some? then x.quiet.value else if needsClick then NeedsClick else Failed;
    var y := x.(creating := false, quiet := None, state := st);
    SetStateKeeps(s, m, y);
    RerouteKeeps(s.(models := s.models[m := y]));
  }

  lemma NewEngineKept(s: State, m: nat)
    requires Inv(s) && IsWebLlm(s, m) && s.models[m].state.Loading? && s.selected == Of(m)
    ensures var t := s.(engines := s.engines + [Engine(0, false, 0)],
                        models := s.models[m := s.models[m].(engine := Some(|s.engines|), state := Ready, cached := true)]);
            Core(t) && !CurrentIs(t, Fresh)
  {
    var x := s.models[m].(engine := Some(|s.engines|), state := Ready, cached := true);
    var t := s.(engines := s.engines + [Engine(0, false, 0)], models := s.models[m := x]);
    assert ModelOk(s.models[m], |s.engines|);
    forall k | 0 <= k < |t.models|
      ensures ModelOk(t.models[k], |t.engines|)
    {
      assert ModelOk(s.models[k], |s.engines|);
    }
    OwnedWithout(s.models, |s.engines|, m, s.models[m]);
    forall g | 0 <= g < |t.engines|
      ensures EngineOk(t.models, t.engines[g], g, t.calls)
    {
      if g < |s.engines| {
        assert EngineOk(s.models, s.engines[g], g, s.calls);
        OwnedSame(s.models, t.models, m, g);
      } else {
        assert t.models[m].engine == Some(g);
        assert Owned(t.models, g);
      }
    }
  }

  lemma OwnedSame(before: seq<Model>, after: seq<Model>, m: nat, g: nat)
    requires |before| == |after| && m < |before| && after == before[m := after[m]]
    requires before[m].engine != Some(g) && after[m].engine != Some(g)
    ensures Owned(before, g) <==> Owned(after, g)
  {
    if Owned(before, g) {
      var k :| 0 <= k < |before| && before[k].engine == Some(g);
      assert after[k].engine == Some(g);
    }
    if Owned(after, g) {
      var k :| 0 <= k < |after| && after[k].engine == Some(g);
      assert before[k].engine == Some(g);
    }
  }

  lemma NewEngineDropped(s: State, m: nat)
    requires Inv(s) && IsWebLlm(s, m) && s.models[m].state.Loading?
    ensures var t := s.(engines := s.engines + [Engine(0, false, 1)],
                        models := s.models[m := s.models[m].(state := Loadable, cached := true)]);
            Unrouted(t)
  {
    var x := s.models[m].(state := Loadable, cached := true);
    assert ModelOk(s.models[m], |s.engines|);
    SetStateKeeps(s, m, x);
    var u := s.(models := s.models[m := x]);
    var t := u.(engines := s.engines + [Engine(0, false, 1)]);
    forall k | 0 <= k < |t.models|
      ensures ModelOk(t.models[k], |t.engines|)
    {
      assert ModelOk(u.models[k], |u.engines|);
    }
    forall g | 0 <= g < |t.engines|
      ensures EngineOk(t.models, t.engines[g], g, t.calls)
    {
      if g < |u.engines| {
        assert EngineOk(u.models, u.engines[g], g, u.calls);
      }
    }
    assert forall a: nat :: LoadedWeb(t, a) <==> LoadedWeb(u, a);
  }

  lemma EngineArrivesKeeps(s: State, m: nat)
    requires Inv(s) && IsWebLlm(s, m) && s.models[m].state.Loading?
    ensures Inv(EngineArrives(s, m))
  {
    if s.selected == Of(m) {
      NewEngineKept(s, m);
      ActivateKeeps(s.(engines := s.engines + [Engine(0, false, 0)],
                       models := s.models[m := s.models[m].(engine := Some(|s.engines|), state := Ready, cached := true)]), m);
    } else {
      NewEngineDropped(s, m);
      RerouteKeeps(s.(engines := s.engines + [Engine(0, false, 1)],
                      models := s.models[m := s.models[m].(state := Loadable, cached := true)]));
    }
  }

  // ---- the other events -----------------------------------------------------------------

  lemma LearnsCacheKeeps(s: State, m: nat, cached: bool)
    requires Inv(s) && IsWebLlm(s, m) && m in s.unchecked
    ensures Inv(LearnsCache(s, m, cached))
  {
    var t := LearnsCache(s, m, cached);
    assert ModelOk(s.models[m], |s.engines|);
    forall g: nat
      ensures Owned(t.models, g) <==> Owned(s.models, g)
    {
      if Owned(s.models, g) {
        var k :| 0 <= k < |s.models| && s.models[k].engine == Some(g);
        assert t.models[k].engine == Some(g);
      }
      if Owned(t.models, g) {
        var k :| 0 <= k < |t.models| && t.models[k].engine == Some(g);
        assert s.models[k].engine == Some(g);
      }
    }
    forall g | 0 <= g < |t.engines|
      ensures EngineOk(t.models, t.engines[g], g, t.calls)
    {
      assert EngineOk(s.models, s.engines[g], g, s.calls);
    }
    assert forall a: nat :: LoadedWeb(t, a) <==> LoadedWeb(s, a);
  }

  lemma PopWaiter(s: State)
    requires Inv(s) && s.unchecked == {} && s.waiters != []
    ensures Unrouted(s.(waiters := s.waiters[1..])) && IsWebLlm(s, s.waiters[0])
  {
    var t := s.(waiters := s.waiters[1..]);
    assert forall i :: 0 <= i < |t.waiters| ==> t.waiters[i] == s.waiters[i + 1];
    assert forall a: nat :: LoadedWeb(t, a) <==> LoadedWeb(s, a);
  }

  lemma ContinueCheckKeeps(s: State)
    requires Inv(s) && s.unchecked == {} && s.waiters != []
    ensures Inv(ContinueCheck(s))
  {
    var m := s.waiters[0];
    var t := s.(waiters := s.waiters[1..]);
    PopWaiter(s);
    if s.selected == Of(m) && s.models[m].state.Loadable? {
      assert ModelOk(s.models[m], |s.engines|);
      hide Core, Settled;
      SetStateKeeps(t, m, t.models[m].(state := Loading));
      RerouteKeeps(SetState(t, m, Loading));
    } else {
      RerouteKeeps(t);
    }
  }

  lemma WaitedOutKeeps(s: State, e: nat)
    requires Inv(s) && e < |s.entries| && s.entries[e].timer.Some? && s.entries[e].timer.value <= s.now
    ensures Inv(WaitedOut(s, e))
  {
    assert EntryOk(s.entries[e], e, s.current, |s.resolved|);
    assert s.current == Some(e) && s.entries[e].mode.Waiting?;
    var x := s.entries[e].(timer := None, waitedOut := true, mode := Manual);
    EntryMoved(s.entries, e, x, |s.resolved|);
    var t := WaitedOut(s, e);
    assert t.entries == s.entries[e := x];
    assert RouteNow(t) == RouteNow(s);
    SameModelsKeep(s, t);
  }

  lemma TouchKeeps(s: State)
    requires Inv(s) && CurrentIs(s, Manual)
    ensures Inv(s.(entries := s.entries[s.current.value := s.entries[s.current.value].(touched := true)]))
  {
    var e := s.current.value;
    assert EntryOk(s.entries[e], e, s.current, |s.resolved|);
    EntryMoved(s.entries, e, s.entries[e].(touched := true), |s.resolved|);
    SameModelsKeep(s, s.(entries := s.entries[e := s.entries[e].(touched := true)]));
  }

  lemma SendKeeps(s: State)
    requires Inv(s) && CurrentIs(s, Manual)
    ensures Inv(Finish(s, s.current.value))
  {
    FinishKeeps(s, s.current.value);
  }

  lemma TimeKeeps(s: State, ms: nat)
    requires Inv(s)
    ensures Inv(s.(now := s.now + ms))
  {
    var t := s.(now := s.now + ms);
    SameModelsKeep(s, t);
    assert RouteNow(t) == RouteNow(s);
  }

  lemma ProgressKeeps(s: State, m: nat)
    requires Inv(s) && IsBuiltin(s, m) && s.models[m].creating
    ensures Inv(if s.selected == Of(m) then Reroute(SetState(s, m, Loading)) else SetState(s, m, Loading))
  {
    assert ModelOk(s.models[m], |s.engines|);
    SetStateKeeps(s, m, s.models[m].(state := Loading));
    var t := SetState(s, m, Loading);
    if s.selected == Of(m) {
      RerouteKeeps(t);
    } else {
      assert RouteNow(t) == RouteNow(s);
    }
  }

  lemma WebFailsKeeps(s: State, m: nat)
    requires Inv(s) && IsWebLlm(s, m) && s.models[m].state.Loading?
    ensures Inv(Reroute(SetState(s, m, Failed))) && Inv(Reroute(s))
  {
    assert ModelOk(s.models[m], |s.engines|);
    SetStateKeeps(s, m, s.models[m].(state := Failed));
    RerouteKeeps(SetState(s, m, Failed));
    RerouteKeeps(s);
  }

  /** When a call ends its engine is free again, and unloaded if it had been retired meanwhile. */
  lemma ReleaseKeeps(models: seq<Model>, engines: seq<Engine>, s: State, c: Call)
    requires s.models == models && s.engines == engines && s.calls == []
    requires EnginesOk(models, engines, [c])
    ensures var t := Release(s, c);
            EnginesOk(models, t.engines, []) && |t.engines| == |engines| && t.(engines := engines) == s
  {
    var t := Release(s, c);
    forall g | 0 <= g < |t.engines|
      ensures EngineOk(models, t.engines[g], g, [])
    {
      assert EngineOk(models, engines[g], g, [c]);
    }
  }

  lemma EndedFrame(s: State, k: nat)
    requires Core(s) && k < |s.calls|
    ensures s.calls == [s.calls[k]] && s.current == Some(s.calls[k].entry) && s.calls[k].entry < |s.entries|
    ensures var u := Release(EndCall(s, k), s.calls[k]);
            Frame(u) && u.calls == [] && u.(engines := s.engines, calls := s.calls) == s
  {
    assert s.calls == [s.calls[k]] && EndCall(s, k).calls == [];
    ReleaseKeeps(s.models, s.engines, EndCall(s, k), s.calls[k]);
  }

  lemma ReturnsKeeps(s: State, k: nat)
    requires Inv(s) && k < |s.calls| && s.calls[k].entry < |s.entries|
    ensures Inv(Finish(Release(EndCall(s, k), s.calls[k]), s.calls[k].entry))
  {
    EndedFrame(s, k);
    hide Frame, Core, Settled, Finish, Release, EndCall;
    var u := Release(EndCall(s, k), s.calls[k]);
    SameModelsKeep(s, u);
    FinishKeeps(u, s.calls[k].entry);
  }

  lemma ThrowsKeeps(s: State, k: nat)
    requires Inv(s) && k < |s.calls| && s.calls[k].entry < |s.entries|
    ensures Inv(Release(ModelFails(EndCall(s, k), s.calls[k].entry), s.calls[k]))
  {
    var c := s.calls[k];
    var e := c.entry;
    assert s.calls == [c] && EndCall(s, k).calls == [];
    assert EntryOk(s.entries[e], e, s.current, |s.resolved|);
    var t := ModelFails(EndCall(s, k), e);
    var x := s.entries[e].(modelFailed := true, mode := Manual, timer := None);
    assert t.entries == s.entries[e := x];
    EntryMoved(s.entries, e, x, |s.resolved|);
    ReleaseKeeps(s.models, s.engines, t, c);
    SameModelsKeep(s, Release(t, c));
  }

  lemma ChooseKeeps(s: State, c: Choice)
    requires Inv(s)
    ensures Inv(Choose(s, c))
  {
    match c
    case Nobody =>
    case You =>
      var t := s.(selected := You, active := None);
      assert forall a: nat :: LoadedWeb(t, a) <==> LoadedWeb(s, a);
      RerouteKeeps(t);
    case Of(m) =>
      if m < |s.models| && !s.models[m].state.Unsupported? {
        ChooseModelKeeps(s, m);
      }
  }

  lemma SelectKeeps(s: State, m: nat)
    requires Inv(s) && m < |s.models| && !s.models[m].state.Unsupported?
    ensures var t := s.(selected := Of(m));
            if s.models[m].state.Ready? then Core(t) && !CurrentIs(t, Fresh)
            else if s.models[m].state.Checking? then Unrouted(StartCheck(t).(waiters := t.waiters + [m]))
            else Unrouted(t)
  {
    var t := s.(selected := Of(m));
    assert ModelOk(s.models[m], |s.engines|);
    assert forall a: nat :: LoadedWeb(t, a) <==> LoadedWeb(s, a);
    if s.models[m].state.Checking? {
      var u := StartCheck(t).(waiters := t.waiters + [m]);
      assert forall a: nat :: LoadedWeb(u, a) <==> LoadedWeb(s, a);
    }
  }

  lemma ChooseModelKeeps(s: State, m: nat)
    requires Inv(s) && m < |s.models| && !s.models[m].state.Unsupported?
    ensures Inv(Choose(s, Of(m)))
  {
    SelectKeeps(s, m);
    var t := s.(selected := Of(m));
    match s.models[m].state
    case Ready =>
      ActivateKeeps(t, m);
      RerouteKeeps(Activate(t, m));
    case Checking =>
      RerouteKeeps(StartCheck(t).(waiters := t.waiters + [m]));
    case Loadable =>
      LoadModelKeeps(t, m);
      RerouteKeeps(LoadModel(t, m));
    case _ =>
      RerouteKeeps(t);
  }

  // ---- every event, every run -----------------------------------------------------------

  /** Every event keeps the invariant. */
  lemma StepKeeps(s: State, ev: Event)
    requires Inv(s) && Enabled(s, ev)
    ensures Inv(Step(s, ev))
  {
    hide Inv, Arrive, Choose, LoadModel, LoadBuiltin, Reroute, SetState, BuiltinArrives, BuiltinDenied, EngineArrives,
      LearnsCache, ContinueCheck, WaitedOut, Finish, Release, EndCall, ModelFails;
    match ev
    case Arrives => ArriveKeeps(s);
    case Chooses(c) => ChooseKeeps(s, c);
    case ClicksLoad => ClickKeeps(s, s.selected.model);
    case Gestures => ClickKeeps(s, s.selected.model);
    case LoadsQuietly(m) => QuietKeeps(s, m);
    case BuiltinProgresses(m) => ProgressKeeps(s, m);
    case BuiltinReady(m) => BuiltinArrivesKeeps(s, m);
    case BuiltinFails(m, needsClick) => BuiltinDeniedKeeps(s, m, needsClick);
    case WebLlmProgresses(m) => WebFailsKeeps(s, m);
    case WebLlmLoaded(m) => EngineArrivesKeeps(s, m);
    case WebLlmFails(m) => WebFailsKeeps(s, m);
    case CacheKnown(m, cached) => LearnsCacheKeeps(s, m, cached);
    case CheckContinues => ContinueCheckKeeps(s);
    case TimerFires(e) => WaitedOutKeeps(s, e);
    case Touches => TouchKeeps(s);
    case Sends => SendKeeps(s);
    case ModelReturns(k) => ReturnsKeeps(s, k);
    case ModelThrows(k) => ThrowsKeeps(s, k);
    case TimePasses(ms) => TimeKeeps(s, ms);
  }

  lemma ClickKeeps(s: State, m: nat)
    requires Inv(s) && m < |s.models| && (s.models[m].state.NeedsClick? || s.models[m].state.Failed?)
    ensures Inv(LoadModel(s, m))
    ensures IsBuiltin(s, m) ==> Inv(LoadBuiltin(s, m, false))
  {
    LoadModelKeeps(s, m);
  }

  lemma QuietKeeps(s: State, m: nat)
    requires Inv(s) && IsBuiltin(s, m) && s.selected == Of(m)
    ensures Inv(LoadBuiltin(s, m, true))
  {
    LoadBuiltinKeeps(s, m, true);
  }

  /** The state after a run of events; an event that cannot happen is passed over. */
  function Run(s: State, evs: seq<Event>): State
    decreases |evs|
  {
    if evs == [] then s
    else Run(if Enabled(s, evs[0]) then Step(s, evs[0]) else s, evs[1..])
  }

  /** Models as the page sets them up: nothing loaded, the WebLLM ones to be looked up or unusable. */
  predicate Initial(s: State) {
    && s == State(s.models, Nobody, None, [], [], None, [], [], [], false, {}, [], s.now)
    && forall m :: 0 <= m < |s.models| ==>
         var x := s.models[m];
         && x.engine.None? && !x.session && !x.creating && x.quiet.None?
         && if x.kind.WebLlm? then x.state.Checking? || x.state.Unsupported? else x.state.Loadable? || x.state.NeedsClick?
  }

  lemma {:induction false} RunKeeps(s: State, evs: seq<Event>)
    requires Inv(s)
    ensures Inv(Run(s, evs))
    decreases |evs|
  {
    hide Inv, Step, Enabled;
    if evs != [] {
      if Enabled(s, evs[0]) {
        StepKeeps(s, evs[0]);
        RunKeeps(Step(s, evs[0]), evs[1..]);
      } else {
        RunKeeps(s, evs[1..]);
      }
    }
  }

  /** The invariant holds in every state that any run of events reaches. */
  lemma EveryRun(s: State, evs: seq<Event>)
    requires Initial(s)
    ensures Inv(Run(s, evs))
  {
    assert Inv(s);
    RunKeeps(s, evs);
  }
}
