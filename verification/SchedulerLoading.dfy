/**
 How models get loaded in the browser demo (`site/js/demo.js`): in every run a model that a
 request may be waiting for is being fetched, and a model loads by itself exactly when it is
 already on the device.
 */
module SchedulerLoading {
  import opened Wrappers
  import opened Scheduler
  import opened SchedulerInv

  /**
   One model, by whether it is chosen, whether a choice of it waits for the cache check, and
   whether that check has still to answer for it.
   */
  predicate Tracked(x: Model, chosen: bool, waited: bool, asked: bool) {
    match x.kind
    case Builtin =>
      && (x.state.Loading? ==> x.creating)
      && (x.state.Loadable? ==> !x.creating && !chosen)
      && (x.quiet.Some? ==> x.quiet.value.Failed? || x.quiet.value.NeedsClick?)
    case WebLlm =>
      && (asked ==> x.state.Checking? || x.state.Unsupported?)
      && (x.state.Loadable? || x.state.Ready? ==> x.cached)
      && (x.state.NeedsClick? ==> !x.cached)
      && (chosen && (x.state.Checking? || x.state.Loadable?) ==> waited)
  }

  predicate Unasked(x: Model) {
    x.kind.WebLlm? ==> x.state.Checking? || x.state.Unsupported?
  }

  predicate Tracking(s: State) {
    && (forall m :: 0 <= m < |s.models| ==> Tracked(s.models[m], s.selected == Of(m), m in s.waiters, m in s.unchecked))
    && (forall m :: m in s.unchecked ==> IsWebLlm(s, m))
    && (!s.checkStarted ==> s.unchecked == {} && forall m :: 0 <= m < |s.models| ==> Unasked(s.models[m]))
  }

  predicate SameLoading(s: State, t: State) {
    && s.models == t.models && s.selected == t.selected && s.waiters == t.waiters
    && s.unchecked == t.unchecked && s.checkStarted == t.checkStarted
  }

  lemma SameTracking(s: State, t: State)
    requires Tracking(s) && SameLoading(s, t)
    ensures Tracking(t)
  {
  }

  lemma RerouteTracks(s: State)
    requires Tracking(s)
    ensures Tracking(Reroute(s)) && SameLoading(s, Reroute(s))
  {
    RerouteFrame(s);
    hide Reroute, Tracked;
    SameTracking(s, Reroute(s));
  }

  lemma PumpTracks(s: State)
    requires Tracking(s)
    ensures Tracking(Pump(s))
  {
    if s.current.None? && s.queue != [] && s.queue[0] < |s.entries| {
      DispatchFrame(s.(current := Some(s.queue[0]), queue := s.queue[1..]), s.queue[0]);
    }
    hide Dispatch, Tracked;
    SameTracking(s, Pump(s));
  }

  lemma OneTracks(s: State, m: nat, x: Model)
    requires Tracking(s) && m < |s.models| && x.kind == s.models[m].kind && (x.kind.WebLlm? ==> s.checkStarted)
    requires Tracked(x, s.selected == Of(m), m in s.waiters, m in s.unchecked)
    ensures Tracking(s.(models := s.models[m := x]))
  {
    hide Tracked;
  }

  lemma {:induction false} RetireTracks(s: State, keep: nat, i: nat)
    requires Tracking(s) && s.selected == Of(keep) && i <= |s.models|
    ensures Tracking(RetireOthers(s, keep, i))
    decreases |s.models| - i
  {
    if i < |s.models| {
      var x := s.models[i];
      if i != keep && x.kind.WebLlm? && x.state.Ready? {
        assert Tracked(x, false, i in s.waiters, i in s.unchecked) && !Unasked(x);
        OneTracks(s, i, x.(engine := None, state := Loadable));
        var t := Retire(s, i);
        SameTracking(s.(models := s.models[i := x.(engine := None, state := Loadable)]), t);
        hide Tracking, Retire;
        RetireTracks(t, keep, i + 1);
      } else {
        hide Tracking;
        RetireTracks(s, keep, i + 1);
      }
    }
  }

  lemma ActivateTracks(s: State, m: nat)
    requires Tracking(s) && s.selected == Of(m)
    ensures Tracking(Activate(s, m))
  {
    var t := s.(active := Some(m));
    SameTracking(s, t);
    hide Tracking, RetireOthers;
    RetireTracks(t, m, 0);
    RerouteTracks(RetireOthers(t, m, 0));
  }

  /** All that `LoadModel` needs: if it is chosen, that it is chosen does not have to be right yet. */
  predicate TrackingBut(s: State, m: nat) {
    && m < |s.models| && Tracking(s.(selected := Nobody)) && s.selected == Of(m)
    && Tracked(s.models[m], false, m in s.waiters, m in s.unchecked)
  }

  lemma ChosenTracks(s: State, m: nat, x: Model)
    requires TrackingBut(s, m) && x.kind == s.models[m].kind && (x.kind.WebLlm? ==> s.checkStarted)
    requires Tracked(x, true, m in s.waiters, m in s.unchecked)
    ensures Tracking(s.(models := s.models[m := x]))
  {
    hide Tracked;
    var u := s.(selected := Nobody);
    forall j | 0 <= j < |s.models| && j != m ensures Tracked(s.models[j], false, j in s.waiters, j in s.unchecked) {
      assert Tracked(u.models[j], u.selected == Of(j), j in u.waiters, j in u.unchecked);
    }
    assert forall j :: j in u.unchecked ==> IsWebLlm(u, j);
  }

  lemma LoadTracks(s: State, m: nat)
    requires TrackingBut(s, m) && ModelOk(s.models[m], |s.engines|)
    requires !s.models[m].state.Ready? && !s.models[m].state.Checking? && !s.models[m].state.Unsupported?
    ensures Tracking(LoadModel(s, m))
    ensures var x := LoadModel(s, m).models[m]; x.state.Loading? || x.creating
  {
    var x := s.models[m];
    assert x.kind.WebLlm? ==> !Unasked(x) && s.(selected := Nobody).models[m] == x && s.checkStarted;
    if x.kind.Builtin? {
      if x.creating {
        ChosenTracks(s, m, x);
        assert s.models[m := x] == s.models;
      } else {
        var y := x.(creating := true, quiet := None, state := Loading);
        ChosenTracks(s, m, y);
        RerouteTracks(s.(models := s.models[m := y]));
      }
    } else if x.state.Loading? {
      ChosenTracks(s, m, x);
      assert s.models[m := x] == s.models;
    } else {
      var y := x.(state := Loading);
      ChosenTracks(s, m, y);
      RerouteTracks(s.(models := s.models[m := y]));
    }
  }

  /** Nothing but the choice changes. */
  lemma SelectTracks(s: State, c: Choice)
    requires Tracking(s)
    ensures Tracking(s.(selected := Nobody)) && Tracking(s.(selected := You))
    ensures c.Of? && c.model < |s.models| ==> TrackingBut(s.(selected := c), c.model)
  {
    var u := s.(selected := Nobody);
    forall j | 0 <= j < |s.models| ensures Tracked(s.models[j], false, j in s.waiters, j in s.unchecked) {
      assert Tracked(s.models[j], s.selected == Of(j), j in s.waiters, j in s.unchecked);
    }
    hide Tracked;
    assert forall j :: j in u.unchecked ==> IsWebLlm(u, j);
    if c.Of? && c.model < |s.models| {
      assert s.(selected := c).(selected := Nobody) == u;
    }
  }

  // ---- the events -----------------------------------------------------------------------

  lemma CheckTracks(s: State, m: nat)
    requires TrackingBut(s, m) && s.models[m].kind.WebLlm? && s.models[m].state.Checking?
    ensures Tracking(StartCheck(s).(waiters := s.waiters + [m]))
  {
    var u := s.(selected := Nobody);
    var t := StartCheck(s).(waiters := s.waiters + [m]);
    forall j | 0 <= j < |t.models| ensures Tracked(t.models[j], t.selected == Of(j), j in t.waiters, j in t.unchecked) {
      assert Tracked(u.models[j], false, j in u.waiters, j in u.unchecked);
      assert !s.checkStarted ==> Unasked(u.models[j]);
    }
    assert s.checkStarted ==> forall j :: j in u.unchecked ==> IsWebLlm(u, j);
  }

  lemma ChooseTracks(s: State, c: Choice)
    requires Inv(s) && Tracking(s)
    ensures Tracking(Choose(s, c))
  {
    SelectTracks(s, c);
    if c == You {
      var t := s.(selected := You, active := None);
      SameTracking(s.(selected := You), t);
      RerouteTracks(t);
    } else if c.Of? && c.model < |s.models| && !s.models[c.model].state.Unsupported? {
      var m := c.model;
      var (t, x) := (s.(selected := c), s.models[m]);
      assert ModelOk(x, |s.engines|);
      assert x.kind.WebLlm? && !x.state.Checking? ==> !Unasked(x);
      assert t.(models := t.models[m := x]) == t;
      hide Tracking, Activate, LoadModel, StartCheck, Reroute, Inv;
      match x.state
      case Ready =>
        ChosenTracks(t, m, x);
        ActivateTracks(t, m);
        RerouteTracks(Activate(t, m));
      case Loadable =>
        LoadTracks(t, m);
        RerouteTracks(LoadModel(t, m));
      case Checking =>
        CheckTracks(t, m);
        RerouteTracks(StartCheck(t).(waiters := t.waiters + [m]));
      case _ =>
        ChosenTracks(t, m, x);
        RerouteTracks(t);
    }
  }

  lemma BuiltinTracks(s: State, m: nat, needsClick: bool)
    requires Tracking(s) && IsBuiltin(s, m) && s.models[m].creating
    ensures Tracking(Step(s, BuiltinProgresses(m)))
    ensures Tracking(BuiltinArrives(s, m)) && Tracking(BuiltinDenied(s, m, needsClick))
  {
    var x := s.models[m];
    assert Tracked(x, s.selected == Of(m), m in s.waiters, m in s.unchecked);
    hide Tracking, Reroute, Activate;
    OneTracks(s, m, x.(state := Loading));
    RerouteTracks(SetState(s, m, Loading));
    var y := x.(creating := false, quiet := None, session := true, state := Ready);
    OneTracks(s, m, y);
    var t := s.(models := s.models[m := y]);
    if s.selected == Of(m) {
      ActivateTracks(t, m);
    } else {
      RerouteTracks(t);
    }
    var st := if x.quiet.Some? then x.quiet.value else if needsClick then NeedsClick else Failed;
    var z := x.(creating := false, quiet := None, state := st);
    OneTracks(s, m, z);
    RerouteTracks(s.(models := s.models[m := z]));
  }

  lemma WebTracks(s: State, m: nat)
    requires Tracking(s) && IsWebLlm(s, m) && s.models[m].state.Loading?
    ensures Tracking(EngineArrives(s, m)) && Tracking(Reroute(SetState(s, m, Failed)))
  {
    var x := s.models[m];
    assert Tracked(x, s.selected == Of(m), m in s.waiters, m in s.unchecked) && !Unasked(x);
    assert s.checkStarted;
    hide Tracking, Reroute, Activate;
    OneTracks(s, m, x.(state := Failed));
    RerouteTracks(SetState(s, m, Failed));
    if s.selected == Of(m) {
      var y := x.(engine := Some(|s.engines|), state := Ready, cached := true);
      OneTracks(s, m, y);
      var t := s.(engines := s.engines + [Engine(0, false, 0)], models := s.models[m := y]);
      SameTracking(s.(models := s.models[m := y]), t);
      ActivateTracks(t, m);
    } else {
      var y := x.(state := Loadable, cached := true);
      OneTracks(s, m, y);
      var t := s.(engines := s.engines + [Engine(0, false, 1)], models := s.models[m := y]);
      SameTracking(s.(models := s.models[m := y]), t);
      RerouteTracks(t);
    }
  }

  lemma CacheTracks(s: State, m: nat, cached: bool)
    requires Tracking(s) && s.checkStarted && m in s.unchecked
    ensures Tracking(LearnsCache(s, m, cached))
  {
    var t := LearnsCache(s, m, cached);
    assert IsWebLlm(s, m);
    forall j | 0 <= j < |t.models| ensures Tracked(t.models[j], t.selected == Of(j), j in t.waiters, j in t.unchecked) {
      assert Tracked(s.models[j], s.selected == Of(j), j in s.waiters, j in s.unchecked);
    }
    assert forall j :: j in t.unchecked ==> j in s.unchecked && IsWebLlm(s, j);
  }

  /** The next choice that waited for the check: what is still chosen and on the device is loaded. */
  lemma ContinueTracks(s: State)
    requires Inv(s) && Tracking(s) && s.unchecked == {} && s.waiters != []
    ensures Tracking(ContinueCheck(s))
  {
    var m := s.waiters[0];
    var t := s.(waiters := s.waiters[1..]);
    assert IsWebLlm(s, m);
    assert s.waiters == [m] + s.waiters[1..];
    if s.selected == Of(m) && s.models[m].state.Loadable? {
      assert ModelOk(s.models[m], |s.engines|);
      PoppedBut(s, m);
      hide Tracking, LoadModel, Inv;
      LoadTracks(t, m);
    } else {
      forall j | 0 <= j < |t.models| ensures Tracked(t.models[j], t.selected == Of(j), j in t.waiters, j in t.unchecked) {
        assert Tracked(s.models[j], s.selected == Of(j), j in s.waiters, j in s.unchecked);
      }
      assert Tracking(t);
      hide Tracking, Inv, Reroute;
      RerouteTracks(t);
    }
  }

  lemma PoppedBut(s: State, m: nat)
    requires Tracking(s) && s.waiters != [] && s.selected == Of(m) && m < |s.models|
    ensures TrackingBut(s.(waiters := s.waiters[1..]), m)
  {
    var u := s.(selected := Nobody, waiters := s.waiters[1..]);
    assert s.(waiters := s.waiters[1..]).(selected := Nobody) == u;
    forall j | 0 <= j < |s.models| ensures Tracked(s.models[j], false, j in u.waiters, j in u.unchecked) {
      assert Tracked(s.models[j], s.selected == Of(j), j in s.waiters, j in s.unchecked);
    }
    hide Tracked;
    assert forall j :: j in u.unchecked ==> IsWebLlm(s, j) && IsWebLlm(u, j);
  }

  lemma QuietTracks(s: State, m: nat)
    requires Inv(s) && Tracking(s) && IsBuiltin(s, m) && s.selected == Of(m)
    ensures Tracking(LoadBuiltin(s, m, true))
  {
    var x := s.models[m];
    assert ModelOk(x, |s.engines|);
    assert Tracked(x, true, m in s.waiters, m in s.unchecked);
    if !x.session && !x.creating {
      OneTracks(s, m, x.(creating := true, quiet := Some(x.state)));
    }
  }

  /** What the visitor asks for is fetched. */
  lemma ClickTracks(s: State)
    requires Inv(s) && Tracking(s) && Enabled(s, ClicksLoad)
    ensures var t := LoadModel(s, s.selected.model);
            && Tracking(t)
            && var x := t.models[s.selected.model]; (x.state.Loading? || x.creating)
  {
    var m := s.selected.model;
    SelectTracks(s, s.selected);
    assert s.(selected := s.selected) == s;
    assert ModelOk(s.models[m], |s.engines|);
    hide Tracking, Inv, LoadModel;
    LoadTracks(s, m);
  }

  lemma RequestTracks(s: State, e: nat)
    requires Tracking(s) && e < |s.entries|
    ensures Tracking(Arrive(s)) && Tracking(Finish(s, e)) && Tracking(WaitedOut(s, e)) && Tracking(ModelFails(s, e))
  {
    hide Tracked, Pump;
    var x := Entry(s.now, Fresh, false, false, false, None, None, 0);
    var a := s.(entries := s.entries + [x], queue := s.queue + [|s.entries|]);
    SameTracking(s, a);
    PumpTracks(a);
    var f := s.(entries := s.entries[e := s.entries[e].(timer := None)], resolved := s.resolved + [e], current := None);
    SameTracking(s, f);
    PumpTracks(f);
    SameTracking(s, WaitedOut(s, e));
    SameTracking(s, ModelFails(s, e));
  }

  lemma ReturnTracks(s: State, k: nat)
    requires Tracking(s) && k < |s.calls| && s.calls[k].entry < |s.entries|
    ensures Tracking(Step(s, ModelReturns(k)))
  {
    var (ended, c) := (EndCall(s, k), s.calls[k]);
    SameTracking(s, Release(ended, c));
    hide Tracking, Finish;
    RequestTracks(Release(ended, c), c.entry);
  }

  lemma ThrowTracks(s: State, k: nat)
    requires Tracking(s) && k < |s.calls| && s.calls[k].entry < |s.entries|
    ensures Tracking(Step(s, ModelThrows(k)))
  {
    var (ended, c) := (EndCall(s, k), s.calls[k]);
    SameTracking(s, ended);
    hide Tracking, ModelFails, EndCall;
    RequestTracks(ended, c.entry);
    SameTracking(ModelFails(ended, c.entry), Release(ModelFails(ended, c.entry), c));
  }

  lemma StepTracks(s: State, ev: Event)
    requires Inv(s) && Tracking(s) && Enabled(s, ev)
    ensures Tracking(Step(s, ev))
  {
    match ev
    case Arrives =>
      var t := s.(entries := s.entries + [Entry(s.now, Fresh, false, false, false, None, None, 0)], queue := s.queue + [|s.entries|]);
      SameTracking(s, t);
      hide Tracking, Pump;
      PumpTracks(t);
    case Chooses(c) => ChooseTracks(s, c);
    case ClicksLoad => ClickTracks(s);
    case Gestures => ClickTracks(s);
    case LoadsQuietly(m) => QuietTracks(s, m);
    case BuiltinProgresses(m) => BuiltinTracks(s, m, false);
    case BuiltinReady(m) => BuiltinTracks(s, m, false);
    case BuiltinFails(m, needsClick) => BuiltinTracks(s, m, needsClick);
    case WebLlmProgresses(m) => RerouteTracks(s);
    case WebLlmLoaded(m) => WebTracks(s, m);
    case WebLlmFails(m) => WebTracks(s, m);
    case CacheKnown(m, cached) => CacheTracks(s, m, cached);
    case CheckContinues => ContinueTracks(s);
    case TimerFires(e) => RequestTracks(s, e);
    case Touches => SameTracking(s, Step(s, ev));
    case Sends => RequestTracks(s, s.current.value);
    case ModelReturns(k) => ReturnTracks(s, k);
    case ModelThrows(k) => ThrowTracks(s, k);
    case TimePasses(ms) => SameTracking(s, Step(s, ev));
  }

  lemma {:induction false} RunTracks(s: State, evs: seq<Event>)
    requires Inv(s) && Tracking(s)
    ensures Tracking(Run(s, evs))
    decreases |evs|
  {
    hide Inv, Tracking, Step, Enabled;
    if evs != [] {
      if Enabled(s, evs[0]) {
        StepKeeps(s, evs[0]);
        StepTracks(s, evs[0]);
        RunTracks(Step(s, evs[0]), evs[1..]);
      } else {
        RunTracks(s, evs[1..]);
      }
    }
  }

  lemma EveryRunTracks(s: State, evs: seq<Event>)
    requires Initial(s)
    ensures Inv(Run(s, evs)) && Tracking(Run(s, evs))
  {
    EveryRun(s, evs);
    EveryRun(s, []);
    assert Tracking(s);
    RunTracks(s, evs);
  }

  // ---- what that means for the visitor --------------------------------------------------

  /** Something is going to happen to model `m`: its load is pending, or the check that a choice of it waits for. */
  ghost predicate Underway(s: State, m: nat) {
    || Enabled(s, BuiltinReady(m))
    || Enabled(s, WebLlmLoaded(m))
    || (m in s.waiters && (Enabled(s, CheckContinues) || exists k: nat :: Enabled(s, CacheKnown(k, true))))
  }

  /** In every run: nobody waits for a chosen model that nothing is fetching. */
  lemma NoVainWait(s: State, evs: seq<Event>)
    requires Initial(s) && Hopeful(Run(s, evs))
    ensures Underway(Run(s, evs), Run(s, evs).selected.model)
  {
    EveryRunTracks(s, evs);
    var t := Run(s, evs);
    var m := t.selected.model;
    var x := t.models[m];
    assert ModelOk(x, |t.engines|);
    assert Tracked(x, true, m in t.waiters, m in t.unchecked);
    if x.kind.WebLlm? && !x.state.Loading? {
      assert m in t.waiters;
      if t.unchecked != {} {
        var k: nat :| k in t.unchecked;
        assert Enabled(t, CacheKnown(k, true));
      }
    }
  }

  /** In every run: a WebLLM model that loads by itself is on the device, and one that needs a click is not. */
  lemma LoadableIsCached(s: State, evs: seq<Event>, m: nat)
    requires Initial(s) && IsWebLlm(Run(s, evs), m)
    ensures var x := Run(s, evs).models[m];
            && (x.state.Loadable? || x.state.Ready? ==> x.cached)
            && (x.state.NeedsClick? ==> !x.cached)
  {
    EveryRunTracks(s, evs);
    var t := Run(s, evs);
    assert Tracked(t.models[m], t.selected == Of(m), m in t.waiters, m in t.unchecked);
  }

  /** In every run: asking for the chosen model, by the button or any gesture, starts its load. */
  lemma AskedIsFetched(s: State, evs: seq<Event>, ev: Event)
    requires Initial(s) && (ev == ClicksLoad || ev == Gestures) && Enabled(Run(s, evs), ev)
    ensures var t := Step(Run(s, evs), ev);
            t.selected.Of? && Underway(t, t.selected.model)
  {
    EveryRunTracks(s, evs);
    var u := Run(s, evs);
    StepKeeps(u, ev);
    StepTracks(u, ev);
    ClickTracks(u);
    var t := Step(u, ev);
    var m := u.selected.model;
    AskedKeeps(u, m);
    assert ModelOk(t.models[m], |t.engines|);
    assert Tracked(t.models[m], t.selected == Of(m), m in t.waiters, m in t.unchecked);
  }

  lemma AskedKeeps(s: State, m: nat)
    requires m < |s.models|
    ensures var t := LoadModel(s, m);
            t.selected == s.selected && |t.models| == |s.models| && t.models[m].kind == s.models[m].kind
  {
    var x := s.models[m];
    RerouteFrame(s.(models := s.models[m := x.(creating := true, quiet := None, state := Loading)]));
    RerouteFrame(SetState(s, m, Loading));
    hide Reroute;
  }
}
