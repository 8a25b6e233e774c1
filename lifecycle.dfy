/**
 * What the navigation step functions of `Blazer` promise: the `canNavigate`
 * veto, the commit of `handleRoute`, cancel-and-revert, how `_runHandler`
 * reads a hook's result, how a filter chain runs, and the order of the
 * whole lifecycle.
 */
module Lifecycle {
  import opened SeqFacts
  import opened JsValues
  import opened Outcomes
  import opened Registry
  import opened Blazer

  // -------------------------------------------------------------------
  // Navigating

  /** A vetoed `navigate` returns before reaching the history: nothing is
      recorded and nothing changes. */
  lemma VetoChangesNothing(h: History, r: Router, w: World, fuel: nat, fragment: string, trigger: bool, replace: bool)
    requires Wf(h) && r in h.routers && Fits(h, w)
    requires Vetoed(r, PairOf(w, r))
    ensures NavigateW(h, r, w, fuel, fragment, trigger, replace) == Step(w, Done)
  {
  }

  /** Navigating without `trigger` only moves the fragment: no route runs. */
  lemma NavigateWithoutTrigger(h: History, r: Router, w: World, fuel: nat, fragment: string, replace: bool)
    requires Wf(h) && r in h.routers && Fits(h, w)
    ensures var s := NavigateW(h, r, w, fuel, fragment, false, replace);
      s.status == Done && s.w.pairs == w.pairs
      && s.w.fragment == (if Vetoed(r, PairOf(w, r)) then w.fragment else fragment)
      && s.w.trace == w.trace + (if Vetoed(r, PairOf(w, r)) then [] else [Navigated(fragment, false, replace)])
  {
  }

  /** Navigating to the fragment the history is at loads nothing. */
  lemma NavigateToSameFragment(h: History, r: Router, w: World, fuel: nat, trigger: bool, replace: bool)
    requires Wf(h) && r in h.routers && Fits(h, w)
    ensures var s := NavigateW(h, r, w, fuel, w.fragment, trigger, replace);
      s.status == Done && s.w.pairs == w.pairs && s.w.fragment == w.fragment
  {
  }

  /** An endless chain of redirects ends in a stack overflow. */
  lemma NavigateOutOfFuel(h: History, r: Router, w: World, fragment: string, replace: bool)
    requires Wf(h) && r in h.routers && Fits(h, w)
    requires !Vetoed(r, PairOf(w, r)) && fragment != w.fragment
    ensures NavigateW(h, r, w, 0, fragment, true, replace).status == Threw(TooDeep)
  {
  }

  // -------------------------------------------------------------------
  // Cancelling

  /** `_cancelRoute` puts `previous` back as `current` and navigates,
      without `trigger` and with `replace`, to the previous url or `''`;
      nothing else runs. */
  lemma CancelReverts(h: History, r: Router, w: World, fuel: nat, route: Route)
    requires Wf(h) && r in h.routers && Fits(h, w)
    ensures var p := PairOf(w, r);
      var back := Pair(p.previous, p.previous);
      var url := if p.previous.Some? then p.previous.value.url else "";
      var s := CancelRouteW(h, r, w, fuel, RouteH(route));
      s.status == Done
      && s.w.pairs == w.pairs[r := back]
      && s.w.fragment == (if Vetoed(r, back) then w.fragment else url)
      && s.w.trace == w.trace + [RouteEvent(route, "before:cancel"), RouterEvent(r, "before:cancel")]
                      + (if Vetoed(r, back) then [] else [Navigated(url, false, true)])
                      + [RouteEvent(route, "after:cancel"), RouterEvent(r, "after:cancel")]
  {
    var p := PairOf(w, r);
    var back := Pair(p.previous, p.previous);
    var url := if p.previous.Some? then p.previous.value.url else "";
    var w1 := Emit(w, [RouteEvent(route, "before:cancel"), RouterEvent(r, "before:cancel")]);
    var w2 := w1.(pairs := w1.pairs[r := back]);
    assert PairOf(w2, r) == back;
    NavigateWithoutTrigger(h, r, w2, fuel, url, true);
  }

  /** Cancelling with a handler that is not a Route throws. */
  lemma CancelNeedsRoute(h: History, r: Router, w: World, fuel: nat, target: HandlerRef)
    requires Wf(h) && r in h.routers && Fits(h, w)
    requires !target.RouteH?
    ensures CancelRouteW(h, r, w, fuel, target) == Step(w, Threw("TypeError"))
  {
  }

  // -------------------------------------------------------------------
  // One hook

  /** A hook whose result is neither a redirect marker nor exactly `false`
      is only recorded; `_runHandler` answers as the result settles. */
  lemma PlainHook(h: History, r: Router, w: World, fuel: nat, hook: Hook, kind: HookKind, route: Route)
    requires Wf(h) && r in h.routers && Fits(h, w)
    requires EffectOf(hook) == NoEffect
    ensures RunHandlerW(h, r, w, fuel, hook, kind, route) == Step(Emit(w, [Called(route, kind)]), Settled(SettleOf(hook)))
  {
  }

  /** A hook that returns exactly `false` cancels the route and rejects. */
  lemma FalseHookCancels(h: History, r: Router, w: World, fuel: nat, kind: HookKind, route: Route)
    requires Wf(h) && r in h.routers && Fits(h, w)
    ensures var p := PairOf(w, r);
      var back := Pair(p.previous, p.previous);
      var url := if p.previous.Some? then p.previous.value.url else "";
      var s := RunHandlerW(h, r, w, fuel, Returns(Bool(false)), kind, route);
      s.status == Settled(Rejected) && s.w.pairs == w.pairs[r := back]
      && s.w.trace == w.trace + [Called(route, kind)]
                      + [RouteEvent(route, "before:cancel"), RouterEvent(r, "before:cancel")]
                      + (if Vetoed(r, back) then [] else [Navigated(url, false, true)])
                      + [RouteEvent(route, "after:cancel"), RouterEvent(r, "after:cancel")]
  {
    var w1 := Emit(w, [Called(route, kind)]);
    assert PairOf(w1, r) == PairOf(w, r);
    CancelReverts(h, r, w1, fuel, route);
  }

  /** A redirect marker navigates to its fragment with `trigger`, and the
      hook's promise rejects unless the navigation threw. */
  lemma RedirectNavigates(h: History, r: Router, w: World, fuel: nat, f: string, kind: HookKind, route: Route)
    requires Wf(h) && r in h.routers && Fits(h, w)
    requires f != "" && !Vetoed(r, PairOf(w, r))
    ensures var s := RunHandlerW(h, r, w, fuel, RedirectTo(f), kind, route);
      (s.status == Settled(Rejected) || s.status.Threw?)
      && w.trace + [Called(route, kind)] + [Navigated(f, true, false)] <= s.w.trace
  {
    var w1 := Emit(w, [Called(route, kind)]);
    assert PairOf(w1, r) == PairOf(w, r);
    var w2 := Emit(w1, [Navigated(f, true, false)]);
    var n := NavigateW(h, r, w1, fuel, f, true, false);
    assert n == HistoryNavigateW(h, w2, fuel, f, true);
    assert w2.trace <= n.w.trace;
  }

  // -------------------------------------------------------------------
  // Filter chains

  /** The calls a chain of filters records, one per hook. */
  function FilterCalls(route: Route, hooks: seq<Hook>, before: bool): (es: seq<Event>)
    ensures |es| == |hooks|
  {
    if hooks == [] then []
    else [Called(route, if before then BeforeFilter(hooks[0]) else AfterFilter(hooks[0]))]
         + FilterCalls(route, hooks[1..], before)
  }

  /** The calls of the first `c + 1` hooks: the first hook's, then those of
      the next `c`. */
  lemma FilterCallsCons(route: Route, hooks: seq<Hook>, c: nat, before: bool)
    requires c < |hooks|
    ensures FilterCalls(route, hooks[..c + 1], before)
            == [Called(route, if before then BeforeFilter(hooks[0]) else AfterFilter(hooks[0]))]
               + FilterCalls(route, hooks[1..][..c], before)
  {
    assert hooks[..c + 1][1..] == hooks[1..][..c];
  }

  /** No hook of the list redirects or cancels. */
  predicate Plain(hooks: seq<Hook>) {
    forall i :: 0 <= i < |hooks| ==> EffectOf(hooks[i]) == NoEffect
  }

  lemma PlainTail(hooks: seq<Hook>)
    requires hooks != [] && Plain(hooks)
    ensures Plain(hooks[1..])
  {
    forall i | 0 <= i < |hooks[1..]| ensures EffectOf(hooks[1..][i]) == NoEffect {
      assert hooks[1..][i] == hooks[i + 1];
    }
  }

  /** A chain of plain hooks calls them in order, each once the one before
      it resolved, and ends as the first one that does not resolve. */
  lemma {:induction false} ChainRunsInOrder(h: History, r: Router, w: World, fuel: nat, route: Route,
                                             hooks: seq<Hook>, before: bool)
    requires Wf(h) && r in h.routers && Fits(h, w) && Plain(hooks)
    ensures ChainW(h, r, w, fuel, route, hooks, before)
            == Step(Emit(w, FilterCalls(route, hooks[..Outcomes.Called(hooks)], before)), Settled(ChainSettle(hooks)))
    decreases |hooks|
  {
    if hooks == [] {
      assert hooks[..0] == [];
    } else {
      var kind := if before then BeforeFilter(hooks[0]) else AfterFilter(hooks[0]);
      PlainHook(h, r, w, fuel, hooks[0], kind, route);
      var w1 := Emit(w, [Called(route, kind)]);
      if SettleOf(hooks[0]) == Resolved {
        PlainTail(hooks);
        ChainRunsInOrder(h, r, w1, fuel, route, hooks[1..], before);
        var c := Outcomes.Called(hooks[1..]);
        FilterCallsCons(route, hooks, c, before);
        Assoc(w.trace, [Called(route, kind)], FilterCalls(route, hooks[1..][..c], before));
      } else {
        FilterCallsCons(route, hooks, 0, before);
        assert hooks[1..][..0] == [];
      }
    }
  }

  /** `_runFilters` over plain hooks: the router's filters, then the
      route's, are called in order; the stage resolves when every hook
      resolved and otherwise never settles. */
  lemma StageRunsInOrder(h: History, r: Router, w: World, fuel: nat, route: Route, before: bool)
    requires Wf(h) && r in h.routers && route in h.routes && Fits(h, w)
    requires Plain(StageOf(r, route, before))
    ensures var hooks := StageOf(r, route, before);
      StageW(h, r, w, fuel, route, before)
      == Step(Emit(w, FilterCalls(route, hooks[..Outcomes.Called(hooks)], before)), Settled(FiltersSettle(hooks)))
  {
    ChainRunsInOrder(h, r, w, fuel, route, StageOf(r, route, before), before);
  }

  // -------------------------------------------------------------------
  // The lifecycle

  /** A hook without effect that resolves. */
  predicate Quiet(hook: Hook) {
    EffectOf(hook) == NoEffect && SettleOf(hook) == Resolved
  }

  /** The previous handler's `exit` hook, run when it is a Route, resolves
      without effect. */
  predicate ExitQuiet(prev: Option<HandlerRef>) {
    prev.Some? && prev.value.RouteH? ==> Quiet(prev.value.route.hooks.exit)
  }

  function ExitCalls(prev: Option<HandlerRef>): seq<Event> {
    if prev.Some? && prev.value.RouteH? then [Called(prev.value.route, ExitHook)] else []
  }

  /** The opening of `_handleBlazerRoute` under a quiet `exit`: the
      `before:execute` events, then the previous Route's `exit` call. */
  lemma ExitStep(h: History, r: Router, w: World, fuel: nat, route: Route, prev: Option<HandlerRef>)
    requires Wf(h) && r in h.routers && Fits(h, w) && ExitQuiet(prev)
    ensures var w1 := Emit(w, [RouteEvent(route, "before:execute"), RouterEvent(r, "before:execute")]);
      (if prev.Some? && prev.value.RouteH?
       then RunHandlerW(h, r, w1, fuel, prev.value.route.hooks.exit, ExitHook, prev.value.route)
       else Step(w1, Done))
      == Step(Emit(w1, ExitCalls(prev)), Done)
  {
    var w1 := Emit(w, [RouteEvent(route, "before:execute"), RouterEvent(r, "before:execute")]);
    if prev.Some? && prev.value.RouteH? {
      PlainHook(h, r, w1, fuel, prev.value.route.hooks.exit, ExitHook, prev.value.route);
    } else {
      EmptyAppend(w1.trace);
    }
  }

  /** A before stage that does not resolve leaves the route where it is:
      `prepare`, `execute` and `error` are never called, no record changes
      and the lifecycle never settles. */
  lemma BeforeFiltersStall(h: History, r: Router, w: World, fuel: nat, route: Route, rd: RouteData)
    requires Wf(h) && r in h.routers && route in h.routes && Fits(h, w)
    requires ExitQuiet(HandlerOf(PairOf(w, r).previous))
    requires Plain(StageOf(r, route, true)) && ChainSettle(StageOf(r, route, true)) != Resolved
    ensures var hooks := StageOf(r, route, true);
      var prev := HandlerOf(PairOf(w, r).previous);
      var s := LifecycleW(h, r, w, fuel, route, rd);
      s.status == Settled(Unsettled) && s.w.pairs == w.pairs && s.w.fragment == w.fragment
      && s.w.trace == w.trace + [RouteEvent(route, "before:execute"), RouterEvent(r, "before:execute")]
                      + ExitCalls(prev) + FilterCalls(route, hooks[..Outcomes.Called(hooks)], true)
  {
    var prev := HandlerOf(PairOf(w, r).previous);
    var w1 := Emit(w, [RouteEvent(route, "before:execute"), RouterEvent(r, "before:execute")]);
    assert PairOf(w1, r) == PairOf(w, r);
    ExitStep(h, r, w, fuel, route, prev);
    StageRunsInOrder(h, r, Emit(w1, ExitCalls(prev)), fuel, route, true);
  }

  /** A hook with an effect never lets its chain go on: a redirect or a
      cancel rejects the hook's promise, or the navigation throws. */
  lemma EffectStops(h: History, r: Router, w: World, fuel: nat, hook: Hook, kind: HookKind, route: Route)
    requires Wf(h) && r in h.routers && Fits(h, w)
    requires EffectOf(hook) != NoEffect
    ensures var s := RunHandlerW(h, r, w, fuel, hook, kind, route);
      s.status == Settled(Rejected) || s.status.Threw?
  {
  }

  /** A chain whose first `k` hooks resolve quietly and whose hook `k`
      redirects or cancels: those `k` hooks are called in order, then hook
      `k` runs with its effect, and no later hook is called. */
  lemma {:induction false} ChainStopsAt(h: History, r: Router, w: World, fuel: nat, route: Route,
                                         hooks: seq<Hook>, before: bool, k: nat)
    requires Wf(h) && r in h.routers && Fits(h, w)
    requires k < |hooks| && (forall i :: 0 <= i < k ==> Quiet(hooks[i])) && EffectOf(hooks[k]) != NoEffect
    ensures ChainW(h, r, w, fuel, route, hooks, before)
            == RunHandlerW(h, r, Emit(w, FilterCalls(route, hooks[..k], before)), fuel, hooks[k],
                           if before then BeforeFilter(hooks[k]) else AfterFilter(hooks[k]), route)
    ensures ChainW(h, r, w, fuel, route, hooks, before).status != Done
    decreases k
  {
    var kind := if before then BeforeFilter(hooks[0]) else AfterFilter(hooks[0]);
    if k == 0 {
      assert hooks[..0] == [];
      EmptyAppend(w.trace);
      EffectStops(h, r, w, fuel, hooks[0], kind, route);
    } else {
      assert Quiet(hooks[0]);
      PlainHook(h, r, w, fuel, hooks[0], kind, route);
      var w1 := Emit(w, [Called(route, kind)]);
      assert ChainW(h, r, w, fuel, route, hooks, before) == ChainW(h, r, w1, fuel, route, hooks[1..], before);
      forall i | 0 <= i < k - 1 ensures Quiet(hooks[1..][i]) {
        assert hooks[1..][i] == hooks[i + 1];
      }
      assert hooks[1..][k - 1] == hooks[k];
      ChainStopsAt(h, r, w1, fuel, route, hooks[1..], before, k - 1);
      FilterCallsCons(route, hooks, k - 1, before);
      Assoc(w.trace, [Called(route, kind)], FilterCalls(route, hooks[1..][..k - 1], before));
    }
  }

  /** A before filter that redirects or cancels, after `k` quiet ones: the
      lifecycle ends with that filter's own step and never settles (or
      throws), so `enter`, `prepare`, `execute` and `error` are not run by
      this lifecycle and the filters after it are not called. */
  lemma BeforeFilterStops(h: History, r: Router, w: World, fuel: nat, route: Route, rd: RouteData, k: nat)
    requires Wf(h) && r in h.routers && route in h.routes && Fits(h, w)
    requires ExitQuiet(HandlerOf(PairOf(w, r).previous))
    requires k < |StageOf(r, route, true)| && (forall i :: 0 <= i < k ==> Quiet(StageOf(r, route, true)[i]))
    requires EffectOf(StageOf(r, route, true)[k]) != NoEffect
    ensures var hooks := StageOf(r, route, true);
      var prev := HandlerOf(PairOf(w, r).previous);
      var w1 := Emit(w, [RouteEvent(route, "before:execute"), RouterEvent(r, "before:execute")]);
      var f := RunHandlerW(h, r, Emit(Emit(w1, ExitCalls(prev)), FilterCalls(route, hooks[..k], true)), fuel,
                           hooks[k], BeforeFilter(hooks[k]), route);
      var s := LifecycleW(h, r, w, fuel, route, rd);
      (f.status.Threw? ==> s == f)
      && (!f.status.Threw? ==> s == Step(f.w, Settled(Unsettled)))
  {
    var hooks := StageOf(r, route, true);
    var prev := HandlerOf(PairOf(w, r).previous);
    var w1 := Emit(w, [RouteEvent(route, "before:execute"), RouterEvent(r, "before:execute")]);
    assert PairOf(w1, r) == PairOf(w, r);
    ExitStep(h, r, w, fuel, route, prev);
    ChainStopsAt(h, r, Emit(w1, ExitCalls(prev)), fuel, route, hooks, true, k);
  }

  /** A before filter returning `false` after `k` quiet ones: the route is
      cancelled, the records go back to the previous one, and the
      lifecycle never settles; nothing else is called. */
  lemma BeforeFilterCancels(h: History, r: Router, w: World, fuel: nat, route: Route, rd: RouteData, k: nat)
    requires Wf(h) && r in h.routers && route in h.routes && Fits(h, w)
    requires ExitQuiet(HandlerOf(PairOf(w, r).previous))
    requires k < |StageOf(r, route, true)| && (forall i :: 0 <= i < k ==> Quiet(StageOf(r, route, true)[i]))
    requires StageOf(r, route, true)[k] == Returns(Bool(false))
    ensures var hooks := StageOf(r, route, true);
      var p := PairOf(w, r);
      var back := Pair(p.previous, p.previous);
      var url := if p.previous.Some? then p.previous.value.url else "";
      var s := LifecycleW(h, r, w, fuel, route, rd);
      s.status == Settled(Unsettled) && s.w.pairs == w.pairs[r := back]
      && s.w.trace == w.trace + [RouteEvent(route, "before:execute"), RouterEvent(r, "before:execute")]
                      + ExitCalls(HandlerOf(p.previous)) + FilterCalls(route, hooks[..k], true)
                      + [Called(route, BeforeFilter(hooks[k]))]
                      + [RouteEvent(route, "before:cancel"), RouterEvent(r, "before:cancel")]
                      + (if Vetoed(r, back) then [] else [Navigated(url, false, true)])
                      + [RouteEvent(route, "after:cancel"), RouterEvent(r, "after:cancel")]
  {
    var hooks := StageOf(r, route, true);
    var prev := HandlerOf(PairOf(w, r).previous);
    var w1 := Emit(w, [RouteEvent(route, "before:execute"), RouterEvent(r, "before:execute")]);
    var w2 := Emit(Emit(w1, ExitCalls(prev)), FilterCalls(route, hooks[..k], true));
    assert PairOf(w2, r) == PairOf(w, r);
    BeforeFilterStops(h, r, w, fuel, route, rd, k);
    FalseHookCancels(h, r, w2, fuel, BeforeFilter(hooks[k]), route);
  }

  /** A before filter redirecting to a non-empty fragment after `k` quiet
      ones: the lifecycle never settles (or the navigation throws), and
      the filter's call is followed at once by a triggered navigation. */
  lemma BeforeFilterRedirects(h: History, r: Router, w: World, fuel: nat, route: Route, rd: RouteData, k: nat, f: string)
    requires Wf(h) && r in h.routers && route in h.routes && Fits(h, w)
    requires ExitQuiet(HandlerOf(PairOf(w, r).previous))
    requires k < |StageOf(r, route, true)| && (forall i :: 0 <= i < k ==> Quiet(StageOf(r, route, true)[i]))
    requires StageOf(r, route, true)[k] == RedirectTo(f) && f != "" && !Vetoed(r, PairOf(w, r))
    ensures var hooks := StageOf(r, route, true);
      var s := LifecycleW(h, r, w, fuel, route, rd);
      (s.status == Settled(Unsettled) || s.status.Threw?)
      && w.trace + [RouteEvent(route, "before:execute"), RouterEvent(r, "before:execute")]
         + ExitCalls(HandlerOf(PairOf(w, r).previous)) + FilterCalls(route, hooks[..k], true)
         + [Called(route, BeforeFilter(hooks[k]))] + [Navigated(f, true, false)] <= s.w.trace
  {
    var hooks := StageOf(r, route, true);
    var prev := HandlerOf(PairOf(w, r).previous);
    var w1 := Emit(w, [RouteEvent(route, "before:execute"), RouterEvent(r, "before:execute")]);
    var w2 := Emit(Emit(w1, ExitCalls(prev)), FilterCalls(route, hooks[..k], true));
    assert PairOf(w2, r) == PairOf(w, r);
    BeforeFilterStops(h, r, w, fuel, route, rd, k);
    RedirectNavigates(h, r, w2, fuel, f, BeforeFilter(hooks[k]), route);
  }

  /** Once another handler is current (a hook redirected), both branches
      after `prepare` do nothing more: `then` resolves and `fail` rejects,
      with the world unchanged. */
  lemma RedirectedAwaySkips(h: History, r: Router, w: World, fuel: nat, route: Route, rd: RouteData)
    requires Wf(h) && r in h.routers && route in h.routes && Fits(h, w)
    requires PairOf(w, r).current.Some? && PairOf(w, r).current.value.handler != RouteH(route)
    ensures ThenW(h, r, w, fuel, route, rd) == Step(w, Done)
    ensures FailW(h, r, w, fuel, route) == Step(w, Settled(Rejected))
  {
  }

  /** After `prepare` resolved, with `current` still on the route: execute,
      the route events of `done`, `after:execute` and the after filters. */
  lemma ThenInOrder(h: History, r: Router, w: World, fuel: nat, route: Route, rd: RouteData)
    requires Wf(h) && r in h.routers && route in h.routes && Fits(h, w)
    requires route.sub == null && EffectOf(route.hooks.execute) == NoEffect
    requires PairOf(w, r).current.Some? && PairOf(w, r).current.value.handler == RouteH(route)
    requires Plain(StageOf(r, route, false))
    ensures var name := PairOf(w, r).current.value.route;
      var after := StageOf(r, route, false);
      var s := ThenW(h, r, w, fuel, route, rd);
      s.status == Done && s.w.pairs == w.pairs && s.w.fragment == w.fragment
      && s.w.trace == w.trace + [Called(route, ExecuteHook)]
                      + [RouterEvent(r, "route:" + name), RouterEvent(r, "route"), HistoryRoute(r, name)]
                      + [RouteEvent(route, "after:execute"), RouterEvent(r, "after:execute")]
                      + FilterCalls(route, after[..Outcomes.Called(after)], false)
  {
    var name := PairOf(w, r).current.value.route;
    PlainHook(h, r, w, fuel, route.hooks.execute, ExecuteHook, route);
    var w1 := Emit(w, [Called(route, ExecuteHook)]);
    assert ExecuteStageW(h, r, w, fuel, route, rd).w == w1;
    assert PairOf(w1, r) == PairOf(w, r);
    var w2 := Emit(w1, [RouterEvent(r, "route:" + name), RouterEvent(r, "route"), HistoryRoute(r, name)]);
    assert DoneW(r, w1) == Step(w2, Done);
    var w3 := Emit(w2, [RouteEvent(route, "after:execute"), RouterEvent(r, "after:execute")]);
    StageRunsInOrder(h, r, w3, fuel, route, false);
  }

  /** After the before filters resolved: the previous Route's `exit`
      event, `enter`, a resolving `prepare`, then what `ThenInOrder` says. */
  lemma EnterInOrder(h: History, r: Router, w: World, fuel: nat, route: Route, rd: RouteData, prev: Option<HandlerRef>)
    requires Wf(h) && r in h.routers && route in h.routes && Fits(h, w)
    requires route.sub == null && Quiet(route.hooks.prepare) && EffectOf(route.hooks.execute) == NoEffect
    requires prev.Some? && HandlerTruthy(prev.value) ==> prev.value.RouteH?
    requires PairOf(w, r).current.Some? && PairOf(w, r).current.value.handler == RouteH(route)
    requires Plain(StageOf(r, route, false))
    ensures var name := PairOf(w, r).current.value.route;
      var after := StageOf(r, route, false);
      var s := EnterW(h, r, w, fuel, route, rd, prev);
      s.status == Done && s.w.pairs == w.pairs && s.w.fragment == w.fragment
      && s.w.trace == w.trace + (ExitEvents(prev) + [RouteEvent(route, "enter")]) + [Called(route, PrepareHook)]
                      + [Called(route, ExecuteHook)]
                      + [RouterEvent(r, "route:" + name), RouterEvent(r, "route"), HistoryRoute(r, name)]
                      + [RouteEvent(route, "after:execute"), RouterEvent(r, "after:execute")]
                      + FilterCalls(route, after[..Outcomes.Called(after)], false)
  {
    var w1 := Emit(w, ExitEvents(prev) + [RouteEvent(route, "enter")]);
    PlainHook(h, r, w1, fuel, route.hooks.prepare, PrepareHook, route);
    var w2 := Emit(w1, [Called(route, PrepareHook)]);
    assert PairOf(w2, r) == PairOf(w, r);
    ThenInOrder(h, r, w2, fuel, route, rd);
  }

  /** The lifecycle of a route whose hooks and filters neither redirect nor
      cancel, and whose `exit`, before filters and `prepare` resolve: the
      previous Route exits, the before filters run, then `enter`, `prepare`,
      `execute`, the route events of `done`, `after:execute` and the after
      filters follow in this order, and no record changes. */
  lemma LifecycleInOrder(h: History, r: Router, w: World, fuel: nat, route: Route, rd: RouteData)
    requires Wf(h) && r in h.routers && route in h.routes && Fits(h, w)
    requires route.sub == null
    requires PairOf(w, r).current.Some? && PairOf(w, r).current.value.handler == RouteH(route)
    requires var prev := HandlerOf(PairOf(w, r).previous);
      ExitQuiet(prev) && (prev.Some? && HandlerTruthy(prev.value) ==> prev.value.RouteH?)
    requires Plain(StageOf(r, route, true)) && AllResolve(StageOf(r, route, true))
    requires Quiet(route.hooks.prepare) && EffectOf(route.hooks.execute) == NoEffect
    requires Plain(StageOf(r, route, false))
    ensures var prev := HandlerOf(PairOf(w, r).previous);
      var name := PairOf(w, r).current.value.route;
      var after := StageOf(r, route, false);
      var s := LifecycleW(h, r, w, fuel, route, rd);
      s.status == Done && s.w.pairs == w.pairs && s.w.fragment == w.fragment
      && s.w.trace == w.trace + [RouteEvent(route, "before:execute"), RouterEvent(r, "before:execute")]
                      + ExitCalls(prev) + FilterCalls(route, StageOf(r, route, true), true)
                      + (ExitEvents(prev) + [RouteEvent(route, "enter")]) + [Called(route, PrepareHook)]
                      + [Called(route, ExecuteHook)]
                      + [RouterEvent(r, "route:" + name), RouterEvent(r, "route"), HistoryRoute(r, name)]
                      + [RouteEvent(route, "after:execute"), RouterEvent(r, "after:execute")]
                      + FilterCalls(route, after[..Outcomes.Called(after)], false)
  {
    var prev := HandlerOf(PairOf(w, r).previous);
    var before := StageOf(r, route, true);
    var w1 := Emit(w, [RouteEvent(route, "before:execute"), RouterEvent(r, "before:execute")]);
    assert PairOf(w1, r) == PairOf(w, r);
    ExitStep(h, r, w, fuel, route, prev);
    var w2 := Emit(w1, ExitCalls(prev));
    ChainStops(before);
    assert before[..Outcomes.Called(before)] == before;
    StageRunsInOrder(h, r, w2, fuel, route, true);
    var w3 := Emit(w2, FilterCalls(route, before, true));
    assert PairOf(w3, r) == PairOf(w, r);
    EnterInOrder(h, r, w3, fuel, route, rd, prev);
  }

  /** A `prepare` that fails without effect, while `current` still holds the
      route: the route is cancelled, `error` is called, and the router emits
      `error` unless `error` returned exactly `true`; the lifecycle rejects. */
  lemma PrepareFailureCancels(h: History, r: Router, w: World, fuel: nat, route: Route, rd: RouteData,
                              prev: Option<HandlerRef>)
    requires Wf(h) && r in h.routers && route in h.routes && Fits(h, w)
    requires prev.Some? && HandlerTruthy(prev.value) ==> prev.value.RouteH?
    requires PairOf(w, r).current.None? || PairOf(w, r).current.value.handler == RouteH(route)
    requires EffectOf(route.hooks.prepare) == NoEffect && SettleOf(route.hooks.prepare) == Rejected
    requires EffectOf(route.hooks.error) == NoEffect
    ensures var p := PairOf(w, r);
      var back := Pair(p.previous, p.previous);
      var url := if p.previous.Some? then p.previous.value.url else "";
      var s := EnterW(h, r, w, fuel, route, rd, prev);
      s.status == Settled(Rejected)
      && s.w.pairs == w.pairs[r := back]
      && s.w.trace == w.trace + (ExitEvents(prev) + [RouteEvent(route, "enter")]) + [Called(route, PrepareHook)]
                      + [RouteEvent(route, "before:cancel"), RouterEvent(r, "before:cancel")]
                      + (if Vetoed(r, back) then [] else [Navigated(url, false, true)])
                      + [RouteEvent(route, "after:cancel"), RouterEvent(r, "after:cancel")]
                      + [Called(route, ErrorHook)]
                      + (if route.hooks.error == Returns(Bool(true)) then [] else [RouterEvent(r, "error")])
  {
    var w1 := Emit(w, ExitEvents(prev) + [RouteEvent(route, "enter")]);
    PlainHook(h, r, w1, fuel, route.hooks.prepare, PrepareHook, route);
    var w2 := Emit(w1, [Called(route, PrepareHook)]);
    assert PairOf(w2, r) == PairOf(w, r);
    CancelReverts(h, r, w2, fuel, route);
    var s1 := CancelRouteW(h, r, w2, fuel, RouteH(route));
    PlainHook(h, r, s1.w, fuel, route.hooks.error, ErrorHook, route);
    var w3 := Emit(s1.w, [Called(route, ErrorHook)]);
    assert FailW(h, r, w2, fuel, route)
           == Step(if route.hooks.error == Returns(Bool(true)) then w3 else Emit(w3, [RouterEvent(r, "error")]),
                   Settled(Rejected));
    if route.hooks.error == Returns(Bool(true)) {
      EmptyAppend(w3.trace);
    }
  }

  // -------------------------------------------------------------------
  // handleRoute

  /** `handleRoute` commits the new record as `current` and the old
      `current` as `previous` before dispatching; a method handler is
      called (when the router has it) and `done` emits the route events,
      while any other handler that is not a Route throws. */
  lemma HandleRouteCommits(h: History, r: Router, w: World, fuel: nat, rd: RouteData)
    requires Wf(h) && r in h.routers && Fits(h, w)
    requires !rd.handler.RouteH?
    ensures var rec := RecordOf(r, r.handlers, rd);
      var s := HandleRouteW(h, r, w, fuel, rd);
      s.w.pairs == w.pairs[r := Pair(Some(rec), PairOf(w, r).current)]
      && s.w.fragment == w.fragment
      && (rd.handler.MethodH? && rd.handler.name in r.cfg.methods ==>
            s == Step(Emit(s.w, []).(trace := w.trace + [Invoked(r, rd.handler.name),
                     RouterEvent(r, "route:" + rec.route), RouterEvent(r, "route"), HistoryRoute(r, rec.route)]), Done))
      && (rd.handler.MethodH? && rd.handler.name !in r.cfg.methods ==> s.status == Done && s.w.trace == w.trace)
      && (rd.handler.OtherH? ==> s.status == Threw("Incorrectly configured route") && s.w.trace == w.trace)
  {
  }

  /** The record names the route as registered: a name that is not a
      string becomes `''`, and so does a missing template. */
  lemma RecordNames(r: Router, hs: seq<Entry<HandlerRef>>, rd: RouteData)
    ensures var rec := RecordOf(r, hs, rd);
      rec.handler == rd.handler && rec.params == rd.params && rec.parameters == rd.parameters
      && (rd.name.None? ==> rec.name == "") && (rd.name.Some? ==> rec.name == rd.name.value)
      && (rd.route.None? ==> rec.route == "")
  {
  }

  /** A stopped router handles nothing: it emits `route:unhandled`, and
      cancels when the entry's handler is truthy, so no new record is
      committed. */
  lemma StoppedRouterCancels(h: History, r: Router, w: World, fuel: nat, i: nat, fragment: string)
    requires Wf(h) && r in h.routers && Fits(h, w)
    requires i < |r.handlers| && r.scan(r.handlers[i].pattern, fragment).Some?
    requires r.stopped
    ensures var hr := r.handlers[i].handler;
      var p := PairOf(w, r);
      var s := CallbackW(h, r, w, fuel, i, fragment);
      s.w.trace[..|w.trace| + 1] == w.trace + [RouterEvent(r, "route:unhandled")]
      && (!HandlerTruthy(hr) ==> s == Step(Emit(w, [RouterEvent(r, "route:unhandled")]), Done))
      && (hr.RouteH? ==> s.status == Done && s.w.pairs == w.pairs[r := Pair(p.previous, p.previous)])
      && (HandlerTruthy(hr) && !hr.RouteH? ==> s.status == Threw("TypeError"))
  {
    var w1 := Emit(w, [RouterEvent(r, "route:unhandled")]);
    assert PairOf(w1, r) == PairOf(w, r);
    var hr := r.handlers[i].handler;
    if hr.RouteH? {
      CancelReverts(h, r, w1, fuel, hr.route);
    }
    var s := CallbackW(h, r, w, fuel, i, fragment);
    assert w1.trace <= s.w.trace;
  }

  // -------------------------------------------------------------------
  // Choosing the entry

  /** `loadUrl` stores the fragment, then calls the callback of the newest
      entry that accepts it, and does nothing more when none does. */
  lemma LoadPicksNewest(h: History, w: World, fuel: nat, fragment: string)
    requires Wf(h) && Fits(h, w)
    ensures (forall k :: 0 <= k < |h.entries| ==> !Accepts(h.entries[k], fragment))
            ==> LoadW(h, w, fuel, fragment) == Step(w.(fragment := fragment), Done)
    ensures forall k :: (0 <= k < |h.entries| && Accepts(h.entries[k], fragment)
                         && (forall j :: 0 <= j < k ==> !Accepts(h.entries[j], fragment))
                         ==> LoadW(h, w, fuel, fragment)
                             == CallbackW(h, h.entries[k].0, w.(fragment := fragment), fuel, h.entries[k].1, fragment))
  {
    var m := HistoryMatch(h, fragment, 0);
    HistoryMatchFirst(h, fragment, 0);
    forall k | 0 <= k < |h.entries| && Accepts(h.entries[k], fragment)
               && (forall j :: 0 <= j < k ==> !Accepts(h.entries[j], fragment))
      ensures LoadW(h, w, fuel, fragment)
              == CallbackW(h, h.entries[k].0, w.(fragment := fragment), fuel, h.entries[k].1, fragment)
    {
      assert m == Some(k);
    }
  }

  /** `executeUrl` calls the callback of the first entry, in registration
      order, that accepts the fragment, and does nothing when none does. */
  lemma ExecuteUrlPicksFirst(h: History, r: Router, w: World, fuel: nat, fragment: string)
    requires Wf(h) && r in h.routers && Fits(h, w)
    ensures (forall i :: 0 <= i < |r.handlers| ==> r.scan(r.handlers[i].pattern, fragment).None?)
            ==> ExecuteUrlW(h, r, w, fuel, fragment) == Step(w, Done)
    ensures forall i :: (0 <= i < |r.handlers| && r.scan(r.handlers[i].pattern, fragment).Some?
                         && (forall j :: 0 <= j < i ==> r.scan(r.handlers[j].pattern, fragment).None?)
                         ==> ExecuteUrlW(h, r, w, fuel, fragment) == CallbackW(h, r, w, fuel, i, fragment))
  {
    var m := FirstMatch(r.handlers, r.scan, fragment, 0);
    FirstMatchFirst(r.handlers, r.scan, fragment, 0);
    forall i | 0 <= i < |r.handlers| && r.scan(r.handlers[i].pattern, fragment).Some?
               && (forall j :: 0 <= j < i ==> r.scan(r.handlers[j].pattern, fragment).None?)
      ensures ExecuteUrlW(h, r, w, fuel, fragment) == CallbackW(h, r, w, fuel, i, fragment)
    {
      assert m == Some(i);
    }
  }

  /** A section's execute stage is the sub-router's `executeUrl` on the
      section path, after the route's own execute event. */
  lemma SectionStage(h: History, r: Router, w: World, fuel: nat, route: Route, rd: RouteData)
    requires Wf(h) && r in h.routers && route in h.routes && Fits(h, w)
    requires route.sub != null && fuel > 0
    ensures route.sub in h.routers && Fits(h, Emit(w, [Called(route, ExecuteHook)]))
    ensures var u := ExecuteUrlW(h, route.sub, Emit(w, [Called(route, ExecuteHook)]), fuel - 1, SectionPath(rd));
            ExecuteStageW(h, r, w, fuel, route, rd) == if u.status.Threw? then u else Step(u.w, Done)
  {
  }

  /** A Section's execute hands `parameters.path` (or `''`) to its own
      router's `executeUrl`: the first of that router's entries accepting
      it has its callback run, and a path none accepts only records the
      call. The stage resolves whatever the callback settles to, unless it
      throws. */
  lemma SectionDelegates(h: History, r: Router, w: World, fuel: nat, route: Route, rd: RouteData)
    requires Wf(h) && r in h.routers && route in h.routes && Fits(h, w)
    requires route.sub != null && fuel > 0
    ensures var sub := route.sub;
      var f := SectionPath(rd);
      var w1 := Emit(w, [Called(route, ExecuteHook)]);
      var s := ExecuteStageW(h, r, w, fuel, route, rd);
      ((forall i :: 0 <= i < |sub.handlers| ==> sub.scan(sub.handlers[i].pattern, f).None?) ==> s == Step(w1, Done))
      && (forall i :: (0 <= i < |sub.handlers| && sub.scan(sub.handlers[i].pattern, f).Some?
                       && (forall j :: 0 <= j < i ==> sub.scan(sub.handlers[j].pattern, f).None?))
                      ==> s == (var c := CallbackW(h, sub, w1, fuel - 1, i, f);
                                if c.status.Threw? then c else Step(c.w, Done)))
  {
    SectionStage(h, r, w, fuel, route, rd);
    var w1 := Emit(w, [Called(route, ExecuteHook)]);
    ExecuteUrlPicksFirst(h, route.sub, w1, fuel - 1, SectionPath(rd));
  }

}
