/**
 * What the earlier router's `handleRoute` and `_handleBlazerRoute` do, as
 * lemmas over the step functions of `LegacyBlazer`: which hooks run in
 * which order, what a redirect does, what happens when a filter or
 * `prepare` fails, and which callback the history picks.
 */
module LegacyLifecycle {
  import opened SeqFacts
  import opened JsValues
  import opened Outcomes
  import opened LegacyUrl
  import opened LegacyBlazer
  import U = UrlTemplate

  // -------------------------------------------------------------------
  // One hook

  /** A hook that does not redirect is called and settles as its result. */
  lemma PlainHook(r: Router, w: World, fuel: nat, hook: Hook, kind: HookKind, route: Route)
    requires !Redirects(hook)
    ensures RunHandlerW(r, w, fuel, hook, kind, route) == Step(Emit(w, [HookCalled(route, kind)]), Settled(LegacySettle(hook)))
  {
  }

  /** A redirect marker navigates to its fragment with `trigger`, and the
      hook's promise rejects unless the navigation threw. */
  lemma RedirectRejects(r: Router, w: World, fuel: nat, hook: Hook, kind: HookKind, route: Route)
    requires Redirects(hook)
    ensures var s := RunHandlerW(r, w, fuel, hook, kind, route);
      (s.status == Settled(Rejected) || s.status.Threw?)
      && w.trace + [HookCalled(route, kind)] + [Navigated(hook.fragment, true)] <= s.w.trace
  {
    var w1 := Emit(w, [HookCalled(route, kind)]);
    var w2 := Emit(w1, [Navigated(hook.fragment, true)]);
    var n := NavigateW(r, w1, fuel, hook.fragment, true);
    if w2.fragment != hook.fragment && fuel > 0 {
      assert n == LoadW(r, w2.(fragment := hook.fragment), fuel - 1, hook.fragment);
    }
    assert w2.trace <= n.w.trace;
  }

  /** Navigating to the fragment the history holds only records the call. */
  lemma NavigateToSameFragment(r: Router, w: World, fuel: nat, trigger: bool)
    ensures NavigateW(r, w, fuel, w.fragment, trigger) == Step(Emit(w, [Navigated(w.fragment, trigger)]), Done)
  {
  }

  // -------------------------------------------------------------------
  // Filter chains

  /** The calls a chain of filters records, one per hook. */
  function FilterCalls(route: Route, hooks: seq<Hook>, before: bool): (es: seq<Event>)
    ensures |es| == |hooks|
  {
    if hooks == [] then []
    else [HookCalled(route, if before then BeforeFilter(hooks[0]) else AfterFilter(hooks[0]))]
         + FilterCalls(route, hooks[1..], before)
  }

  lemma FilterCallsCons(route: Route, hooks: seq<Hook>, c: nat, before: bool)
    requires c < |hooks|
    ensures FilterCalls(route, hooks[..c + 1], before)
            == [HookCalled(route, if before then BeforeFilter(hooks[0]) else AfterFilter(hooks[0]))]
               + FilterCalls(route, hooks[1..][..c], before)
  {
    assert hooks[..c + 1][1..] == hooks[1..][..c];
  }

  /** No hook of the list redirects. */
  predicate Plain(hooks: seq<Hook>) {
    forall i :: 0 <= i < |hooks| ==> !Redirects(hooks[i])
  }

  lemma PlainTail(hooks: seq<Hook>)
    requires hooks != [] && Plain(hooks)
    ensures Plain(hooks[1..])
  {
    forall i | 0 <= i < |hooks[1..]| ensures !Redirects(hooks[1..][i]) {
      assert hooks[1..][i] == hooks[i + 1];
    }
  }

  /** A chain of hooks that do not redirect calls them in order, each once
      the one before it resolved, and ends as the first that does not. */
  lemma {:induction false} ChainRunsInOrder(r: Router, w: World, fuel: nat, route: Route, hooks: seq<Hook>, before: bool)
    requires Plain(hooks)
    ensures ChainW(r, w, fuel, route, hooks, before)
            == Step(Emit(w, FilterCalls(route, hooks[..Runs(hooks)], before)), Settled(ChainEnd(hooks)))
    decreases |hooks|
  {
    if hooks == [] {
      assert hooks[..0] == [];
    } else {
      var kind := if before then BeforeFilter(hooks[0]) else AfterFilter(hooks[0]);
      PlainHook(r, w, fuel, hooks[0], kind, route);
      var w1 := Emit(w, [HookCalled(route, kind)]);
      if LegacySettle(hooks[0]) == Resolved {
        PlainTail(hooks);
        ChainRunsInOrder(r, w1, fuel, route, hooks[1..], before);
        var c := Runs(hooks[1..]);
        FilterCallsCons(route, hooks, c, before);
        Assoc(w.trace, [HookCalled(route, kind)], FilterCalls(route, hooks[1..][..c], before));
      } else {
        FilterCallsCons(route, hooks, 0, before);
        assert hooks[1..][..0] == [];
      }
    }
  }

  /** `_runFilters` over hooks that do not redirect: the router's filters,
      then the route's, are called in order; the stage resolves when every
      hook resolved and otherwise never settles. */
  lemma StageRunsInOrder(r: Router, w: World, fuel: nat, route: Route, before: bool)
    requires Plain(StageOf(r, route, before))
    ensures var hooks := StageOf(r, route, before);
      StageW(r, w, fuel, route, before)
      == Step(Emit(w, FilterCalls(route, hooks[..Runs(hooks)], before)),
              Settled(if ChainEnd(hooks) == Resolved then Resolved else Unsettled))
  {
    ChainRunsInOrder(r, w, fuel, route, StageOf(r, route, before), before);
  }

  // -------------------------------------------------------------------
  // The lifecycle

  /** A before stage that does not resolve stops the route where it is:
      `prepare`, `execute` and `error` are never called, the current
      handler, route and url stay, and the lifecycle never settles. */
  lemma BeforeFiltersStall(r: Router, w: World, fuel: nat, route: Route)
    requires Plain(StageOf(r, route, true)) && ChainEnd(StageOf(r, route, true)) != Resolved
    ensures var hooks := StageOf(r, route, true);
      var s := LifecycleW(r, w, fuel, route);
      s.status == Settled(Unsettled) && s.w.current == w.current && s.w.fragment == w.fragment
      && s.w.trace == w.trace + [RouteEvent(route, "before:execute"), RouterEvent("before:execute")]
                      + FilterCalls(route, hooks[..Runs(hooks)], true)
  {
    var w1 := Emit(w, [RouteEvent(route, "before:execute"), RouterEvent("before:execute")]);
    StageRunsInOrder(r, w1, fuel, route, true);
  }

  /** After `prepare` resolved, with the current handler still this route:
      `execute`, `after:execute` and the after filters, whatever `execute`
      and the after filters answer. */
  lemma ThenInOrder(r: Router, w: World, fuel: nat, route: Route)
    requires w.current.handler == Some(RouteH(route))
    requires !Redirects(route.hooks.execute) && Plain(StageOf(r, route, false))
    ensures var after := StageOf(r, route, false);
      var s := ThenW(r, w, fuel, route);
      s.status == Done && s.w.current == w.current && s.w.fragment == w.fragment
      && s.w.trace == w.trace + [HookCalled(route, ExecuteHook)]
                      + [RouteEvent(route, "after:execute"), RouterEvent("after:execute")]
                      + FilterCalls(route, after[..Runs(after)], false)
  {
    PlainHook(r, w, fuel, route.hooks.execute, ExecuteHook, route);
    var w1 := Emit(w, [HookCalled(route, ExecuteHook)]);
    var w2 := Emit(w1, [RouteEvent(route, "after:execute"), RouterEvent("after:execute")]);
    StageRunsInOrder(r, w2, fuel, route, false);
  }

  /** The lifecycle of a route whose hooks and filters do not redirect,
      whose before filters and `prepare` resolve, and which is the current
      handler: `before:execute`, the before filters, `prepare`, `execute`,
      `after:execute` and the after filters follow in this order, and the
      current handler, route, url and the fragment stay. */
  lemma LifecycleInOrder(r: Router, w: World, fuel: nat, route: Route)
    requires w.current.handler == Some(RouteH(route))
    requires Plain(StageOf(r, route, true)) && ChainEnd(StageOf(r, route, true)) == Resolved
    requires !Redirects(route.hooks.prepare) && LegacySettle(route.hooks.prepare) == Resolved
    requires !Redirects(route.hooks.execute) && Plain(StageOf(r, route, false))
    ensures var after := StageOf(r, route, false);
      var s := LifecycleW(r, w, fuel, route);
      s.status == Done && s.w.current == w.current && s.w.fragment == w.fragment
      && s.w.trace == w.trace + [RouteEvent(route, "before:execute"), RouterEvent("before:execute")]
                      + FilterCalls(route, StageOf(r, route, true), true)
                      + [HookCalled(route, PrepareHook)]
                      + [HookCalled(route, ExecuteHook)]
                      + [RouteEvent(route, "after:execute"), RouterEvent("after:execute")]
                      + FilterCalls(route, after[..Runs(after)], false)
  {
    var before := StageOf(r, route, true);
    var w1 := Emit(w, [RouteEvent(route, "before:execute"), RouterEvent("before:execute")]);
    ChainEndStops(before);
    assert before[..Runs(before)] == before;
    StageRunsInOrder(r, w1, fuel, route, true);
    var w2 := Emit(w1, FilterCalls(route, before, true));
    PlainHook(r, w2, fuel, route.hooks.prepare, PrepareHook, route);
    var w3 := Emit(w2, [HookCalled(route, PrepareHook)]);
    ThenInOrder(r, w3, fuel, route);
  }

  /** A `prepare` that rejects without redirecting, while this route is
      still the current handler: `error` is called, and the router emits
      `error` unless `error` returned exactly `true`. Nothing is cancelled:
      the current handler, route and url and the fragment stay. */
  lemma PrepareFailureReportsError(r: Router, w: World, fuel: nat, route: Route)
    requires w.current.handler == Some(RouteH(route))
    requires Plain(StageOf(r, route, true)) && ChainEnd(StageOf(r, route, true)) == Resolved
    requires !Redirects(route.hooks.prepare) && LegacySettle(route.hooks.prepare) == Rejected
    requires !Redirects(route.hooks.error)
    ensures var s := LifecycleW(r, w, fuel, route);
      s.status == Done && s.w.current == w.current && s.w.fragment == w.fragment
      && s.w.trace == w.trace + [RouteEvent(route, "before:execute"), RouterEvent("before:execute")]
                      + FilterCalls(route, StageOf(r, route, true), true)
                      + [HookCalled(route, PrepareHook)]
                      + [HookCalled(route, ErrorHook)]
                      + (if route.hooks.error == Returns(Bool(true)) then [] else [RouterEvent("error")])
  {
    var before := StageOf(r, route, true);
    var w1 := Emit(w, [RouteEvent(route, "before:execute"), RouterEvent("before:execute")]);
    ChainEndStops(before);
    assert before[..Runs(before)] == before;
    StageRunsInOrder(r, w1, fuel, route, true);
    var w2 := Emit(w1, FilterCalls(route, before, true));
    PlainHook(r, w2, fuel, route.hooks.prepare, PrepareHook, route);
    var w3 := Emit(w2, [HookCalled(route, PrepareHook)]);
    PlainHook(r, w3, fuel, route.hooks.error, ErrorHook, route);
    var w4 := Emit(w3, [HookCalled(route, ErrorHook)]);
    if route.hooks.error == Returns(Bool(true)) {
      EmptyAppend(w4.trace);
    }
  }

  /** Once the current handler is another one (a redirect was handled),
      both branches after `prepare` do nothing. */
  lemma RedirectedAwaySkips(r: Router, w: World, fuel: nat, route: Route)
    requires w.current.handler != Some(RouteH(route))
    ensures ThenW(r, w, fuel, route) == Step(w, Done)
    ensures FailW(r, w, fuel, route) == Step(w, Done)
  {
  }

  // -------------------------------------------------------------------
  // handleRoute and the history

  /** `handleRoute` records the handler, the route name and the url built
      from the captures before it dispatches: a router method by name (when
      there is one), a function, a Route's lifecycle, or an exception for
      anything else. */
  lemma HandleRouteDispatch(r: Router, w: World, fuel: nat, data: RouteData, params: seq<Val>)
    ensures var c := CurrentFor(r, data, params);
      var s := HandleRouteW(r, w, fuel, data, params);
      var w1 := w.(current := c);
      c.handler == Some(data.handler) && c.route == data.name
      && (data.name.Some? ==> c.url == r.Get(data.name.value, Some(U.List(params))))
      && (data.name.None? ==> c.url.None?)
      && (data.handler.MethodName? ==>
            s == Step(if data.handler.name in r.methods then Emit(w1, [MethodCalled(data.handler.name, params)]) else w1, Done))
      && (data.handler.Fn? ==> s == Step(Emit(w1, [FnCalled(data.handler.id)]), Done))
      && (data.handler.RouteH? ==> s == LifecycleW(r, w1, fuel, data.handler.route))
      && (data.handler.NotHandler? ==> s == Step(w1, Threw(Misconfigured)))
  {
  }

  /** The current url of a named route is its template with the captures
      filled in by position, for every marker name the array of captures
      does not answer itself (`length` and the built-in array members). */
  lemma CurrentUrlFromCaptures(r: Router, data: RouteData, params: seq<Val>)
    requires data.name.Some? && data.name.value in r.namedRoutes
    requires forall k :: k in MarkerKeys(Parse(r.namedRoutes[data.name.value])) ==> U.OrdinaryKey(k)
    ensures var t := r.namedRoutes[data.name.value];
      CurrentFor(r, data, params).url == Some(Subst(Parse(t), ShownFrom(params, 0, MarkerCount(Parse(t)))))
  {
    UrlPositional(r.namedRoutes[data.name.value], params);
  }

  /** The history runs the callback of the first entry that accepts the
      fragment; entries are newest first, so the latest registration wins. */
  lemma LoadPicksNewest(r: Router, w: World, fuel: nat, fragment: string, k: nat)
    requires k < |r.entries| && r.scan(r.entries[k].pattern, fragment).Some?
    requires forall j :: 0 <= j < k ==> r.scan(r.entries[j].pattern, fragment).None?
    ensures LoadW(r, w, fuel, fragment)
            == HandleRouteW(r, w.(fragment := fragment), fuel, r.entries[k].data, r.scan(r.entries[k].pattern, fragment).value)
  {
    var m := FirstEntry(r.entries, r.scan, fragment, 0);
    assert m == Some(k) by {
      if m.None? {
        assert r.scan(r.entries[k].pattern, fragment).None?;
      } else if m.value < k {
      } else if m.value > k {
      }
    }
  }

  /** A fragment no entry accepts changes nothing but the stored fragment. */
  lemma LoadNothing(r: Router, w: World, fuel: nat, fragment: string)
    requires forall j :: 0 <= j < |r.entries| ==> r.scan(r.entries[j].pattern, fragment).None?
    ensures LoadW(r, w, fuel, fragment) == Step(w.(fragment := fragment), Done)
  {
  }
}
