/**
 * The earlier `Backbone.Blazer` (backbone.blazer.js): a Route with filters,
 * and a Router whose `route` records named templates and Route handlers,
 * whose `get`, `navigateTo` and `matchesUrl` are built on its `url`, and
 * whose `handleRoute` records the current handler, route name and url and
 * then dispatches: to a router method, to a function, or through a Route's
 * lifecycle (before filters, `prepare`, `execute`, after filters, and
 * `error` on failure). There is no cancel and no `exit` hook, and a hook
 * that returns `false` is not special.
 *
 * As for the current router, a navigation is computed on a value (`World`:
 * the current handler, route and url, the history's fragment and a trace
 * of what happened) and then committed to the router's fields.
 */
module LegacyBlazer {
  import opened SeqFacts
  import opened JsValues
  import opened Outcomes
  import opened LegacyUrl
  import U = UrlTemplate
  import Registry

  /** The lifecycle hooks of a Route, each as the result it gives. */
  datatype Hooks = Hooks(prepare: Hook, execute: Hook, error: Hook)

  /** The prototype's hooks, which return nothing. */
  const DefaultHooks := Hooks(Returns(Undef), Returns(Undef), Returns(Undef))

  /** Which hook of a route was called. */
  datatype HookKind = PrepareHook | ExecuteHook | ErrorHook | BeforeFilter(h: Hook) | AfterFilter(h: Hook)

  /** The `config` of a route: the name of a router method, a Route, a
      function, or anything else. */
  datatype Handler = MethodName(name: string) | RouteH(route: Route) | Fn(id: nat) | NotHandler

  /** The template of a route: a string, or a regular expression. */
  datatype Template = Path(t: string) | RegExp(id: nat)

  /** The `routeData` a callback passes to `handleRoute`; `name` (with the
      `url` function bound to it) is set only for a named string route. */
  datatype RouteData = RouteData(handler: Handler, name: Option<string>)

  /** A callback registered with the history, for a template. */
  datatype Entry = Entry(pattern: Template, data: RouteData)

  /** `currentHandler`, `currentRoute`, `currentUrl` (`None`: not a string,
      or not set yet). */
  datatype Current = Current(handler: Option<Handler>, route: Option<string>, url: Option<string>)

  /** What the trace records. */
  datatype Event =
    | HookCalled(route: Route, kind: HookKind)
    | RouteEvent(route: Route, name: string)
    | RouterEvent(name: string)
    | MethodCalled(name: string, params: seq<Val>)
    | FnCalled(id: nat)
    | Navigated(fragment: string, trigger: bool)

  datatype World = World(current: Current, fragment: string, trace: seq<Event>)

  /** How a step ends: with the settling of the promise it answers with, or
      with an exception. */
  datatype Status = Settled(settle: Settle) | Threw(message: string)

  datatype Step = Step(w: World, status: Status)

  const Done := Settled(Resolved)
  const TooDeep := "too much recursion"
  const Misconfigured := "Incorrectly configured route"

  function Emit(w: World, es: seq<Event>): World {
    w.(trace := w.trace + es)
  }

  // -------------------------------------------------------------------
  // Hook results

  /** A result whose `redirectFragment` is truthy. */
  predicate Redirects(h: Hook) {
    h.RedirectTo? && h.fragment != ""
  }

  /** How the promise `_runHandler` answers with ends: rejected after a
      redirect, otherwise as `$.when(result)`. */
  function LegacySettle(h: Hook): (s: Settle)
    ensures s == Rejected <==> Redirects(h) || (h.Promise? && h.state.Rejects?)
    ensures s == Unsettled <==> h == Promise(Stays)
  {
    if Redirects(h) then Rejected
    else match h
      case Promise(st) => (match st case Fulfils => Resolved case Rejects(_) => Rejected case Stays => Unsettled)
      case _ => Resolved
  }

  /** `false` passes through and resolves here, where the current router
      cancels and rejects. */
  lemma FalseIsNotSpecial()
    ensures LegacySettle(Returns(Bool(false))) == Resolved
    ensures SettleOf(Returns(Bool(false))) == Rejected
  {
  }

  /** The number of hooks a chain calls: each after the one before resolved. */
  function Runs(hs: seq<Hook>): (n: nat)
    ensures n <= |hs|
  {
    if hs == [] then 0
    else if LegacySettle(hs[0]) == Resolved then 1 + Runs(hs[1..])
    else 1
  }

  /** How a chain ends: as its first hook that does not resolve. */
  function ChainEnd(hs: seq<Hook>): Settle {
    if hs == [] then Resolved
    else if LegacySettle(hs[0]) == Resolved then ChainEnd(hs[1..])
    else LegacySettle(hs[0])
  }

  /** A chain resolves exactly when every hook resolves, and then all of
      them are called; otherwise it stops at the first that does not. */
  lemma {:induction false} ChainEndStops(hs: seq<Hook>)
    ensures ChainEnd(hs) == Resolved <==> forall i :: 0 <= i < |hs| ==> LegacySettle(hs[i]) == Resolved
    ensures ChainEnd(hs) == Resolved ==> Runs(hs) == |hs|
    ensures ChainEnd(hs) != Resolved ==>
              0 < Runs(hs) && LegacySettle(hs[Runs(hs) - 1]) == ChainEnd(hs)
              && forall i :: 0 <= i < Runs(hs) - 1 ==> LegacySettle(hs[i]) == Resolved
  {
    if hs != [] {
      ChainEndStops(hs[1..]);
      assert forall i :: 1 <= i < |hs| ==> hs[1..][i - 1] == hs[i];
    }
  }

  // -------------------------------------------------------------------
  // Names and lookups

  /** The implicit name: the template lower-cased, with each `/` or `/:`
      turned into `-`; a `*` stays. */
  function LegacyName(t: string): string {
    Lower(Registry.Dashes(t, false))
  }

  /** A splat keeps its star in the earlier version's name and loses it in
      the current one's: a slash and star become `-*` here and `-` there. */
  lemma SplatNames(a: string, b: string)
    requires '/' !in a
    ensures Registry.Dashes(a + "/*" + b, false) == a + "-*" + Registry.Dashes(b, false)
    ensures Registry.Dashes(a + "/*" + b, true) == a + "-" + Registry.Dashes(b, true)
  {
    Assoc(a, "/*", b);
    Registry.DashesPlain(a, "/*" + b, false);
    Registry.DashesPlain(a, "/*" + b, true);
    assert ("/*" + b)[2..] == b && ("/*" + b)[1..] == "*" + b;
    assert ("*" + b)[1..] == b;
    Assoc(a, "-*", Registry.Dashes(b, false));
    Assoc(a, "-", Registry.Dashes(b, true));
  }

  /** The arguments of `route`: with fewer than three, `(template, config)`. */
  datatype RouteCall = Two(template: Template, config: Handler) | Three(name: Option<string>, template: Template, config: Handler)

  /** The route name `route` works with: the explicit one, or the name
      derived from a string template (`null` for a regular expression). */
  function NameOf(call: RouteCall): (n: Option<string>)
    ensures call.Two? ==> (n.Some? <==> call.template.Path?)
    ensures call.Two? && call.template.Path? ==> n == Some(LegacyName(call.template.t))
    ensures call.Three? ==> n == call.name
  {
    match call
    case Two(t, _) => if t.Path? then Some(LegacyName(t.t)) else None
    case Three(n, _, _) => n
  }

  /** `!_.isEmpty(routeName)` for a string or `null` name. */
  predicate Recorded(name: Option<string>) {
    name.Some? && name.value != ""
  }

  /** `matchesUrl`'s test: the current url is a string and `u` starts with it. */
  predicate PrefixMatch(currentUrl: Option<string>, u: string) {
    currentUrl.Some? && StartsWith(u, currentUrl.value)
  }

  /** The test is a prefix test, not equality: every extension of the
      current url matches, and an empty current url matches every url. */
  lemma PrefixMatchExtends(c: string, x: string)
    ensures PrefixMatch(Some(c), c + x)
    ensures PrefixMatch(Some(""), x)
    ensures !PrefixMatch(None, x)
    ensures x != "" ==> !Registry.MatchesUrl(Some(c), Str(c + x))
  {
    assert (c + x)[..|c|] == c;
    assert ""[..0] == "" && x[..0] == "";
    if x != "" {
      assert |c + x| != |c|;
    }
  }

  /** `u` matches exactly when it is the current url followed by something. */
  lemma PrefixMatchMeaning(currentUrl: Option<string>, u: string)
    ensures PrefixMatch(currentUrl, u) <==> currentUrl.Some? && exists x :: u == currentUrl.value + x
  {
    if currentUrl.Some? {
      var c := currentUrl.value;
      if StartsWith(u, c) {
        assert u == c + u[|c|..];
      }
      if exists x :: u == c + x {
        var x :| u == c + x;
        PrefixMatchExtends(c, x);
      }
    }
  }

  /** The first history entry, from `from` on, whose pattern accepts the
      fragment. */
  function FirstEntry(es: seq<Entry>, scan: (Template, string) -> Option<seq<Val>>, fragment: string, from: nat): (k: Option<nat>)
    ensures k.Some? ==> from <= k.value < |es| && scan(es[k.value].pattern, fragment).Some?
    ensures k.Some? ==> forall j :: from <= j < k.value ==> scan(es[j].pattern, fragment).None?
    ensures k.None? ==> forall j :: from <= j < |es| ==> scan(es[j].pattern, fragment).None?
    decreases |es| - from
  {
    if from >= |es| then None
    else if scan(es[from].pattern, fragment).Some? then Some(from)
    else FirstEntry(es, scan, fragment, from + 1)
  }

  // -------------------------------------------------------------------
  // Navigation, computed on a World

  /** The Routes the history entries hold. */
  function EntryRoutes(es: seq<Entry>): set<Route> {
    set i | 0 <= i < |es| && es[i].data.handler.RouteH? :: es[i].data.handler.route
  }

  /** The Route a route's data holds, if any. */
  function DataRoutes(d: RouteData): set<Route> {
    if d.handler.RouteH? then {d.handler.route} else {}
  }

  function View(r: Router): World
    reads r`currentHandler, r`currentRoute, r`currentUrl, r`fragment, r`trace
  {
    World(Current(r.currentHandler, r.currentRoute, r.currentUrl), r.fragment, r.trace)
  }

  /** `router.navigate(fragment, {trigger})`, which goes to the history:
      nothing happens for the fragment it already holds; otherwise it is
      stored and, with `trigger`, loaded. */
  function NavigateW(r: Router, w: World, fuel: nat, fragment: string, trigger: bool): (s: Step)
    reads r`namedRoutes, r`entries, EntryRoutes(r.entries)`filters
    ensures w.trace <= s.w.trace
    decreases fuel, 0, 0
  {
    var w1 := Emit(w, [Navigated(fragment, trigger)]);
    if w1.fragment == fragment then Step(w1, Done)
    else
      var w2 := w1.(fragment := fragment);
      if !trigger then Step(w2, Done)
      else if fuel == 0 then Step(w2, Threw(TooDeep))
      else LoadW(r, w2, fuel - 1, fragment)
  }

  /** `_runHandler`: call the hook; a redirect navigates with `trigger` and
      rejects, anything else settles as `$.when(result)`. */
  function RunHandlerW(r: Router, w: World, fuel: nat, hook: Hook, kind: HookKind, route: Route): (s: Step)
    reads r`namedRoutes, r`entries, EntryRoutes(r.entries)`filters, route`filters
    ensures w.trace + [HookCalled(route, kind)] <= s.w.trace
    decreases fuel, 1, 0
  {
    var w1 := Emit(w, [HookCalled(route, kind)]);
    if Redirects(hook) then
      var s := NavigateW(r, w1, fuel, hook.fragment, true);
      if s.status.Threw? then s else Step(s.w, Settled(Rejected))
    else Step(w1, Settled(LegacySettle(hook)))
  }

  /** The chain `_runFilters` builds: each hook runs once the one before
      it resolved. */
  function ChainW(r: Router, w: World, fuel: nat, route: Route, hooks: seq<Hook>, before: bool): (s: Step)
    reads r`namedRoutes, r`entries, EntryRoutes(r.entries)`filters, route`filters
    ensures w.trace <= s.w.trace
    decreases fuel, 2, |hooks|
  {
    if hooks == [] then Step(w, Done)
    else
      var s := RunHandlerW(r, w, fuel, hooks[0], if before then BeforeFilter(hooks[0]) else AfterFilter(hooks[0]), route);
      if s.status != Done then s else ChainW(r, s.w, fuel, route, hooks[1..], before)
  }

  /** The hooks of one stage: the router's filters, then the route's. */
  function StageOf(r: Router, route: Route, before: bool): seq<Hook>
    reads route`filters
  {
    StageHooks(r.filters + route.filters, before)
  }

  /** `_runFilters`: resolves when the chain resolves, never settles otherwise. */
  function StageW(r: Router, w: World, fuel: nat, route: Route, before: bool): (s: Step)
    reads r`namedRoutes, r`entries, EntryRoutes(r.entries)`filters, route`filters
    ensures w.trace <= s.w.trace
    ensures !s.status.Threw? ==> s.status == Done || s.status == Settled(Unsettled)
    decreases fuel, 3, 0
  {
    var s := ChainW(r, w, fuel, route, StageOf(r, route, before), before);
    if s.status.Threw? then s
    else Step(s.w, Settled(if s.status == Done then Resolved else Unsettled))
  }

  /** The second `then` of `_handleBlazerRoute`: unless redirected away,
      run `execute`, emit `after:execute`, run the after filters. Neither
      the result of `execute` nor that of the after filters is waited on. */
  function ThenW(r: Router, w: World, fuel: nat, route: Route): (s: Step)
    reads r`namedRoutes, r`entries, EntryRoutes(r.entries)`filters, route`filters
    ensures w.trace <= s.w.trace
    decreases fuel, 4, 0
  {
    if w.current.handler != Some(RouteH(route)) then Step(w, Done)
    else
      var s1 := RunHandlerW(r, w, fuel, route.hooks.execute, ExecuteHook, route);
      if s1.status.Threw? then s1
      else
        var w2 := Emit(s1.w, [RouteEvent(route, "after:execute"), RouterEvent("after:execute")]);
        var s2 := StageW(r, w2, fuel, route, false);
        if s2.status.Threw? then s2 else Step(s2.w, Done)
  }

  /** The `fail` branch: unless redirected away, call `error`, and emit
      `error` unless it returned exactly `true`. */
  function FailW(r: Router, w: World, fuel: nat, route: Route): (s: Step)
    reads r`namedRoutes, r`entries, EntryRoutes(r.entries)`filters, route`filters
    ensures w.trace <= s.w.trace
    decreases fuel, 4, 0
  {
    if w.current.handler != Some(RouteH(route)) then Step(w, Done)
    else
      var s1 := RunHandlerW(r, w, fuel, route.hooks.error, ErrorHook, route);
      if s1.status.Threw? then s1
      else if route.hooks.error == Returns(Bool(true)) then Step(s1.w, Done)
      else Step(Emit(s1.w, [RouterEvent("error")]), Done)
  }

  /** `_handleBlazerRoute`: `before:execute`, the before filters, `prepare`,
      then the `then` branch when it resolved and the `fail` branch when it
      rejected. */
  function LifecycleW(r: Router, w: World, fuel: nat, route: Route): (s: Step)
    reads r`namedRoutes, r`entries, EntryRoutes(r.entries)`filters, route`filters
    ensures w.trace <= s.w.trace
    decreases fuel, 5, 0
  {
    var w1 := Emit(w, [RouteEvent(route, "before:execute"), RouterEvent("before:execute")]);
    var s1 := StageW(r, w1, fuel, route, true);
    if s1.status != Done then s1
    else
      var s2 := RunHandlerW(r, s1.w, fuel, route.hooks.prepare, PrepareHook, route);
      if s2.status == Done then ThenW(r, s2.w, fuel, route)
      else if s2.status == Settled(Rejected) then FailW(r, s2.w, fuel, route)
      else s2
  }

  /** The record `handleRoute` keeps for a route before it dispatches. */
  function CurrentFor(r: Router, data: RouteData, params: seq<Val>): (c: Current)
    reads r`namedRoutes
    ensures c.handler == Some(data.handler) && c.route == data.name
    ensures data.name.None? ==> c.url.None?
  {
    Current(Some(data.handler), data.name,
            if data.name.Some? then r.Get(data.name.value, Some(U.List(params))) else None)
  }

  /** `handleRoute(routeData)`: record the current handler, route name and
      url, then dispatch on the shape of the handler. */
  function HandleRouteW(r: Router, w: World, fuel: nat, data: RouteData, params: seq<Val>): (s: Step)
    reads r`namedRoutes, r`entries, EntryRoutes(r.entries)`filters, DataRoutes(data)`filters
    ensures w.trace <= s.w.trace
    decreases fuel, 6, 0
  {
    var w1 := w.(current := CurrentFor(r, data, params));
    match data.handler
    case MethodName(m) => if m in r.methods then Step(Emit(w1, [MethodCalled(m, params)]), Done) else Step(w1, Done)
    case RouteH(route) => LifecycleW(r, w1, fuel, route)
    case Fn(id) => Step(Emit(w1, [FnCalled(id)]), Done)
    case NotHandler => Step(w1, Threw(Misconfigured))
  }

  /** `Backbone.history.loadUrl(fragment)`: the history's fragment becomes
      `fragment`, then the callback of the newest entry whose pattern
      accepts it runs. */
  function LoadW(r: Router, w: World, fuel: nat, fragment: string): (s: Step)
    reads r`namedRoutes, r`entries, EntryRoutes(r.entries)`filters
    ensures w.trace <= s.w.trace
    decreases fuel, 7, 0
  {
    var w1 := w.(fragment := fragment);
    var k := FirstEntry(r.entries, r.scan, fragment, 0);
    if k.None? then Step(w1, Done)
    else HandleRouteW(r, w1, fuel, r.entries[k.value].data, r.scan(r.entries[k.value].pattern, fragment).value)
  }

  // -------------------------------------------------------------------
  // Route

  class Route {
    const hooks: Hooks
    var filters: seq<Filter>

    constructor(hooks: Hooks)
      ensures this.hooks == hooks && filters == []
    {
      this.hooks := hooks;
      filters := [];
    }

    /** `redirect(fragment)`: the marker `_runHandler` recognises. */
    function Redirect(fragment: string): (h: Hook)
      ensures h.RedirectTo? && h.fragment == fragment
      ensures Redirects(h) <==> fragment != ""
    {
      RedirectTo(fragment)
    }

    /** `prependFilter(before, after)`: a non-empty filter goes first. */
    method PrependFilter(registry: map<string, Hook>, before: FilterArg, after: FilterArg)
      modifies this`filters
      ensures filters == AddFilter(old(filters), CreateFilter(registry, before, after), true)
    {
      filters := AddFilter(filters, CreateFilter(registry, before, after), true);
    }

    /** `appendFilter(before, after)`: a non-empty filter goes last. */
    method AppendFilter(registry: map<string, Hook>, before: FilterArg, after: FilterArg)
      modifies this`filters
      ensures filters == AddFilter(old(filters), CreateFilter(registry, before, after), false)
    {
      filters := AddFilter(filters, CreateFilter(registry, before, after), false);
    }
  }

  // -------------------------------------------------------------------
  // Router

  class Router {
    var namedRoutes: map<string, string>
    var routeHandlers: map<string, Route>
    /** The callbacks registered with the history, newest first. */
    var entries: seq<Entry>
    var currentHandler: Option<Handler>
    var currentRoute: Option<string>
    var currentUrl: Option<string>
    /** The history's fragment. */
    var fragment: string
    var trace: seq<Event>
    const filters: seq<Filter>
    /** The names of the router's methods. */
    const methods: set<string>
    /** Backbone's matcher for a template: the captured values when the
        fragment matches. */
    const scan: (Template, string) -> Option<seq<Val>>

    constructor(filters: seq<Filter>, methods: set<string>, scan: (Template, string) -> Option<seq<Val>>, fragment: string)
      ensures namedRoutes == map[] && routeHandlers == map[] && entries == []
      ensures currentHandler.None? && currentRoute.None? && currentUrl.None?
      ensures this.fragment == fragment && trace == []
      ensures this.filters == filters && this.methods == methods && this.scan == scan
    {
      namedRoutes, routeHandlers, entries := map[], map[], [];
      currentHandler, currentRoute, currentUrl := None, None, None;
      this.fragment, trace := fragment, [];
      this.filters, this.methods, this.scan := filters, methods, scan;
    }

    /** `route(...)`: a non-empty name records a string template and a Route
        handler; the callback is registered with the history, carrying the
        name when the recorded template under it is non-empty. */
    method AddRoute(call: RouteCall)
      modifies this`namedRoutes, this`routeHandlers, this`entries
      ensures var name := NameOf(call);
        namedRoutes == if Recorded(name) && call.template.Path? then old(namedRoutes)[name.value := call.template.t]
                       else old(namedRoutes)
      ensures var name := NameOf(call);
        routeHandlers == if Recorded(name) && call.config.RouteH? then old(routeHandlers)[name.value := call.config.route]
                         else old(routeHandlers)
      ensures var name := NameOf(call);
        var named := Recorded(name) && name.value in namedRoutes && namedRoutes[name.value] != "";
        entries == [Entry(call.template, RouteData(call.config, if named then name else None))] + old(entries)
      ensures var name := NameOf(call);
        Recorded(name) && call.template.Path? ==> Get(name.value, None) == Some(call.template.t)
    {
      var name := NameOf(call);
      if Recorded(name) {
        if call.template.Path? {
          namedRoutes := namedRoutes[name.value := call.template.t];
        }
        if call.config.RouteH? {
          routeHandlers := routeHandlers[name.value := call.config.route];
        }
      }
      var named := Recorded(name) && name.value in namedRoutes && namedRoutes[name.value] != "";
      entries := [Entry(call.template, RouteData(call.config, if named then name else None))] + entries;
      assert forall i :: 1 <= i < |entries| ==> entries[i] == old(entries)[i - 1];
    }

    /** `get(name)` and `get(name, params)`: the recorded template, or the
        url built from it; nothing for an unknown name. */
    function Get(name: string, params: Option<U.UrlArg>): (u: Option<string>)
      reads this`namedRoutes
      ensures name !in namedRoutes ==> u.None?
      ensures name in namedRoutes && params.None? ==> u == Some(namedRoutes[name])
      ensures name in namedRoutes && params.Some? ==> u.Some? && Some(u.value) == Url(namedRoutes[name], [params.value])
    {
      if name !in namedRoutes then None
      else if params.None? then Some(namedRoutes[name])
      else Url(namedRoutes[name], [params.value])
    }

    /** `handler(name)`. */
    function HandlerNamed(name: string): (h: Option<Route>)
      reads this
      ensures h.Some? <==> name in routeHandlers
      ensures h.Some? ==> h.value == routeHandlers[name]
    {
      if name in routeHandlers then Some(routeHandlers[name]) else None
    }

    /** `matchesUrl(url)` and `matchesUrl(template, params)`: whether the
        url, built from the template when there are params, starts with the
        current url. */
    function MatchesUrl(url: string, params: Option<U.UrlArg>): (b: bool)
      reads this
      ensures var u := if params.Some? then Url(url, [params.value]).value else url;
        b <==> currentUrl.Some? && exists x :: u == currentUrl.value + x
    {
      var u := if params.Some? then Url(url, [params.value]).value else url;
      PrefixMatchMeaning(currentUrl, u);
      PrefixMatch(currentUrl, u)
    }

    /** Write a computed World back. */
    method Commit(w: World)
      modifies this`currentHandler, this`currentRoute, this`currentUrl, this`fragment, this`trace
      ensures View(this) == w
    {
      currentHandler, currentRoute, currentUrl := w.current.handler, w.current.route, w.current.url;
      fragment, trace := w.fragment, w.trace;
    }

    /** `navigate(fragment, {trigger})`. */
    method Navigate(f: string, trigger: bool, fuel: nat) returns (status: Status)
      modifies this`currentHandler, this`currentRoute, this`currentUrl, this`fragment, this`trace
      ensures var s := old(NavigateW(this, View(this), fuel, f, trigger));
        View(this) == s.w && status == s.status
    {
      var s := NavigateW(this, View(this), fuel, f, trigger);
      Commit(s.w);
      status := s.status;
    }

    /** `navigateTo(name, params, {trigger})`: navigate to `get(name, params)`;
        an unknown name gives `undefined`, which the history reads as `''`. */
    method NavigateTo(name: string, params: U.UrlArg, trigger: bool, fuel: nat) returns (status: Status)
      modifies this`currentHandler, this`currentRoute, this`currentUrl, this`fragment, this`trace
      ensures var u := old(Get(name, Some(params)));
        var s := old(NavigateW(this, View(this), fuel, if u.Some? then u.value else "", trigger));
        View(this) == s.w && status == s.status
    {
      var u := Get(name, Some(params));
      status := Navigate(if u.Some? then u.value else "", trigger, fuel);
    }

    /** `handleRoute(routeData)` for captured `params`. */
    method HandleRoute(data: RouteData, params: seq<Val>, fuel: nat) returns (status: Status)
      modifies this`currentHandler, this`currentRoute, this`currentUrl, this`fragment, this`trace
      ensures var s := old(HandleRouteW(this, View(this), fuel, data, params));
        View(this) == s.w && status == s.status
    {
      var s := HandleRouteW(this, View(this), fuel, data, params);
      Commit(s.w);
      status := s.status;
    }

    /** The history's `loadUrl(fragment)`: the fragment is stored, and
        whether an entry accepted it. */
    method LoadUrl(f: string, fuel: nat) returns (found: bool, status: Status)
      modifies this`currentHandler, this`currentRoute, this`currentUrl, this`fragment, this`trace
      ensures found <==> exists k :: 0 <= k < |entries| && scan(entries[k].pattern, f).Some?
      ensures !found ==> fragment == f
      ensures var s := old(LoadW(this, View(this), fuel, f));
        View(this) == s.w && status == s.status
    {
      var k := FirstEntry(entries, scan, f, 0);
      found := k.Some?;
      var s := LoadW(this, View(this), fuel, f);
      Commit(s.w);
      status := s.status;
    }
  }
}
