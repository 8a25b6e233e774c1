/**
 * `Backbone.Blazer.Router`, `Backbone.Blazer.Route`, `Backbone.Blazer.Section`
 * and the part of `Backbone.history` the router relies on.
 *
 * The state that navigation changes (every router's `current`/`previous`
 * pair, the history's fragment and the trace of what was called or
 * emitted) is captured by `Snapshot`. Each navigation method is proved
 * against a step function from the old snapshot to the new one and the
 * status it ends with; the lemmas at the end are about those functions.
 * Hooks are represented by the results they return, promises are settled
 * synchronously, and an exception ends the whole call (`Threw`).
 */
module Blazer {
  import opened JsValues
  import opened UrlTemplate
  import opened Outcomes
  import opened Registry
  import Hierarchy

  // -------------------------------------------------------------------
  // Values

  /** A route's handler: a Route, the name of a router method, or another
      value (which `handleRoute` refuses). Functions and plain objects given
      as handlers are always wrapped into a Route. */
  datatype HandlerRef = RouteH(route: Route) | MethodH(name: string) | OtherH(truthy: bool)

  predicate HandlerTruthy(hr: HandlerRef) {
    match hr
    case RouteH(_) => true
    case MethodH(name) => name != ""
    case OtherH(t) => t
  }

  /** What a route's hooks return when called. */
  datatype Hooks = Hooks(exit: Hook, prepare: Hook, execute: Hook, error: Hook, canNavigate: Val)

  /** The hooks of `Backbone.Blazer.Route.prototype`: each returns nothing. */
  const DefaultHooks := Hooks(Returns(Undef), Returns(Undef), Returns(Undef), Returns(Undef), Undef)

  /** `routeConstructor`: unset, a Route class, or a plain function that is
      given the config and returns a Route class or nothing. */
  datatype RouteConstructor = DefaultRoute | RouteClass(hooks: Hooks) | Factory(make: Arg<Route> -> Option<Hooks>)

  /** The hooks of the Route a config is wrapped into. */
  function HooksFor(rc: RouteConstructor, config: Arg<Route>): Hooks {
    match rc
    case DefaultRoute => DefaultHooks
    case RouteClass(hooks) => hooks
    case Factory(make) => if make(config).Some? then make(config).value else DefaultHooks
  }

  /** A router's options and prototype properties. */
  datatype Config = Config(
    optionsPath: Val, protoPath: Val,            // `options.path`, `path`
    optionsRoot: string, protoRoot: string,      // `options.root`, `root`
    optionsDefaults: Dict, protoDefaults: Dict,  // `options.defaults`, `defaults`
    history: bool,                               // `options.history !== false`
    canNavigate: Val,                            // what the router's `canNavigate` returns
    methods: set<string>,                        // names of the router's methods
    routeConstructor: RouteConstructor)

  /** The `routeData` a handler's callback builds for a fragment. */
  datatype RouteData = RouteData(handler: HandlerRef, name: Option<string>, route: Option<string>,
                                 params: seq<Val>, parameters: Dict)

  /** A `current`/`previous` record. */
  datatype Record = Record(handler: HandlerRef, name: string, route: string, url: string,
                           params: seq<Val>, parameters: Dict)

  datatype Pair = Pair(current: Option<Record>, previous: Option<Record>)

  /** Which hook of a route was called. */
  datatype HookKind = ExitHook | PrepareHook | ExecuteHook | ErrorHook | BeforeFilter(h: Hook) | AfterFilter(h: Hook)

  /** What the trace records: hook calls, events, router method calls and
      the calls that reach `Backbone.Router.prototype.navigate`. */
  datatype Event =
    | Called(route: Route, kind: HookKind)
    | RouteEvent(route: Route, name: string)
    | RouterEvent(router: Router, name: string)
    | HistoryRoute(router: Router, name: string)
    | Invoked(router: Router, member: string)
    | Navigated(fragment: string, trigger: bool, replace: bool)

  datatype World = World(pairs: map<Router, Pair>, fragment: string, trace: seq<Event>)

  /** How a step ends: with the settling of the promise it answers with, or
      with an exception. */
  datatype Status = Settled(settle: Settle) | Threw(message: string)

  datatype Step = Step(w: World, status: Status)

  const Done := Settled(Resolved)
  const TooDeep := "too much recursion"

  function Emit(w: World, es: seq<Event>): World {
    w.(trace := w.trace + es)
  }

  // -------------------------------------------------------------------
  // Matching

  /** The first entry of `hs`, from `from` on, whose pattern accepts the fragment. */
  function FirstMatch(hs: seq<Entry<HandlerRef>>, scan: (Pattern, string) -> Option<seq<Val>>,
                      fragment: string, from: nat): Option<nat>
    decreases |hs| - from
  {
    if from >= |hs| then None
    else if scan(hs[from].pattern, fragment).Some? then Some(from)
    else FirstMatch(hs, scan, fragment, from + 1)
  }

  /** `FirstMatch` finds the first accepting entry, and only misses when
      there is none. */
  lemma {:induction false} FirstMatchFirst(hs: seq<Entry<HandlerRef>>, scan: (Pattern, string) -> Option<seq<Val>>,
                                           fragment: string, from: nat)
    ensures var i := FirstMatch(hs, scan, fragment, from);
      (i.Some? ==> from <= i.value < |hs| && scan(hs[i.value].pattern, fragment).Some?)
      && (i.Some? ==> forall j :: from <= j < i.value ==> scan(hs[j].pattern, fragment).None?)
      && (i.None? ==> forall j :: from <= j < |hs| ==> scan(hs[j].pattern, fragment).None?)
    decreases |hs| - from
  {
    if from < |hs| && scan(hs[from].pattern, fragment).None? {
      FirstMatchFirst(hs, scan, fragment, from + 1);
    }
  }

  // -------------------------------------------------------------------
  // Records

  /** The `routeData` the callback of entry `i` builds from the captures. */
  function DataFor(r: Router, hs: seq<Entry<HandlerRef>>, i: nat, captures: seq<Val>): RouteData
    requires i < |hs|
  {
    var e := hs[i];
    RouteData(e.handler, e.routeName, e.routePath, captures,
              MatchParameters(e.routePath, captures, StartParameters(r.cfg.protoDefaults, r.cfg.optionsDefaults)))
  }

  /** `getUrl(name, ...args)` of a router whose entries are `hs`. */
  function UrlFor(r: Router, hs: seq<Entry<HandlerRef>>, name: Option<string>, args: seq<UrlArg>): string {
    Registry.GetUrl(hs, Root(r.cfg.optionsRoot, r.cfg.protoRoot), r.cfg.optionsDefaults, r.cfg.protoDefaults, name, args)
  }

  /** The record `handleRoute` commits as `current`. */
  function RecordOf(r: Router, hs: seq<Entry<HandlerRef>>, rd: RouteData): Record {
    Record(rd.handler,
           if rd.name.Some? then rd.name.value else "",
           if rd.route.Some? then rd.route.value else "",
           UrlFor(r, hs, rd.name, [List(rd.params)]),
           rd.params, rd.parameters)
  }

  /** `navigate` returns before calling the history when the router's
      `canNavigate`, then the previous Route's, then the current Route's
      returns exactly `false`. */
  predicate Vetoed(r: Router, p: Pair) {
    r.cfg.canNavigate == Bool(false)
    || (p.previous.Some? && p.previous.value.handler.RouteH?
        && p.previous.value.handler.route.hooks.canNavigate == Bool(false))
    || (p.current.Some? && p.current.value.handler.RouteH?
        && p.current.value.handler.route.hooks.canNavigate == Bool(false))
  }

  // -------------------------------------------------------------------
  // What navigation reads from the heap

  /** A history entry accepts a fragment. */
  predicate Accepts(e: (Router, nat), fragment: string)
    reads e.0
  {
    e.1 < |e.0.handlers| && e.0.scan(e.0.handlers[e.1].pattern, fragment).Some?
  }

  /** `loadUrl`: the first history entry, newest first, that accepts the fragment. */
  function HistoryMatch(h: History, fragment: string, from: nat): Option<nat>
    requires Wf(h)
    reads h, h.routers
    decreases |h.entries| - from
  {
    if from >= |h.entries| then None
    else if Accepts(h.entries[from], fragment) then Some(from)
    else HistoryMatch(h, fragment, from + 1)
  }

  /** `HistoryMatch` finds the first accepting entry, and only misses when
      there is none. */
  lemma {:induction false} HistoryMatchFirst(h: History, fragment: string, from: nat)
    requires Wf(h)
    ensures var k := HistoryMatch(h, fragment, from);
      (k.Some? ==> from <= k.value < |h.entries| && Accepts(h.entries[k.value], fragment))
      && (k.Some? ==> forall j :: from <= j < k.value ==> !Accepts(h.entries[j], fragment))
      && (k.None? ==> forall j :: from <= j < |h.entries| ==> !Accepts(h.entries[j], fragment))
    decreases |h.entries| - from
  {
    if from < |h.entries| && !Accepts(h.entries[from], fragment) {
      HistoryMatchFirst(h, fragment, from + 1);
    }
  }

  /** The records a world gives a router: the ones it replaced, or else the
      router's own fields. */
  function PairOf(w: World, r: Router): Pair
    reads r
  {
    if r in w.pairs then w.pairs[r] else Pair(r.current, r.previous)
  }

  /** The world a navigation starts from: no record replaced yet. */
  function StartWorld(h: History): (w: World)
    reads h
    ensures w.pairs == map[] && w.fragment == h.fragment && w.trace == h.trace
  {
    World(map[], h.fragment, h.trace)
  }

  /** Every router a world replaced the records of belongs to the history. */
  ghost predicate Fits(h: History, w: World)
    reads h
  {
    w.pairs.Keys <= h.routers
  }

  // -------------------------------------------------------------------
  // Step functions. `fuel` bounds the depth of nested navigations; running
  // out of it is the stack overflow an endless redirect loop ends in.

  /** `Backbone.history.navigate`: nothing when the fragment is unchanged;
      otherwise the fragment is set and, with `trigger`, loaded. */
  function HistoryNavigateW(h: History, w: World, fuel: nat, fragment: string, trigger: bool): (s: Step)
    requires Wf(h) && Fits(h, w)
    reads h, h.routers, h.routes
    ensures Fits(h, s.w) && w.trace <= s.w.trace
    decreases fuel, 0, 0
  {
    if w.fragment == fragment then Step(w, Done)
    else
      var w1 := w.(fragment := fragment);
      if !trigger then Step(w1, Done)
      else if fuel == 0 then Step(w1, Threw(TooDeep))
      else LoadW(h, w1, fuel - 1, fragment)
  }

  /** `router.navigate(fragment, options)`. */
  function NavigateW(h: History, r: Router, w: World, fuel: nat, fragment: string, trigger: bool, replace: bool): (s: Step)
    requires Wf(h) && r in h.routers && Fits(h, w)
    reads h, h.routers, h.routes
    ensures Fits(h, s.w) && w.trace <= s.w.trace
    decreases fuel, 1, 0
  {
    if Vetoed(r, PairOf(w, r)) then Step(w, Done)
    else HistoryNavigateW(h, Emit(w, [Navigated(fragment, trigger, replace)]), fuel, fragment, trigger)
  }

  /** `_cancelRoute(router, route)`: `current` goes back to `previous`, and
      the router navigates to the previous url (or `''`) with `replace`. */
  function CancelRouteW(h: History, r: Router, w: World, fuel: nat, target: HandlerRef): (s: Step)
    requires Wf(h) && r in h.routers && Fits(h, w)
    reads h, h.routers, h.routes
    ensures Fits(h, s.w) && w.trace <= s.w.trace
    decreases fuel, 2, 0
  {
    if !target.RouteH? then Step(w, Threw("TypeError"))
    else
      var p := PairOf(w, r);
      var w1 := Emit(w, [RouteEvent(target.route, "before:cancel"), RouterEvent(r, "before:cancel")]);
      var w2 := w1.(pairs := w1.pairs[r := Pair(p.previous, p.previous)]);
      var s := NavigateW(h, r, w2, fuel, if p.previous.Some? then p.previous.value.url else "", false, true);
      if s.status.Threw? then s
      else Step(Emit(s.w, [RouteEvent(target.route, "after:cancel"), RouterEvent(r, "after:cancel")]), Done)
  }

  /** `_runHandler(hook, router, route)`: a redirect navigates with
      `trigger` and rejects, `false` cancels and rejects, anything else is
      followed. */
  function RunHandlerW(h: History, r: Router, w: World, fuel: nat, hook: Hook, kind: HookKind, route: Route): (s: Step)
    requires Wf(h) && r in h.routers && Fits(h, w)
    reads h, h.routers, h.routes
    ensures Fits(h, s.w) && w.trace <= s.w.trace
    decreases fuel, 3, 0
  {
    var w1 := Emit(w, [Called(route, kind)]);
    match EffectOf(hook)
    case Redirect(f) =>
      var s := NavigateW(h, r, w1, fuel, f, true, false);
      if s.status.Threw? then s else Step(s.w, Settled(Rejected))
    case Cancel =>
      var s := CancelRouteW(h, r, w1, fuel, RouteH(route));
      if s.status.Threw? then s else Step(s.w, Settled(Rejected))
    case NoEffect => Step(w1, Settled(SettleOf(hook)))
  }

  /** The promise chain of `_runFilters`: each hook runs once the one before
      it resolved. */
  function ChainW(h: History, r: Router, w: World, fuel: nat, route: Route, hooks: seq<Hook>, before: bool): (s: Step)
    requires Wf(h) && r in h.routers && Fits(h, w)
    reads h, h.routers, h.routes
    ensures Fits(h, s.w) && w.trace <= s.w.trace
    decreases fuel, 4, |hooks|
  {
    if hooks == [] then Step(w, Done)
    else
      var s := RunHandlerW(h, r, w, fuel, hooks[0], if before then BeforeFilter(hooks[0]) else AfterFilter(hooks[0]), route);
      if s.status != Done then s else ChainW(h, r, s.w, fuel, route, hooks[1..], before)
  }

  /** The hooks of one stage: the router's filters, then the route's. */
  function StageOf(r: Router, route: Route, before: bool): seq<Hook>
    reads r, route
  {
    StageHooks(r.filters + route.filters, before)
  }

  /** `_runFilters`: resolves when the chain resolves, never settles otherwise. */
  function StageW(h: History, r: Router, w: World, fuel: nat, route: Route, before: bool): (s: Step)
    requires Wf(h) && r in h.routers && route in h.routes && Fits(h, w)
    reads h, h.routers, h.routes
    ensures Fits(h, s.w) && w.trace <= s.w.trace
    decreases fuel, 5, 0
  {
    var s := ChainW(h, r, w, fuel, route, StageOf(r, route, before), before);
    if s.status.Threw? then s
    else Step(s.w, Settled(if s.status == Done then Resolved else Unsettled))
  }

  /** The `fail` branch of `_handleBlazerRoute`: when `current` still holds
      this route (or nothing), cancel, call `error`, and emit `error` unless
      it returned exactly `true`. */
  function FailW(h: History, r: Router, w: World, fuel: nat, route: Route): (s: Step)
    requires Wf(h) && r in h.routers && Fits(h, w)
    reads h, h.routers, h.routes
    ensures Fits(h, s.w) && w.trace <= s.w.trace
    decreases fuel, 5, 0
  {
    var cur := PairOf(w, r).current;
    if cur.Some? && cur.value.handler != RouteH(route) then Step(w, Settled(Rejected))
    else
      var s1 := CancelRouteW(h, r, w, fuel, RouteH(route));
      if s1.status.Threw? then s1
      else
        var s2 := RunHandlerW(h, r, s1.w, fuel, route.hooks.error, ErrorHook, route);
        if s2.status.Threw? then s2
        else if route.hooks.error == Returns(Bool(true)) then Step(s2.w, Settled(Rejected))
        else Step(Emit(s2.w, [RouterEvent(r, "error")]), Settled(Rejected))
  }

  /** The fragment a Section's execute hands to its router. */
  function SectionPath(rd: RouteData): string {
    var path := Get(rd.parameters, "path");
    if Truthy(path) then JsValues.Text(path) else ""
  }

  /** `route.execute(routeData)`; a Section's execute runs its router's
      `executeUrl` on `parameters.path` (or `''`). */
  function ExecuteStageW(h: History, r: Router, w: World, fuel: nat, route: Route, rd: RouteData): (s: Step)
    requires Wf(h) && r in h.routers && route in h.routes && Fits(h, w)
    reads h, h.routers, h.routes
    ensures Fits(h, s.w) && w.trace <= s.w.trace
    decreases fuel, 5, 0
  {
    if route.sub == null then RunHandlerW(h, r, w, fuel, route.hooks.execute, ExecuteHook, route)
    else
      var w1 := Emit(w, [Called(route, ExecuteHook)]);
      if fuel == 0 then Step(w1, Threw(TooDeep))
      else
        var s := ExecuteUrlW(h, route.sub, w1, fuel - 1, SectionPath(rd));
        if s.status.Threw? then s else Step(s.w, Done)
  }

  /** `done()`: the `route:<name>` and `route` events of the router, named
      after the route of `current`, and the history's `route` event. */
  function DoneW(r: Router, w: World): (s: Step)
    reads r
    ensures s.w.pairs == w.pairs && s.w.fragment == w.fragment
  {
    var cur := PairOf(w, r).current;
    if cur.None? then Step(w, Threw("TypeError"))
    else Step(Emit(w, [RouterEvent(r, "route:" + cur.value.route), RouterEvent(r, "route"),
                       HistoryRoute(r, cur.value.route)]), Done)
  }

  /** After `prepare` resolved: unless `current` moved to another handler,
      execute, `done`, `after:execute`, then the after filters, whose
      outcome is ignored. */
  function ThenW(h: History, r: Router, w: World, fuel: nat, route: Route, rd: RouteData): (s: Step)
    requires Wf(h) && r in h.routers && route in h.routes && Fits(h, w)
    reads h, h.routers, h.routes
    ensures Fits(h, s.w) && w.trace <= s.w.trace
    decreases fuel, 6, 0
  {
    var cur := PairOf(w, r).current;
    if cur.Some? && cur.value.handler != RouteH(route) then Step(w, Done)
    else
      var s1 := ExecuteStageW(h, r, w, fuel, route, rd);
      if s1.status.Threw? then s1
      else
        var s2 := DoneW(r, s1.w);
        if s2.status.Threw? then s2
        else
          var w3 := Emit(s2.w, [RouteEvent(route, "after:execute"), RouterEvent(r, "after:execute")]);
          var s4 := StageW(h, r, w3, fuel, route, false);
          if s4.status.Threw? then s4 else Step(s4.w, Done)
  }

  /** The `exit` event of the previous handler, if it is a Route. */
  function ExitEvents(prev: Option<HandlerRef>): seq<Event> {
    if prev.Some? && prev.value.RouteH? then [RouteEvent(prev.value.route, "exit")] else []
  }

  /** After the before filters resolved: the `exit` event of the previous
      handler, `enter`, and `prepare`. */
  function EnterW(h: History, r: Router, w: World, fuel: nat, route: Route, rd: RouteData, prev: Option<HandlerRef>): (s: Step)
    requires Wf(h) && r in h.routers && route in h.routes && Fits(h, w)
    reads h, h.routers, h.routes
    ensures Fits(h, s.w) && w.trace <= s.w.trace
    decreases fuel, 7, 0
  {
    if prev.Some? && HandlerTruthy(prev.value) && !prev.value.RouteH? then Step(w, Threw("TypeError"))
    else
      var w1 := Emit(w, ExitEvents(prev) + [RouteEvent(route, "enter")]);
      var s := RunHandlerW(h, r, w1, fuel, route.hooks.prepare, PrepareHook, route);
      if s.status.Threw? then s
      else if s.status.settle == Rejected then FailW(h, r, s.w, fuel, route)
      else if s.status.settle == Unsettled then s
      else ThenW(h, r, s.w, fuel, route, rd)
  }

  /** The handler of a record, if there is one. */
  function HandlerOf(rec: Option<Record>): Option<HandlerRef> {
    if rec.Some? then Some(rec.value.handler) else None
  }

  /** `_handleBlazerRoute(route, routeData, done)`. */
  function LifecycleW(h: History, r: Router, w: World, fuel: nat, route: Route, rd: RouteData): (s: Step)
    requires Wf(h) && r in h.routers && route in h.routes && Fits(h, w)
    reads h, h.routers, h.routes
    ensures Fits(h, s.w) && w.trace <= s.w.trace
    decreases fuel, 8, 0
  {
    var prev := HandlerOf(PairOf(w, r).previous);
    var w1 := Emit(w, [RouteEvent(route, "before:execute"), RouterEvent(r, "before:execute")]);
    var s1 := if prev.Some? && prev.value.RouteH?
              then RunHandlerW(h, r, w1, fuel, prev.value.route.hooks.exit, ExitHook, prev.value.route)
              else Step(w1, Done);
    if s1.status.Threw? then s1
    else if s1.status.settle == Rejected then FailW(h, r, s1.w, fuel, route)
    else if s1.status.settle == Unsettled then s1
    else
      var s2 := StageW(h, r, s1.w, fuel, route, true);
      if s2.status != Done then s2
      else EnterW(h, r, s2.w, fuel, route, rd, prev)
  }

  /** `handleRoute(routeData)`: commit the new record, then dispatch by the
      handler's shape. */
  function HandleRouteW(h: History, r: Router, w: World, fuel: nat, rd: RouteData): (s: Step)
    requires Wf(h) && r in h.routers && Fits(h, w)
    requires rd.handler.RouteH? ==> rd.handler.route in h.routes
    reads h, h.routers, h.routes
    ensures Fits(h, s.w) && w.trace <= s.w.trace
    decreases fuel, 9, 0
  {
    var w1 := w.(pairs := w.pairs[r := Pair(Some(RecordOf(r, r.handlers, rd)), PairOf(w, r).current)]);
    match rd.handler
    case MethodH(m) => if m in r.cfg.methods then DoneW(r, Emit(w1, [Invoked(r, m)])) else Step(w1, Done)
    case RouteH(route) => LifecycleW(h, r, w1, fuel, route, rd)
    case OtherH(_) => Step(w1, Threw("Incorrectly configured route"))
  }

  /** The callback `route` registers for entry `i`, called on a fragment the
      entry's pattern accepts. */
  function CallbackW(h: History, r: Router, w: World, fuel: nat, i: nat, fragment: string): (s: Step)
    requires Wf(h) && r in h.routers && Fits(h, w)
    requires i < |r.handlers| && r.scan(r.handlers[i].pattern, fragment).Some?
    reads h, h.routers, h.routes
    ensures Fits(h, s.w) && w.trace <= s.w.trace
    decreases fuel, 10, 0
  {
    var rd := DataFor(r, r.handlers, i, r.scan(r.handlers[i].pattern, fragment).value);
    if r.stopped then
      var w1 := Emit(w, [RouterEvent(r, "route:unhandled")]);
      if HandlerTruthy(rd.handler) then CancelRouteW(h, r, w1, fuel, rd.handler) else Step(w1, Done)
    else HandleRouteW(h, r, w, fuel, rd)
  }

  /** `Backbone.history.loadUrl(fragment)`: the history's fragment becomes
      `fragment`, then the newest accepting entry's callback runs. */
  function LoadW(h: History, w: World, fuel: nat, fragment: string): (s: Step)
    requires Wf(h) && Fits(h, w)
    reads h, h.routers, h.routes
    ensures Fits(h, s.w) && w.trace <= s.w.trace
    decreases fuel, 11, 0
  {
    var w1 := w.(fragment := fragment);
    var k := HistoryMatch(h, fragment, 0);
    HistoryMatchFirst(h, fragment, 0);
    if k.None? then Step(w1, Done)
    else CallbackW(h, h.entries[k.value].0, w1, fuel, h.entries[k.value].1, fragment)
  }

  /** `router.executeUrl(fragment)`: the callback of the first entry, in
      registration order, that accepts the fragment. */
  function ExecuteUrlW(h: History, r: Router, w: World, fuel: nat, fragment: string): (s: Step)
    requires Wf(h) && r in h.routers && Fits(h, w)
    reads h, h.routers, h.routes
    ensures Fits(h, s.w) && w.trace <= s.w.trace
    decreases fuel, 11, 0
  {
    var i := FirstMatch(r.handlers, r.scan, fragment, 0);
    FirstMatchFirst(r.handlers, r.scan, fragment, 0);
    if i.None? then Step(w, Done) else CallbackW(h, r, w, fuel, i.value, fragment)
  }

  // -------------------------------------------------------------------
  // The heap

  /** Every router belongs to this history; every Route a router holds is
      known, and so is every section's router; history entries name known
      routers. */
  ghost predicate Wf(h: History)
    reads h`routers, h`routes, h`entries, h.routers`handlers
  {
    (forall r :: r in h.routers ==> r.history == h)
    && (forall r, i :: r in h.routers && 0 <= i < |r.handlers| && r.handlers[i].handler.RouteH? ==>
          r.handlers[i].handler.route in h.routes)
    && (forall rt :: rt in h.routes && rt.sub != null ==> rt.sub in h.routers)
    && (forall k :: 0 <= k < |h.entries| ==> h.entries[k].0 in h.routers)
  }

  /** Every router's records. */
  ghost function RecordsOf(h: History): (m: map<Router, Pair>)
    reads h`routers, h.routers`current, h.routers`previous
    ensures m.Keys == h.routers
  {
    map r | r in h.routers :: Pair(r.current, r.previous)
  }

  /** What navigation changes. */
  ghost function Snapshot(h: History): (w: World)
    reads h`routers, h`fragment, h`trace, h.routers`current, h.routers`previous
  {
    World(RecordsOf(h), h.fragment, h.trace)
  }

  /** A step that started from `w0` has been written to the heap and ended
      with `status`. */
  ghost predicate Committed(h: History, w0: World, s: Step, status: Status)
    reads h`routers, h`fragment, h`trace, h.routers`current, h.routers`previous
  {
    status == s.status && Snapshot(h) == World(w0.pairs + s.w.pairs, s.w.fragment, s.w.trace)
  }

  class History {
    /** The current fragment. */
    var fragment: string
    /** What was called or emitted, in order. */
    var trace: seq<Event>
    /** `Backbone.history.handlers`: a router and the index of its entry,
        newest first. */
    var entries: seq<(Router, nat)>
    /** The routers and Routes that exist. */
    ghost var routers: set<Router>
    ghost var routes: set<Route>

    constructor(fragment: string)
      ensures this.fragment == fragment && trace == [] && entries == [] && routers == {} && routes == {}
    {
      this.fragment := fragment;
      trace := [];
      entries := [];
      routers := {};
      routes := {};
    }

    /** Writes the records, fragment and trace a step ended with. */
    method Commit(w: World)
      requires w.pairs.Keys <= routers
      modifies routers`current, routers`previous, this`fragment, this`trace
      ensures Snapshot(this) == World(old(RecordsOf(this)) + w.pairs, w.fragment, w.trace)
    {
      var keys := w.pairs.Keys;
      while keys != {}
        invariant keys <= w.pairs.Keys
        invariant forall r :: r in routers ==>
          Pair(r.current, r.previous) == if r in w.pairs && r !in keys then w.pairs[r] else old(Pair(r.current, r.previous))
        decreases keys
      {
        var r :| r in keys;
        r.current, r.previous := w.pairs[r].current, w.pairs[r].previous;
        keys := keys - {r};
      }
      fragment, trace := w.fragment, w.trace;
      assert RecordsOf(this) == old(RecordsOf(this)) + w.pairs;
    }

    /** `Backbone.history.navigate(fragment, {trigger})`. */
    method Navigate(fragment: string, trigger: bool, fuel: nat) returns (status: Status)
      requires Wf(this)
      modifies routers`current, routers`previous, this`fragment, this`trace
      ensures Committed(this, old(Snapshot(this)), old(HistoryNavigateW(this, StartWorld(this), fuel, fragment, trigger)), status)
    {
      var s := HistoryNavigateW(this, StartWorld(this), fuel, fragment, trigger);
      Commit(s.w);
      status := s.status;
    }

    /** `Backbone.history.loadUrl(fragment)`: the fragment is stored, and
        the newest entry that accepts it has its callback called; whether
        there was one. */
    method LoadUrl(fragment: string, fuel: nat) returns (found: bool, status: Status)
      requires Wf(this)
      modifies routers`current, routers`previous, this`fragment, this`trace
      ensures found <==> exists k :: 0 <= k < |entries| && Accepts(entries[k], fragment)
      ensures !found ==> this.fragment == fragment
      ensures Committed(this, old(Snapshot(this)), old(LoadW(this, StartWorld(this), fuel, fragment)), status)
    {
      var k := 0;
      while k < |entries| && !Accepts(entries[k], fragment)
        invariant 0 <= k <= |entries|
        invariant forall j :: 0 <= j < k ==> !Accepts(entries[j], fragment)
      {
        k := k + 1;
      }
      HistoryMatchFirst(this, fragment, 0);
      var s := LoadW(this, StartWorld(this), fuel, fragment);
      assert k < |entries| ==> HistoryMatch(this, fragment, 0) == Some(k);
      Commit(s.w);
      found, status := k < |entries|, s.status;
    }
  }

  class Route {
    /** What the hooks return. */
    const hooks: Hooks
    /** The router of a Section; `null` for any other Route. */
    const sub: Router?
    var filters: seq<Filter>

    constructor(ghost h: History, hooks: Hooks, sub: Router?)
      requires sub == null || sub in h.routers
      modifies h`routes
      ensures this.hooks == hooks && this.sub == sub && filters == []
      ensures h.routes == old(h.routes) + {this}
    {
      this.hooks := hooks;
      this.sub := sub;
      filters := [];
      new;
      h.routes := h.routes + {this};
    }

    /** `route.redirect(fragment)`: the marker `_runHandler` turns into a
        navigation. */
    function Redirect(fragment: string): (hook: Hook)
      ensures EffectOf(hook) == if fragment != "" then Outcomes.Redirect(fragment) else NoEffect
    {
      RedirectTo(fragment)
    }

    method PrependFilter(registry: FilterRegistry, before: FilterArg, after: FilterArg)
      modifies this`filters
      ensures filters == AddFilter(old(filters), CreateFilter(registry.filters, before, after), true)
    {
      var f := CreateFilter(registry.filters, before, after);
      if !IsEmptyFilter(f) {
        filters := [f] + filters;
      }
    }

    method AppendFilter(registry: FilterRegistry, before: FilterArg, after: FilterArg)
      modifies this`filters
      ensures filters == AddFilter(old(filters), CreateFilter(registry.filters, before, after), false)
    {
      var f := CreateFilter(registry.filters, before, after);
      if !IsEmptyFilter(f) {
        filters := filters + [f];
      }
    }
  }

  /** `Backbone.Blazer.Router.filters`, the registry of named filters. */
  class FilterRegistry {
    var filters: map<string, Hook>

    constructor()
      ensures filters == map[]
    {
      filters := map[];
    }

    /** `registerFilter(name, fn)`: only a function is registered. */
    method Register(name: string, fn: FilterArg)
      modifies this
      ensures fn.Fn? ==> filters == old(filters)[name := fn.hook]
      ensures !fn.Fn? ==> filters == old(filters)
    {
      if fn.Fn? {
        filters := filters[name := fn.hook];
      }
    }
  }

  class Router {
    var handlers: seq<Entry<HandlerRef>>
    var current: Option<Record>
    var previous: Option<Record>
    /** `__stopped` */
    var stopped: bool
    var filters: seq<Filter>
    const cfg: Config
    const history: History
    /** Backbone's matcher: the captures of a fragment the pattern accepts. */
    const scan: (Pattern, string) -> Option<seq<Val>>

    /** `new Router(options)`: no routes, no records, not stopped, no filters. */
    constructor(h: History, cfg: Config, scan: (Pattern, string) -> Option<seq<Val>>)
      requires Wf(h)
      modifies h`routers
      ensures Wf(h) && h.routers == old(h.routers) + {this}
      ensures history == h && this.cfg == cfg && this.scan == scan
      ensures handlers == [] && current == None && previous == None && !stopped && filters == []
    {
      history := h;
      this.cfg := cfg;
      this.scan := scan;
      handlers := [];
      current := None;
      previous := None;
      stopped := false;
      filters := [];
      new;
      h.routers := h.routers + {this};
    }

    /** `getUrl(name, ...args)`. */
    function GetUrl(name: Option<string>, args: seq<UrlArg>): string
      reads this`handlers
    {
      UrlFor(this, handlers, name, args)
    }

    /** `get(name)`: the first entry registered under the name. */
    function Get(name: Option<string>): (e: Option<Entry<HandlerRef>>)
      reads this`handlers
      ensures e.Some? <==> Find(handlers, name).Some?
      ensures e.Some? ==> e.value in handlers && name.Some? && EntryName(e.value) == name
    {
      var i := Find(handlers, name);
      if i.Some? then Some(handlers[i.value]) else None
    }

    /** The name of `current`, or `''`. */
    function CurrentName(): string
      reads this`current
    {
      if current.Some? then current.value.name else ""
    }

    /** The parameters of `current`, or `{}`. */
    function CurrentParameters(): Dict
      reads this`current
    {
      if current.Some? then current.value.parameters else []
    }

    /** `matchesUrl(url)` and `matchesUrl(template, params)`: with a second
        argument the url is first built by `url`, which reads the template
        as text (`path + ''`); the result is equality with the current url
        (`''` without a current record). */
    function MatchesUrl(url: Val, params: Option<UrlArg>): (b: bool)
      reads this`current
      ensures params.None? ==> (b <==> url == Str(if current.Some? then current.value.url else ""))
      ensures params.Some? ==> (b <==> Url(JsValues.Text(url), [params.value]) == (if current.Some? then current.value.url else ""))
    {
      var u := if params.Some? then Str(Url(JsValues.Text(url), [params.value])) else url;
      MatchesUrlEquality(if current.Some? then Some(current.value.url) else None, u);
      Registry.MatchesUrl(if current.Some? then Some(current.value.url) else None, u)
    }

    /** `matchesRoute(name, params)`: `current` sits at the url `getUrl`
        builds for the name. */
    function MatchesRoute(name: Option<string>, params: UrlArg): (b: bool)
      reads this`current, this`handlers
      ensures b <==> GetUrl(name, [params]) == (if current.Some? then current.value.url else "")
    {
      MatchesUrl(Str(GetUrl(name, [params])), None)
    }

    /** `isAncestor(routeName)`: the name is a proper dotted prefix of the
        current route's (non-empty) name. */
    predicate IsAncestor(routeName: Val): (b: bool)
      reads this`current
      ensures b <==> current.Some? && current.value.name != "" && routeName.Str?
                     && routeName.s in Hierarchy.Ancestry(current.value.name) && routeName.s != current.value.name
    {
      Hierarchy.IsAncestorMeaning(if current.Some? then Some(current.value.name) else None, routeName);
      Hierarchy.IsAncestor(if current.Some? then Some(current.value.name) else None, routeName)
    }

    /** `ancestors(...)`. */
    method Ancestors(q: Hierarchy.Query) returns (nodes: seq<Hierarchy.Node>)
      ensures var (name, params) := Hierarchy.Subject(q, CurrentName(), CurrentParameters());
        nodes == Hierarchy.AncestorNodes(handlers, name, params)
    {
      nodes := Hierarchy.Ancestors(handlers, q, CurrentName(), CurrentParameters());
    }

    /** `nodes(...)`: a node for every handler whose name has the subject
        name as a proper dotted prefix, and no other. */
    function Nodes(q: Hierarchy.Query): (nodes: seq<Hierarchy.Node>)
      reads this`current, this`handlers
      ensures var (name, params) := Hierarchy.Subject(q, CurrentName(), CurrentParameters());
        forall n :: n in nodes <==>
          exists i :: 0 <= i < |handlers| && Hierarchy.IsAncestor(EntryName(handlers[i]), Str(name))
                      && n == Hierarchy.NodeOf(handlers[i], params, None)
    {
      var (name, params) := Hierarchy.Subject(q, CurrentName(), CurrentParameters());
      Hierarchy.ChildrenMembers(handlers, name, params);
      Hierarchy.Children(handlers, name, params)
    }

    /** `siblings(...)`: a node for every handler under the same parent,
        marked active exactly for the subject's own entry. */
    function Siblings(q: Hierarchy.Query): (nodes: seq<Hierarchy.Node>)
      reads this`current, this`handlers
      ensures var (name, params) := Hierarchy.Subject(q, CurrentName(), CurrentParameters());
        forall n :: n in nodes <==>
          exists i :: 0 <= i < |handlers| && Hierarchy.IsSibling(handlers[i], name)
                      && n == Hierarchy.NodeOf(handlers[i], params, Some(EntryName(handlers[i]).value == name))
    {
      var (name, params) := Hierarchy.Subject(q, CurrentName(), CurrentParameters());
      Hierarchy.SiblingsMembers(handlers, name, params);
      Hierarchy.Siblings(handlers, name, params)
    }

    // ---- state

    /** `start()` */
    method Start()
      modifies this`stopped
      ensures !stopped
    {
      stopped := false;
    }

    /** `stop()`: later matches only emit `route:unhandled` (and cancel). */
    method Stop()
      modifies this`stopped
      ensures stopped
    {
      stopped := true;
    }

    method PrependFilter(registry: FilterRegistry, before: FilterArg, after: FilterArg)
      modifies this`filters
      ensures filters == AddFilter(old(filters), CreateFilter(registry.filters, before, after), true)
    {
      var f := CreateFilter(registry.filters, before, after);
      if !IsEmptyFilter(f) {
        filters := [f] + filters;
      }
    }

    method AppendFilter(registry: FilterRegistry, before: FilterArg, after: FilterArg)
      modifies this`filters
      ensures filters == AddFilter(old(filters), CreateFilter(registry.filters, before, after), false)
    {
      var f := CreateFilter(registry.filters, before, after);
      if !IsEmptyFilter(f) {
        filters := filters + [f];
      }
    }

    // ---- registration

    /** `route(routeName, route, config)`. The arguments are read as
        `ReadArgs` says; a configuration object (a RegExp, a plain object or
        a function) becomes a new Route of the router's `routeConstructor`;
        the template gets the router's path; the entry is appended, and put
        first in the history's entries unless the router has history
        disabled. A route that is neither a string nor a RegExp makes
        `_routeToRegExp` throw (`ok` is false) after the Route was made. */
    method AddRoute(args: seq<Arg<Route>>) returns (ok: bool)
      requires Wf(history) && this in history.routers
      requires forall i :: 0 <= i < |args| && args[i].RouteObj? ==> args[i].r in history.routes
      modifies this`handlers, history`entries, history`routes
      ensures Wf(history) && this in history.routers
      ensures var reg := ReadArgs(args);
        var target := Prefixed(PathOf(cfg), reg.target);
        ok == PatternOf(target).Some?
        && (!ok ==> handlers == old(handlers) && history.entries == old(history.entries))
        && (ok ==> |handlers| == |old(handlers)| + 1 && handlers[..|old(handlers)|] == old(handlers)
                   && handlers[|old(handlers)|].pattern == PatternOf(target).value
                   && handlers[|old(handlers)|].routeName == reg.name
                   && handlers[|old(handlers)|].routePath == TemplateOf(target)
                   && history.entries == (if cfg.history then [(this, |old(handlers)|)] else []) + old(history.entries))
        && (ok && !Wrapped(reg.config) ==> handlers[|old(handlers)|].handler == HandlerFor(reg.config))
        && (ok && Wrapped(reg.config) ==>
              var h := handlers[|old(handlers)|].handler;
              h.RouteH? && fresh(h.route) && h.route.hooks == HooksFor(cfg.routeConstructor, reg.config)
              && h.route.sub == null && h.route.filters == []
              && history.routes == old(history.routes) + {h.route})
      ensures !Wrapped(ReadArgs(args).config) ==> history.routes == old(history.routes)
      ensures old(history.routes) <= history.routes
      ensures forall rt :: rt in history.routes && rt !in old(history.routes) ==> fresh(rt) && rt.sub == null
    {
      var reg := ReadArgs(args);
      var handler: HandlerRef;
      if Wrapped(reg.config) {
        var route := new Route(history, HooksFor(cfg.routeConstructor, reg.config), null);
        handler := RouteH(route);
      } else {
        handler := HandlerFor(reg.config);
      }
      var target := Prefixed(PathOf(cfg), reg.target);
      var pattern := PatternOf(target);
      if pattern.None? {
        return false;
      }
      handlers := handlers + [Entry(pattern.value, reg.name, TemplateOf(target), handler)];
      if cfg.history {
        history.entries := [(this, |handlers| - 1)] + history.entries;
      }
      ok := true;
    }

    /** `section(routeName, root, options)`: a Section whose router takes
        `options` with `root` (the given root, or the route name when it is
        not a string, unless `options` names one) and history disabled, is
        registered under the root followed by an optional `path` splat. */
    method Section(routeName: string, root: Option<string>, options: SectionOptions) returns (section: Route)
      requires Wf(history) && this in history.routers
      modifies this`handlers, history`entries, history`routes, history`routers
      ensures Wf(history) && this in history.routers
      ensures fresh(section) && section.sub != null && fresh(section.sub) && section.hooks == DefaultHooks
      ensures section.sub.cfg == SectionConfig(routeName, root, options) && !section.sub.cfg.history
      ensures section.sub.handlers == [] && section.sub.current == None
      ensures var target := Prefixed<Route>(PathOf(cfg), Text(SectionRoot(routeName, root) + "(/*path)"));
        |handlers| == |old(handlers)| + 1 && handlers[..|old(handlers)|] == old(handlers)
        && handlers[|old(handlers)|] == Entry(Compiled(target.s), Some(routeName), Some(target.s), RouteH(section))
      ensures history.entries == (if cfg.history then [(this, |old(handlers)|)] else []) + old(history.entries)
      ensures history.routes == old(history.routes) + {section}
      ensures history.routers == old(history.routers) + {section.sub}
    {
      var sub := new Router(history, SectionConfig(routeName, root, options), scan);
      section := new Route(history, DefaultHooks, sub);
      var ok := AddRoute([Text(routeName), Text(SectionRoot(routeName, root) + "(/*path)"), RouteObj(section)]);
    }

    // ---- navigation

    /** `navigate(fragment, {trigger, replace})`. */
    method Navigate(fragment: string, trigger: bool, replace: bool, fuel: nat) returns (status: Status)
      requires Wf(history) && this in history.routers
      modifies history.routers`current, history.routers`previous, history`fragment, history`trace
      ensures Committed(history, old(Snapshot(history)),
                        old(NavigateW(history, this, StartWorld(history), fuel, fragment, trigger, replace)), status)
    {
      var s := NavigateW(history, this, StartWorld(history), fuel, fragment, trigger, replace);
      history.Commit(s.w);
      status := s.status;
    }

    /** `navigateTo(routeName, params, options)`: navigate to the url
        `getUrl` builds. */
    method NavigateTo(name: Option<string>, params: UrlArg, trigger: bool, replace: bool, fuel: nat) returns (status: Status)
      requires Wf(history) && this in history.routers
      modifies history.routers`current, history.routers`previous, history`fragment, history`trace
      ensures Committed(history, old(Snapshot(history)),
                        old(NavigateW(history, this, StartWorld(history), fuel, GetUrl(name, [params]), trigger, replace)), status)
    {
      status := Navigate(GetUrl(name, [params]), trigger, replace, fuel);
    }

    /** `executeUrl(fragment)`: the first entry, in registration order,
        whose pattern accepts the fragment has its callback called; whether
        there was one. */
    method ExecuteUrl(fragment: string, fuel: nat) returns (found: bool, status: Status)
      requires Wf(history) && this in history.routers
      modifies history.routers`current, history.routers`previous, history`fragment, history`trace
      ensures found <==> exists i :: 0 <= i < |handlers| && scan(handlers[i].pattern, fragment).Some?
      ensures Committed(history, old(Snapshot(history)),
                        old(ExecuteUrlW(history, this, StartWorld(history), fuel, fragment)), status)
    {
      var i := 0;
      while i < |handlers| && scan(handlers[i].pattern, fragment).None?
        invariant 0 <= i <= |handlers|
        invariant forall j :: 0 <= j < i ==> scan(handlers[j].pattern, fragment).None?
      {
        i := i + 1;
      }
      var s := ExecuteUrlW(history, this, StartWorld(history), fuel, fragment);
      history.Commit(s.w);
      found, status := i < |handlers|, s.status;
    }

    /** `executeRoute(routeName, params)`: `executeUrl` on the url `getUrl`
        builds. */
    method ExecuteRoute(name: Option<string>, params: UrlArg, fuel: nat) returns (found: bool, status: Status)
      requires Wf(history) && this in history.routers
      modifies history.routers`current, history.routers`previous, history`fragment, history`trace
      ensures found <==> exists i :: 0 <= i < |handlers| && scan(handlers[i].pattern, GetUrl(name, [params])).Some?
      ensures Committed(history, old(Snapshot(history)),
                        old(ExecuteUrlW(history, this, StartWorld(history), fuel, GetUrl(name, [params]))), status)
    {
      found, status := ExecuteUrl(GetUrl(name, [params]), fuel);
    }
  }

  // -------------------------------------------------------------------
  // Registration helpers

  /** `options.path || path` */
  function PathOf(c: Config): Val {
    if Truthy(c.optionsPath) then c.optionsPath else c.protoPath
  }

  /** The handler's pattern: a template is compiled, a RegExp is kept;
      anything else makes `_routeToRegExp` throw. */
  function PatternOf(target: Arg<Route>): Option<Pattern> {
    match target
    case Text(s) => Some(Compiled(s))
    case RegExp(id) => Some(Given(id))
    case _ => None
  }

  /** `routePath`: the template when the route is a string. */
  function TemplateOf(target: Arg<Route>): Option<string> {
    if target.Text? then Some(target.s) else None
  }

  /** A configuration that is not wrapped is the handler itself. */
  function HandlerFor(config: Arg<Route>): HandlerRef
    requires !Wrapped(config)
  {
    match config
    case Text(s) => MethodH(s)
    case RouteObj(r) => RouteH(r)
    case Other(t) => OtherH(t)
  }

  /** What `section` reads from its `options`. */
  datatype SectionOptions = SectionOptions(path: Val, root: Option<string>, defaults: Dict)

  /** The section's root: the given string, else the route name. */
  function SectionRoot(routeName: string, root: Option<string>): string {
    if root.Some? then root.value else routeName
  }

  /** The options of a Section's router: `{root}` extended with `options`,
      and history turned off. */
  function SectionConfig(routeName: string, root: Option<string>, options: SectionOptions): (c: Config)
    ensures !c.history && c.optionsPath == options.path && c.optionsDefaults == options.defaults
    ensures c.optionsRoot == if options.root.Some? then options.root.value else SectionRoot(routeName, root)
  {
    Config(options.path, Undef, if options.root.Some? then options.root.value else SectionRoot(routeName, root),
           "", options.defaults, [], false, Undef, {}, DefaultRoute)
  }
}
