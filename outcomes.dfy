/**
 * What a lifecycle hook or a filter gives back, how `_runHandler` reads it,
 * and the sequential chain `_runFilters` builds from a list of filters.
 * Each hook is represented by the result of calling it.
 */
module Outcomes {
  import opened SeqFacts
  import opened JsValues

  /** How a promise returned by a hook ends. */
  datatype PromiseState = Fulfils | Rejects(withError: bool) | Stays

  /** The result of calling a hook. */
  datatype Hook =
    | Returns(v: Val)               // a plain value; `undefined` when the hook returns nothing
    | RedirectTo(fragment: string)  // the object `route.redirect(fragment)` builds
    | Promise(state: PromiseState)  // a promise, which the pipeline waits on

  /** How the promise that `_runHandler` answers with ends. */
  datatype Settle = Resolved | Rejected | Unsettled

  /** What `_runHandler` does before it answers. */
  datatype Effect = NoEffect | Redirect(fragment: string) | Cancel

  /** A hook whose result carries a truthy `redirectFragment` redirects, one
      that returns exactly `false` cancels, anything else has no effect. */
  function EffectOf(h: Hook): (e: Effect)
    ensures e.Redirect? <==> h.RedirectTo? && h.fragment != ""
    ensures e.Redirect? ==> e.fragment == h.fragment
    ensures e.Cancel? <==> h == Returns(Bool(false))
  {
    match h
    case RedirectTo(f) => if f != "" then Redirect(f) else NoEffect
    case Returns(v) => if v == Bool(false) then Cancel else NoEffect
    case Promise(_) => NoEffect
  }

  /** `_runHandler` rejects after a redirect or a cancel; otherwise it follows
      the result (`$.when`), which resolves at once for a plain value. */
  function SettleOf(h: Hook): (s: Settle)
    ensures s == Rejected <==> EffectOf(h) != NoEffect || (h.Promise? && h.state.Rejects?)
    ensures s == Unsettled <==> h == Promise(Stays)
  {
    if EffectOf(h) != NoEffect then Rejected
    else match h
      case Promise(st) => (match st case Fulfils => Resolved case Rejects(_) => Rejected case Stays => Unsettled)
      case _ => Resolved
  }

  /** The number of hooks a sequential chain calls: each runs only after the
      one before it resolved. */
  function Called(hs: seq<Hook>): (n: nat)
    ensures n <= |hs|
  {
    if hs == [] then 0
    else if SettleOf(hs[0]) == Resolved then 1 + Called(hs[1..])
    else 1
  }

  /** How the chain ends: as its first hook that does not resolve. */
  function ChainSettle(hs: seq<Hook>): Settle {
    if hs == [] then Resolved
    else if SettleOf(hs[0]) == Resolved then ChainSettle(hs[1..])
    else SettleOf(hs[0])
  }

  /** `_runFilters` resolves its own promise when the chain resolves and
      never settles it otherwise. */
  function FiltersSettle(hs: seq<Hook>): (s: Settle)
    ensures s != Rejected
  {
    if ChainSettle(hs) == Resolved then Resolved else Unsettled
  }

  predicate AllResolve(hs: seq<Hook>) {
    forall i :: 0 <= i < |hs| ==> SettleOf(hs[i]) == Resolved
  }

  /** The chain stops at the first hook that does not resolve: every hook
      before it resolved, the chain ends as that hook, and no later hook is
      called. When every hook resolves, all are called and the chain resolves. */
  lemma {:induction false} ChainStops(hs: seq<Hook>)
    ensures forall i :: 0 <= i < Called(hs) - 1 ==> SettleOf(hs[i]) == Resolved
    ensures AllResolve(hs) <==> ChainSettle(hs) == Resolved
    ensures AllResolve(hs) ==> Called(hs) == |hs|
    ensures !AllResolve(hs) ==> Called(hs) > 0 && SettleOf(hs[Called(hs) - 1]) != Resolved
                                && ChainSettle(hs) == SettleOf(hs[Called(hs) - 1])
  {
    if hs != [] {
      ChainStops(hs[1..]);
      if SettleOf(hs[0]) == Resolved {
        assert forall i :: 1 <= i < |hs| ==> hs[i] == hs[1..][i - 1];
        assert AllResolve(hs) <==> AllResolve(hs[1..]);
      }
    }
  }

  /** Router filters run before route filters: the combined chain is the
      first one followed, if it resolves, by the second. */
  lemma {:induction false} ChainAppend(a: seq<Hook>, b: seq<Hook>)
    ensures Called(a + b) == if ChainSettle(a) == Resolved then |a| + Called(b) else Called(a)
    ensures ChainSettle(a + b) == if ChainSettle(a) == Resolved then ChainSettle(b) else ChainSettle(a)
  {
    if a == [] {
      EmptyAppend(b);
    } else {
      DropAppend(a, b);
      ChainAppend(a[1..], b);
      if SettleOf(a[0]) == Resolved {
        ChainStops(a);
      }
    }
  }

  // -------------------------------------------------------------------
  // Filters

  /** An argument of `createFilter`: a function, the name of a registered
      filter, or anything else. */
  datatype FilterArg = Fn(hook: Hook) | Named(name: string) | NotFn

  /** A filter object, with its `beforeRoute` and `afterRoute` functions. */
  datatype Filter = Filter(before: Option<Hook>, after: Option<Hook>)

  predicate IsEmptyFilter(f: Filter) {
    f.before.None? && f.after.None?
  }

  /** `Router.filters[name]`. */
  function Lookup(registry: map<string, Hook>, name: string): FilterArg {
    if name in registry then Fn(registry[name]) else NotFn
  }

  /** `Router.createFilter(before, after)`. A named `after` is looked up and
      stored as the `before` function, replacing whatever `before` was; the
      `after` function is set only from a function. */
  function CreateFilter(registry: map<string, Hook>, before: FilterArg, after: FilterArg): (f: Filter)
    ensures f.after == (if after.Fn? then Some(after.hook) else None)
    ensures after.Named? ==> f.before == (if after.name in registry then Some(registry[after.name]) else None)
    ensures !after.Named? && before.Fn? ==> f.before == Some(before.hook)
    ensures !after.Named? && before.Named? ==>
              f.before == (if before.name in registry then Some(registry[before.name]) else None)
    ensures !after.Named? && before.NotFn? ==> f.before.None?
  {
    var b := if before.Named? then Lookup(registry, before.name) else before;
    var b' := if after.Named? then Lookup(registry, after.name) else b;
    Filter(if b'.Fn? then Some(b'.hook) else None, if after.Fn? then Some(after.hook) else None)
  }

  /** `_.compact(_.pluck(filters, which))`: the hooks of one stage, in order. */
  function StageHooks(fs: seq<Filter>, before: bool): seq<Hook> {
    if fs == [] then []
    else
      var h := if before then fs[0].before else fs[0].after;
      (if h.Some? then [h.value] else []) + StageHooks(fs[1..], before)
  }

  /** The stage hooks of the router's filters followed by the route's are
      the router's stage hooks followed by the route's. */
  lemma {:induction false} StageHooksAppend(a: seq<Filter>, b: seq<Filter>, before: bool)
    ensures StageHooks(a + b, before) == StageHooks(a, before) + StageHooks(b, before)
  {
    if a == [] {
      EmptyAppend(b);
      EmptyAppend(StageHooks(b, before));
    } else {
      DropAppend(a, b);
      StageHooksAppend(a[1..], b, before);
      var h := if before then a[0].before else a[0].after;
      Assoc(if h.Some? then [h.value] else [], StageHooks(a[1..], before), StageHooks(b, before));
    }
  }

  /** A filter without the stage's function is skipped; one with it
      contributes that function, in its place. */
  lemma {:induction false} StageHooksMembers(fs: seq<Filter>, before: bool)
    ensures |StageHooks(fs, before)| <= |fs|
    ensures forall h :: h in StageHooks(fs, before) ==>
              exists i :: 0 <= i < |fs| && (if before then fs[i].before else fs[i].after) == Some(h)
    ensures (forall i :: 0 <= i < |fs| ==> (if before then fs[i].before else fs[i].after).None?)
              ==> StageHooks(fs, before) == []
  {
    if fs != [] {
      StageHooksMembers(fs[1..], before);
      forall h | h in StageHooks(fs, before)
        ensures exists i :: 0 <= i < |fs| && (if before then fs[i].before else fs[i].after) == Some(h)
      {
        var first := if before then fs[0].before else fs[0].after;
        if first.Some? && h == first.value {
        } else {
          assert h in StageHooks(fs[1..], before);
          var i :| 0 <= i < |fs[1..]| && (if before then fs[1..][i].before else fs[1..][i].after) == Some(h);
          assert fs[1..][i] == fs[i + 1];
        }
      }
      if forall i :: 0 <= i < |fs| ==> (if before then fs[i].before else fs[i].after).None? {
        assert forall i :: 0 <= i < |fs[1..]| ==> fs[1..][i] == fs[i + 1];
      }
    }
  }

  /** Adding a filter to a list: an empty filter adds nothing; otherwise
      `unshift` puts it first and `push` puts it last. */
  function AddFilter(fs: seq<Filter>, f: Filter, atFront: bool): (r: seq<Filter>)
    ensures IsEmptyFilter(f) ==> r == fs
    ensures !IsEmptyFilter(f) ==> |r| == |fs| + 1 && f in r
    ensures !IsEmptyFilter(f) && atFront ==> r[0] == f && r[1..] == fs
    ensures !IsEmptyFilter(f) && !atFront ==> r[|fs|] == f && r[..|fs|] == fs
  {
    if IsEmptyFilter(f) then fs else if atFront then [f] + fs else fs + [f]
  }
}
