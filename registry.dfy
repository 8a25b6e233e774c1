/**
 * The route registry of `Backbone.Blazer.Router`, as values: how `route`
 * reads its arguments and derives a name, the entries of `handlers`, the
 * lookups by name, `getUrl`, `matchesUrl`, and the parameters a matched
 * fragment yields. The router class keeps its `handlers` list in a field and
 * answers its queries with these functions.
 */
module Registry {
  import opened SeqFacts
  import opened JsValues
  import opened UrlTemplate
  import opened UrlSegments

  // -------------------------------------------------------------------
  // Names derived from templates

  /** `t.replace(re, '-')` for `re` = `/\/[:\*]?/g` (`star`) or `/\/:?/g`:
      each slash, with the sigil right after it, becomes a dash. */
  function Dashes(t: string, star: bool): (r: string)
    ensures '/' !in r
    ensures |r| <= |t|
  {
    if t == [] then []
    else if t[0] == '/' then
      if |t| > 1 && (t[1] == ':' || (star && t[1] == '*')) then "-" + Dashes(t[2..], star)
      else "-" + Dashes(t[1..], star)
    else [t[0]] + Dashes(t[1..], star)
  }

  /** The implicit name of a route: the template with its separators turned
      into dashes, lower-cased. */
  function DeriveName(t: string): string {
    Lower(Dashes(t, true))
  }

  /** A segment as a name part: the literal text, or the key of a marker. */
  function NameTail(segs: seq<Seg>): string {
    if segs == [] then ""
    else "-" + (if segs[0].LitSeg? then segs[0].lit else segs[0].key) + NameTail(segs[1..])
  }

  lemma {:induction false} DashesPlain(a: string, x: string, star: bool)
    requires '/' !in a
    ensures Dashes(a + x, star) == a + Dashes(x, star)
  {
    if a == [] {
      EmptyAppend(x);
      EmptyAppend(Dashes(x, star));
    } else {
      DropAppend(a, x);
      DashesPlain(a[1..], x, star);
      Assoc([a[0]], a[1..], Dashes(x, star));
      ConsSplit(a);
    }
  }

  lemma DashesLit(l: string, rest: string)
    requires PlainText(l)
    requires rest == [] || rest[0] == '/'
    ensures Dashes("/" + l + rest, true) == "-" + l + Dashes(rest, true)
  {
    assert '/' !in l by {
      assert forall i :: 0 <= i < |l| ==> l[i] != '/';
    }
    Assoc("/", l, rest);
    ConsDrop('/', l + rest);
    if l != [] {
      DropAppend(l, rest);
      assert !IsSigil(l[0]);
    }
    DashesPlain(l, rest, true);
    Assoc("-", l, Dashes(rest, true));
  }

  lemma DashesKey(sigil: char, k: string, rest: string)
    requires IsSigil(sigil) && IsKey(k)
    ensures Dashes("/" + [sigil] + k + rest, true) == "-" + k + Dashes(rest, true)
  {
    Slices("/" + [sigil], k, rest);
    assert '/' !in k by {
      assert forall i :: 0 <= i < |k| ==> IsWordChar(k[i]);
    }
    DashesPlain(k, rest, true);
    Assoc("-", k, Dashes(rest, true));
  }

  lemma {:induction false} DashesTail(segs: seq<Seg>)
    requires ValidSegs(segs)
    ensures Dashes(Tail(segs), true) == NameTail(segs)
    decreases |segs|
  {
    if segs != [] {
      ValidSegsTail(segs);
      DashesTail(segs[1..]);
      var g := segs[0];
      assert Tail(segs) == "/" + SegSource(g) + Tail(segs[1..]);
      if g.LitSeg? {
        DashesLit(g.lit, Tail(segs[1..]));
      } else {
        Assoc("/", [SigilOf(g.splat)], g.key);
        DashesKey(SigilOf(g.splat), g.key, Tail(segs[1..]));
      }
    }
  }

  /** A template written as segments is named by its segments joined with
      dashes, each marker contributing its key: `show/all` is `show-all`,
      `users/:id` is `users-id`. */
  lemma DeriveNameSegments(head: string, segs: seq<Seg>)
    requires PlainText(head) && ValidSegs(segs)
    ensures DeriveName(head + Tail(segs)) == Lower(head + NameTail(segs))
  {
    assert '/' !in head by {
      assert forall i :: 0 <= i < |head| ==> head[i] != '/';
    }
    DashesPlain(head, Tail(segs), true);
    DashesTail(segs);
  }

  // -------------------------------------------------------------------
  // The arguments of `route`

  /** A value passed to `route`. `Other(truthy)` is any other value, such as
      `undefined`, `null`, a number or a boolean. */
  datatype Arg<R> = Text(s: string) | RegExp(id: nat) | RouteObj(r: R) | PlainObj(options: Dict) | Function | Other(truthy: bool)

  predicate ArgTruthy<R>(a: Arg<R>) {
    match a
    case Text(s) => s != ""
    case Other(t) => t
    case _ => true
  }

  /** `_.isObject(config) && !(config instanceof Route)`: configs that are
      turned into a new Route. */
  predicate Wrapped<R>(a: Arg<R>) {
    a.RegExp? || a.PlainObj? || a.Function?
  }

  function ArgAt<R>(args: seq<Arg<R>>, i: nat): Arg<R> {
    if i < |args| then args[i] else Other(false)
  }

  /** What `route(routeName, route, config)` reads from its arguments: the
      name (when it is a string), the route and the handler configuration. */
  datatype Registration<R> = Registration(name: Option<string>, target: Arg<R>, config: Arg<R>)

  function ReadArgs<R>(args: seq<Arg<R>>): (reg: Registration<R>)
    ensures |args| < 3 && !ArgAt(args, 1).Text? ==>
              reg.target == ArgAt(args, 0) && reg.config == ArgAt(args, 1)
              && reg.name == (if args != [] && args[0].Text? then Some(DeriveName(args[0].s)) else None)
    ensures !(|args| < 3 && !ArgAt(args, 1).Text?) ==>
              reg.target == args[1] && reg.name == (if args[0].Text? then Some(args[0].s) else None)
              && reg.config == (if ArgTruthy(ArgAt(args, 2)) then args[2] else PlainObj([]))
  {
    var a1, a2, a3 := ArgAt(args, 0), ArgAt(args, 1), ArgAt(args, 2);
    if |args| < 3 && !a2.Text? then
      Registration(if a1.Text? then Some(DeriveName(a1.s)) else None, a1, a2)
    else
      Registration(if a1.Text? then Some(a1.s) else None, a2, if ArgTruthy(a3) then a3 else PlainObj([]))
  }

  /** `options.path || path`, then the prefix: it replaces an empty template
      and is joined to any other with a slash. Non-string routes are kept. */
  function Prefixed<R>(path: Val, target: Arg<R>): (r: Arg<R>)
    ensures !(target.Text? && path.Str?) ==> r == target
    ensures target.Text? && path.Str? ==>
              r == Text(if target.s == "" then path.s else path.s + "/" + target.s)
  {
    if target.Text? && path.Str? then
      Text(if target.s == "" then path.s else path.s + "/" + target.s)
    else target
  }

  // -------------------------------------------------------------------
  // Entries of `handlers`

  /** What a handler's regular expression was made from: a template (through
      `_routeToRegExp`) or a RegExp given as the route. */
  datatype Pattern = Compiled(template: string) | Given(id: nat)

  /** An entry of `router.handlers`: its pattern, the name and template it was
      registered with, and the handler. */
  datatype Entry<H> = Entry(pattern: Pattern, routeName: Option<string>, routePath: Option<string>, handler: H)

  /** `handler.name` and `handler.route` are set only when truthy. */
  function EntryName<H>(e: Entry<H>): Option<string> {
    if e.routeName.Some? && e.routeName.value != "" then e.routeName else None
  }

  function EntryRoute<H>(e: Entry<H>): Option<string> {
    if e.routePath.Some? && e.routePath.value != "" then e.routePath else None
  }

  /** `get(name)`: the first entry, in registration order, whose name is
      `name` (a string; a non-string name finds nothing). */
  function Find<H>(hs: seq<Entry<H>>, name: Option<string>): (r: Option<nat>)
    ensures r.Some? ==> r.value < |hs| && name.Some? && EntryName(hs[r.value]) == name
    ensures r.Some? ==> forall j :: 0 <= j < r.value ==> EntryName(hs[j]) != name
    ensures r.None? ==> forall j :: 0 <= j < |hs| ==> EntryName(hs[j]) != name || name.None?
  {
    if hs == [] || name.None? then None
    else if EntryName(hs[0]) == name then Some(0)
    else
      var r := Find(hs[1..], name);
      if r.Some? then Some(r.value + 1) else None
  }

  /** `getRoute(name)`: the template of the named entry, when it has one. */
  function GetRoute<H>(hs: seq<Entry<H>>, name: Option<string>): (r: Option<string>)
    ensures r.Some? ==> r.value != ""
    ensures (forall j :: 0 <= j < |hs| ==> EntryName(hs[j]) != name) ==> r.None?
    ensures forall i :: (name.Some? && 0 <= i < |hs| && EntryName(hs[i]) == name
                         && (forall j :: 0 <= j < i ==> EntryName(hs[j]) != name)) ==> r == EntryRoute(hs[i])
  {
    var i := Find(hs, name);
    if i.Some? then EntryRoute(hs[i.value]) else None
  }

  /** `getHandler(name)`. */
  function GetHandler<H>(hs: seq<Entry<H>>, name: Option<string>): (r: Option<H>)
    ensures (forall j :: 0 <= j < |hs| ==> EntryName(hs[j]) != name) ==> r.None?
    ensures forall i :: (name.Some? && 0 <= i < |hs| && EntryName(hs[i]) == name
                         && (forall j :: 0 <= j < i ==> EntryName(hs[j]) != name)) ==> r == Some(hs[i].handler)
  {
    var i := Find(hs, name);
    if i.Some? then Some(hs[i.value].handler) else None
  }

  /** Registering appends: the entries before stay, in order, and a name that
      was already taken keeps finding its first entry. */
  lemma {:induction false} FindAppend<H>(hs: seq<Entry<H>>, e: Entry<H>, name: Option<string>)
    ensures Find(hs + [e], name) == if Find(hs, name).Some? then Find(hs, name)
                                    else if name.Some? && EntryName(e) == name then Some(|hs|) else None
  {
    if hs == [] {
      EmptyAppend([e]);
    } else {
      DropAppend(hs, [e]);
      FindAppend(hs[1..], e, name);
    }
  }

  // -------------------------------------------------------------------
  // `getUrl`, `matchesUrl`

  /** `options.root || root || ''` */
  function Root(optionsRoot: string, protoRoot: string): string {
    if optionsRoot != "" then optionsRoot else protoRoot
  }

  /** The arguments `getUrl` passes to `url`: `{}` when there are none, and a
      leading plain object completed with `options.defaults`, then
      `defaults`, without overriding its own values. */
  function UrlArgs(args: seq<UrlArg>, optionsDefaults: Dict, protoDefaults: Dict): (r: seq<UrlArg>)
    ensures |r| == if args == [] then 1 else |args|
    ensures args == [] ==> r == [Plain(Defaults(Defaults([], optionsDefaults), protoDefaults))]
    ensures args != [] ==> r[1..] == args[1..]
    ensures args != [] && !args[0].Plain? ==> r == args
    ensures args != [] && args[0].Plain? ==> r[0] == Plain(Defaults(Defaults(args[0].d, optionsDefaults), protoDefaults))
  {
    var a := if args == [] then [Plain([])] else args;
    if a[0].Plain? then [Plain(Defaults(Defaults(a[0].d, optionsDefaults), protoDefaults))] + a[1..] else a
  }

  /** The root and a url joined by a slash, either left out when empty. */
  function JoinRoot(root: string, url: string): (r: string)
    ensures url == "" ==> r == root
    ensures url != "" && root == "" ==> r == url
    ensures url != "" && root != "" ==> r == root + "/" + url
  {
    if url == "" then root else if root == "" then url else root + "/" + url
  }

  /** `getUrl(name, ...args)`. */
  function GetUrl<H>(hs: seq<Entry<H>>, root: string, optionsDefaults: Dict, protoDefaults: Dict,
                     name: Option<string>, args: seq<UrlArg>): (u: string)
    ensures GetRoute(hs, name).None? ==> u == root
    ensures GetRoute(hs, name).Some? ==>
              u == JoinRoot(root, Url(GetRoute(hs, name).value, UrlArgs(args, optionsDefaults, protoDefaults)))
  {
    match GetRoute(hs, name)
    case None => root
    case Some(t) => JoinRoot(root, Url(t, UrlArgs(args, optionsDefaults, protoDefaults)))
  }

  /** `matchesUrl(url)`: exact equality with the current record's url, and
      with `''` when there is no current record. `url` is any value. */
  function MatchesUrl(currentUrl: Option<string>, url: Val): bool {
    if currentUrl.None? then url == Str("")
    else if currentUrl.value == "" && url == Str(currentUrl.value) then true
    else if currentUrl.value == "" then false
    else url.Str? && currentUrl.value == url.s
  }

  /** The three branches of `matchesUrl` amount to string equality. */
  lemma MatchesUrlEquality(currentUrl: Option<string>, url: Val)
    ensures MatchesUrl(currentUrl, url) <==> url == Str(if currentUrl.Some? then currentUrl.value else "")
  {
  }

  // -------------------------------------------------------------------
  // Parameters of a matched fragment

  /** The keys of the markers other than `params`, in template order, and the
      object the last `params` marker's capture deserializes to. The capture
      of a `params` marker is taken at the number of other keys seen before it. */
  function ScanKeys(keys: seq<string>, captures: seq<Val>, args: seq<string>, bucket: Dict): (seq<string>, Dict)
    decreases |keys|
  {
    if keys == [] then (args, bucket)
    else if keys[0] == "params" then
      var v := if |args| < |captures| then captures[|args|] else Undef;
      ScanKeys(keys[1..], captures, args, Deserialize(v))
    else ScanKeys(keys[1..], captures, args + [keys[0]], bucket)
  }

  /** `_.object(keys, values)` */
  function Zip(keys: seq<string>, values: seq<Val>, acc: Dict): (r: Dict)
    ensures UniqueKeys(acc) ==> UniqueKeys(r)
    decreases |keys|
  {
    if keys == [] then acc
    else Zip(keys[1..], if |values| > 0 then values[1..] else [], Put(acc, keys[0], if |values| > 0 then values[0] else Undef))
  }

  /** `routeData.parameters` for a fragment whose captures are `captures`:
      the defaults, extended with the marker names zipped with the captures,
      then completed (never overridden) by the deserialized `params` capture. */
  function MatchParameters(route: Option<string>, captures: seq<Val>, defaults: Dict): Dict {
    if route.Some? && captures != [] then
      var (args, bucket) := ScanKeys(MarkerKeys(Parse(route.value)), captures, [], []);
      Defaults(Extend(defaults, Zip(args, captures[..Min(|args|, |captures|)], [])), bucket)
    else defaults
  }

  function Min(a: nat, b: nat): nat {
    if a < b then a else b
  }

  /** `_.extend({}, router.defaults, router.options.defaults)` */
  function StartParameters(protoDefaults: Dict, optionsDefaults: Dict): Dict {
    Extend(Extend([], protoDefaults), optionsDefaults)
  }

  lemma {:induction false} DeserializeUnique(v: Val)
    ensures UniqueKeys(Deserialize(v))
  {
    if v.Str? && v.s != "" {
      CollectUnique([], Split(v.s, '+'));
    }
  }

  lemma {:induction false} CollectUnique(acc: Dict, pairs: seq<string>)
    requires UniqueKeys(acc)
    ensures UniqueKeys(Collect(acc, pairs))
    decreases |pairs|
  {
    if pairs != [] {
      var values := Split(pairs[0], ':');
      CollectUnique(Put(acc, values[0], if |values| > 1 then Str(values[1]) else Undef), pairs[1..]);
    }
  }

  /** The marker keys other than `params`, in order. */
  function NonParams(keys: seq<string>): (r: seq<string>)
    ensures "params" !in r
  {
    if keys == [] then [] else (if keys[0] == "params" then [] else [keys[0]]) + NonParams(keys[1..])
  }

  /** The scan collects exactly the keys other than `params`, and its bucket
      is always a plain object with distinct keys. */
  lemma {:induction false} ScanKeysArgs(keys: seq<string>, captures: seq<Val>, args: seq<string>, bucket: Dict)
    requires UniqueKeys(bucket)
    ensures ScanKeys(keys, captures, args, bucket).0 == args + NonParams(keys)
    ensures UniqueKeys(ScanKeys(keys, captures, args, bucket).1)
    decreases |keys|
  {
    if keys == [] {
      EmptyAppend(args);
    } else if keys[0] == "params" {
      var v := if |args| < |captures| then captures[|args|] else Undef;
      DeserializeUnique(v);
      ScanKeysArgs(keys[1..], captures, args, Deserialize(v));
      EmptyAppend(NonParams(keys[1..]));
    } else {
      ScanKeysArgs(keys[1..], captures, args + [keys[0]], bucket);
      Assoc(args, [keys[0]], NonParams(keys[1..]));
    }
  }

  /** `_.object(keys, values)` gives each key the value at its last position,
      `undefined` past the end of the values. */
  lemma {:induction false} ZipGet(keys: seq<string>, values: seq<Val>, acc: Dict, i: nat)
    requires i < |keys| && keys[i] !in keys[i + 1..]
    ensures Get(Zip(keys, values, acc), keys[i]) == if i < |values| then values[i] else Undef
    decreases |keys|
  {
    var acc' := Put(acc, keys[0], if |values| > 0 then values[0] else Undef);
    var values' := if |values| > 0 then values[1..] else [];
    if i == 0 {
      ZipSkips(keys[1..], values', acc', keys[0]);
    } else {
      assert keys[1..][i - 1] == keys[i] && keys[1..][i..] == keys[i + 1..];
      ZipGet(keys[1..], values', acc', i - 1);
    }
  }

  lemma {:induction false} ZipSkips(keys: seq<string>, values: seq<Val>, acc: Dict, k: string)
    requires k !in keys
    ensures Get(Zip(keys, values, acc), k) == Get(acc, k)
    decreases |keys|
  {
    if keys != [] {
      ZipSkips(keys[1..], if |values| > 0 then values[1..] else [], Put(acc, keys[0], if |values| > 0 then values[0] else Undef), k);
    }
  }

  lemma {:induction false} ZipKeys(keys: seq<string>, values: seq<Val>, acc: Dict)
    ensures KeySet(Zip(keys, values, acc)) == KeySet(acc) + set k | k in keys
    decreases |keys|
  {
    if keys != [] {
      ZipKeys(keys[1..], if |values| > 0 then values[1..] else [], Put(acc, keys[0], if |values| > 0 then values[0] else Undef));
    }
  }

  /** The deserialized `params` capture of a matched fragment. */
  function Bucket(t: string, captures: seq<Val>): Dict {
    ScanKeys(MarkerKeys(Parse(t)), captures, [], []).1
  }

  /** What each parameter of a matched fragment reads: a marker key reads its
      capture (by position among the keys other than `params`), any other
      key its default; a value left `undefined` is taken from the
      deserialized `params` capture, except under a built-in name that
      neither the markers nor the defaults own: `_.defaults` reads the
      inherited member there and leaves the property unset. */
  lemma MatchParametersGet(t: string, captures: seq<Val>, defaults: Dict, k: string)
    requires captures != []
    ensures var keys := NonParams(MarkerKeys(Parse(t)));
            var v := if k in keys then
                       (var i := LastIndex(keys, k); if i < |captures| then captures[i] else Undef)
                     else Get(defaults, k);
            Get(MatchParameters(Some(t), captures, defaults), k)
            == if !v.Undef? then v
               else if Builtin(ObjectProto, k) && k !in keys && k !in KeySet(defaults) then Undef
               else Get(Bucket(t, captures), k)
  {
    var keys := NonParams(MarkerKeys(Parse(t)));
    ScanKeysArgs(MarkerKeys(Parse(t)), captures, [], []);
    EmptyAppend(keys);
    assert ScanKeys(MarkerKeys(Parse(t)), captures, [], []) == (keys, Bucket(t, captures));
    ZippedGet(keys, captures, defaults, Bucket(t, captures), k);
  }

  /** The defaults, extended by the keys zipped with the captures, then
      completed from the bucket. */
  lemma ZippedGet(keys: seq<string>, captures: seq<Val>, defaults: Dict, bucket: Dict, k: string)
    requires UniqueKeys(bucket)
    ensures var v := if k in keys then
                       (var i := LastIndex(keys, k); if i < |captures| then captures[i] else Undef)
                     else Get(defaults, k);
            Get(Defaults(Extend(defaults, Zip(keys, captures[..Min(|keys|, |captures|)], [])), bucket), k)
            == if !v.Undef? then v
               else if Builtin(ObjectProto, k) && k !in keys && k !in KeySet(defaults) then Undef
               else Get(bucket, k)
  {
    var e := Extend(defaults, Zip(keys, captures[..Min(|keys|, |captures|)], []));
    ZippedValue(keys, captures, defaults, k);
    DefaultsOver(e, bucket, k);
  }

  /** The named captures laid over the defaults: the capture at the key's
      last position, else the default; the keys are both key sets. */
  lemma ZippedValue(keys: seq<string>, captures: seq<Val>, defaults: Dict, k: string)
    ensures var e := Extend(defaults, Zip(keys, captures[..Min(|keys|, |captures|)], []));
            && Get(e, k) == (if k in keys then
                               (var i := LastIndex(keys, k); if i < |captures| then captures[i] else Undef)
                             else Get(defaults, k))
            && (k in KeySet(e) <==> k in keys || k in KeySet(defaults))
  {
    var n := Min(|keys|, |captures|);
    var z := Zip(keys, captures[..n], []);
    ExtendGet(defaults, z, k);
    ExtendKeys(defaults, z);
    ZipKeys(keys, captures[..n], []);
    if k in keys {
      var i := LastIndex(keys, k);
      ZipGet(keys, captures[..n], [], i);
    }
  }

  /** A defaults fill read back: the own value if defined, nothing for an
      inherited member's name, else the source's value. */
  lemma DefaultsOver(e: Dict, bucket: Dict, k: string)
    requires UniqueKeys(bucket)
    ensures Get(Defaults(e, bucket), k)
         == if !Get(e, k).Undef? then Get(e, k)
            else if Builtin(ObjectProto, k) && k !in KeySet(e) then Undef
            else Get(bucket, k)
  {
    DefaultsGet(e, bucket, k);
  }


  /** The last position of `k` in `keys`. */
  function LastIndex(keys: seq<string>, k: string): (i: nat)
    requires k in keys
    ensures i < |keys| && keys[i] == k && k !in keys[i + 1..]
  {
    if keys[|keys| - 1] == k then |keys| - 1
    else
      assert k in keys[..|keys| - 1] by {
        var j :| 0 <= j < |keys| && keys[j] == k;
        assert keys[..|keys| - 1][j] == k;
      }
      var i := LastIndex(keys[..|keys| - 1], k);
      assert keys[i + 1..] == keys[..|keys| - 1][i + 1..] + [keys[|keys| - 1]];
      i
  }

  /** A template with a single `params` marker: the scan finds no other key,
      and the bucket is what the first capture deserializes to. */
  lemma ScanCatchAll(captures: seq<Val>)
    requires captures != []
    ensures ScanKeys(["params"], captures, [], []) == ([], Deserialize(captures[0]))
  {
  }

  /** The catch-all round trip: a plain object whose properties can be
      carried in a `params` segment is written into the url by `url`, and the
      parameters of the matched fragment, whose capture is that segment, are
      the defaults completed by exactly that object. With no defaults they are
      the object itself, as `navigateTo('users', {foo: 'bar', biz: 'baz'})`
      shows, as long as no key is a name `Object.prototype` answers
      (`_.defaults` skips those). */
  lemma CatchAllRoundTrip(head: string, splat: bool, d: Dict, rest: seq<Val>, defaults: Dict)
    requires head != "" && PlainText(head)
    requires Carriable(d) && "params" !in KeySet(d) && "0" !in KeySet(d)
    ensures Url(head + Tail([KeySeg(splat, "params")]), [Plain(d)]) == head + "/" + Serialize(d)
    ensures MatchParameters(Some(head + Tail([KeySeg(splat, "params")])), [Str(Serialize(d))] + rest, defaults)
            == Defaults(defaults, d)
    ensures (forall i :: 0 <= i < |d| ==> !Builtin(ObjectProto, d[i].0)) ==>
              MatchParameters(Some(head + Tail([KeySeg(splat, "params")])), [Str(Serialize(d))] + rest, [])
              == d
  {
    var segs := [KeySeg(splat, "params")];
    var t := head + Tail(segs);
    assert ValidSeg(segs[0]);
    UrlCatchAll(head, splat, d);
    ParseSegments(head, segs);
    MarkerKeysAppend(LitPieces(head), TailPieces(segs));
    LitPiecesShape(head);
    TailPiecesShape(segs);
    assert SegKeys(segs) == ["params"];
    EmptyAppend(["params"]);
    assert MarkerKeys(Parse(t)) == ["params"];
    var captures := [Str(Serialize(d))] + rest;
    ScanCatchAll(captures);
    DeserializeSerialize(d);
    assert Zip([], captures[..0], []) == [];
    assert Extend(defaults, []) == defaults;
    assert MatchParameters(Some(t), captures, defaults) == Defaults(defaults, d);
    if forall i :: 0 <= i < |d| ==> !Builtin(ObjectProto, d[i].0) {
      assert Carriable(d);
      assert forall i :: 0 <= i < |d| ==> !d[i].1.Undef? && d[i].0 !in KeySet([]);
      DefaultsFresh([], d);
      EmptyAppend(d);
    }
  }
}
