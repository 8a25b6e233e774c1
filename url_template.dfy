/**
 * URL building from a route template (`Router.prototype.url`) and the
 * catch-all codec (`serializeParams` / `deserializeParams`) of the
 * current router.
 *
 * A template is scanned the way `/\/?[:\*](\w+)/g` scans it: a marker is
 * `:name` or `*name`, optionally preceded by the `/` it replaces.
 */
module UrlTemplate {
  import opened SeqFacts
  import opened JsValues

  /** `\w` */
  predicate IsWordChar(c: char) {
    ('a' <= c <= 'z') || ('A' <= c <= 'Z') || ('0' <= c <= '9') || c == '_'
  }

  /** `[:\*]` */
  predicate IsSigil(c: char) {
    c == ':' || c == '*'
  }

  /** Length of the longest run of word characters that starts `s`. */
  function WordRun(s: string): (n: nat)
    ensures n <= |s|
    ensures forall i :: 0 <= i < n ==> IsWordChar(s[i])
    ensures n < |s| ==> !IsWordChar(s[n])
  {
    if s == [] || !IsWordChar(s[0]) then 0 else 1 + WordRun(s[1..])
  }

  /** A template piece: one literal character, or one marker as the
      regular expression matches it (`slash` when it took the `/` before it). */
  datatype Piece = Lit(c: char) | Marker(slash: bool, sigil: char, key: string)

  /** The text a marker match covers. */
  function Segment(p: Piece): string {
    match p
    case Lit(c) => [c]
    case Marker(slash, sigil, key) => (if slash then "/" else "") + [sigil] + key
  }

  /** The left-to-right scan of `/\/?[:\*](\w+)/g`. */
  function Parse(s: string): seq<Piece>
    decreases |s|
  {
    if s == [] then []
    else if |s| >= 3 && s[0] == '/' && IsSigil(s[1]) && IsWordChar(s[2]) then
      var n := WordRun(s[2..]);
      [Marker(true, s[1], s[2..2 + n])] + Parse(s[2 + n..])
    else if |s| >= 2 && IsSigil(s[0]) && IsWordChar(s[1]) then
      var n := WordRun(s[1..]);
      [Marker(false, s[0], s[1..1 + n])] + Parse(s[1 + n..])
    else [Lit(s[0])] + Parse(s[1..])
  }

  function Render(ps: seq<Piece>): string {
    if ps == [] then "" else Segment(ps[0]) + Render(ps[1..])
  }

  /** The scan loses nothing: the pieces spell out the template again. */
  lemma {:induction false} ParseRender(s: string)
    ensures Render(Parse(s)) == s
    decreases |s|
  {
    if s != [] {
      var m, k := ParseHead(s);
      calc {
        Render(Parse(s));
        Render([m] + Parse(s[k..]));
      == { RenderCons(m, Parse(s[k..])); }
        Segment(m) + Render(Parse(s[k..]));
      == { ParseRender(s[k..]); }
        s[..k] + s[k..];
      == { TakeDrop(s, k); }
        s;
      }
    }
  }

  /** The first piece of a non-empty template and the length of text it covers. */
  lemma ParseHead(s: string) returns (m: Piece, k: nat)
    requires s != []
    ensures 0 < k <= |s| && Segment(m) == s[..k] && Parse(s) == [m] + Parse(s[k..])
  {
    if |s| >= 3 && s[0] == '/' && IsSigil(s[1]) && IsWordChar(s[2]) {
      m, k := HeadSlashMarker(s);
    } else if |s| >= 2 && IsSigil(s[0]) && IsWordChar(s[1]) {
      m, k := HeadMarker(s);
    } else {
      m, k := Lit(s[0]), 1;
    }
  }

  lemma HeadSlashMarker(s: string) returns (m: Piece, k: nat)
    requires |s| >= 3 && s[0] == '/' && IsSigil(s[1]) && IsWordChar(s[2])
    ensures 0 < k <= |s| && Segment(m) == s[..k] && Parse(s) == [m] + Parse(s[k..])
  {
    var n := WordRun(s[2..]);
    m, k := Marker(true, s[1], s[2..2 + n]), 2 + n;
    assert Segment(m) == s[..k] by {
      SliceCons(s, 0, k);
      SliceCons(s, 1, k);
      Assoc("/", [s[1]], s[2..k]);
    }
  }

  lemma HeadMarker(s: string) returns (m: Piece, k: nat)
    requires |s| >= 2 && IsSigil(s[0]) && IsWordChar(s[1])
    requires !(|s| >= 3 && s[0] == '/' && IsSigil(s[1]) && IsWordChar(s[2]))
    ensures 0 < k <= |s| && Segment(m) == s[..k] && Parse(s) == [m] + Parse(s[k..])
  {
    var n := WordRun(s[1..]);
    m, k := Marker(false, s[0], s[1..1 + n]), 1 + n;
    assert Segment(m) == s[..k] by {
      SliceCons(s, 0, k);
      EmptyAppend([s[0]]);
    }
  }

  lemma RenderCons(p: Piece, ps: seq<Piece>)
    ensures Render([p] + ps) == Segment(p) + Render(ps)
  {
    assert ([p] + ps)[1..] == ps;
  }

  /** The names of the markers, in template order. */
  function MarkerKeys(ps: seq<Piece>): seq<string> {
    if ps == [] then []
    else if ps[0].Marker? then [ps[0].key] + MarkerKeys(ps[1..])
    else MarkerKeys(ps[1..])
  }

  function MarkerCount(ps: seq<Piece>): nat {
    |MarkerKeys(ps)|
  }

  /** The literal characters alone: every marker dropped with its slash. */
  function Literals(ps: seq<Piece>): string {
    if ps == [] then ""
    else if ps[0].Lit? then [ps[0].c] + Literals(ps[1..])
    else Literals(ps[1..])
  }

  /** `path.replace(/[\(\)]/g, '')` */
  function StripParens(s: string): (r: string)
    ensures '(' !in r && ')' !in r
  {
    if s == [] then ""
    else if s[0] == '(' || s[0] == ')' then StripParens(s[1..])
    else [s[0]] + StripParens(s[1..])
  }

  /** The arguments after the template, as the caller passed them. */
  datatype UrlArg = Plain(d: Dict) | List(items: seq<Val>) | Scalar(v: Val)

  /** What `url` looks values up in: a plain object, or the flattened arguments. */
  datatype Params = Named(d: Dict) | Positional(vs: seq<Val>)

  /** `_.flatten(_.rest(arguments))` */
  function Flatten(args: seq<UrlArg>): seq<Val> {
    if args == [] then []
    else
      (match args[0]
       case Plain(_) => [Obj]
       case List(items) => items
       case Scalar(v) => [v]) + Flatten(args[1..])
  }

  /** The three-way choice at the top of `url`: a plain object first argument
      is used by key; otherwise all arguments are flattened into positions; no
      argument at all means `{}`. */
  function Normalize(args: seq<UrlArg>): Params {
    if |args| > 0 && args[0].Plain? then Named(args[0].d)
    else if |args| > 0 then Positional(Flatten(args))
    else Named([])
  }

  /** A key an array of values does not answer by itself: not an element
      index, not `length`, and not the name of a built-in member. */
  predicate OrdinaryKey(k: string) {
    !IsIndexKey(k) && k != "length" && !Builtin(ArrayProto, k)
  }

  /** `params[key]`, the prototype chain included: on an array, an index
      key reads the element, `length` the number of elements, and the name
      of a built-in member that member. */
  function ByKey(p: Params, key: string): (v: Val)
    ensures p.Positional? && OrdinaryKey(key) ==> v == Undef
    ensures p.Positional? && Builtin(ArrayProto, key) ==> v == Inherited(ArrayProto, key)
  {
    match p
    case Named(d) => Read(d, key)
    case Positional(vs) =>
      BuiltinIsWord(ArrayProto, key);
      if IsIndexKey(key) && ParseDigits(key) < |vs| then vs[ParseDigits(key)]
      else if key == "length" then Num(|vs|)
      else Inherited(ArrayProto, key)
  }

  /** `params[index]`. No built-in member has a numeric name, so only own
      properties matter here. */
  function ByIndex(p: Params, i: nat): Val {
    match p
    case Named(d) => Get(d, NatToString(i))
    case Positional(vs) => if i < |vs| then vs[i] else Undef
  }

  /** The state of the marker replacement: the positional counter, the keys
      that received a value, whether a `params` marker was seen, the output. */
  datatype Fill = Fill(index: nat, keys: seq<string>, appendParams: bool, out: string)

  /** One replacement step: `params[key] || params[index++]`, then a blank value
      drops the marker and its slash, and a present value gets a leading `/`
      unless the template itself starts with this marker's text. */
  function Step(path: string, p: Params, acc: Fill, piece: Piece): Fill {
    match piece
    case Lit(c) => acc.(out := acc.out + [c])
    case Marker(_, _, key) =>
      var byKey := ByKey(p, key);
      var value := if Truthy(byKey) then byKey else ByIndex(p, acc.index);
      var index := if Truthy(byKey) then acc.index else acc.index + 1;
      var blank := Blank(value);
      var text :=
        if StartsWith(path, Segment(piece)) && !blank then Text(value)
        else if blank then ""
        else "/" + Text(value);
      Fill(index,
           if blank then acc.keys else acc.keys + [key],
           acc.appendParams || key == "params",
           acc.out + text)
  }

  function FillAll(path: string, p: Params, ps: seq<Piece>, acc: Fill): Fill
    decreases |ps|
  {
    if ps == [] then acc else FillAll(path, p, ps[1..], Step(path, p, acc, ps[0]))
  }

  /** `Router.prototype.url(template, ...args)`. */
  function Url(template: string, args: seq<UrlArg>): string {
    var path := StripParens(template);
    var p := Normalize(args);
    var f := FillAll(path, p, Parse(path), Fill(0, [], false, ""));
    if f.appendParams && p.Named? then
      var serialized := Serialize(Omit(p.d, f.keys));
      if f.out == "" then serialized else f.out + "/" + serialized
    else f.out
  }

  /** `serializeParams`: the truthy entries as `key:value`, joined by `+`. */
  function Serialize(d: Dict): string {
    Join(Pairs(d), '+')
  }

  function Pairs(d: Dict): seq<string> {
    if d == [] then []
    else if Truthy(d[0].1) then [d[0].0 + ":" + Text(d[0].1)] + Pairs(d[1..])
    else Pairs(d[1..])
  }

  /** `deserializeParams`: `{}` for anything but a non-empty string; otherwise
      every `+`-separated pair sets `values[0]` to `values[1]` of its `:` split. */
  function Deserialize(v: Val): Dict {
    if !v.Str? || v.s == "" then [] else Collect([], Split(v.s, '+'))
  }

  function Collect(acc: Dict, pairs: seq<string>): Dict
    decreases |pairs|
  {
    if pairs == [] then acc
    else
      var values := Split(pairs[0], ':');
      Collect(Put(acc, values[0], if |values| > 1 then Str(values[1]) else Undef), pairs[1..])
  }

  /** The template a route record holds, as `path + ''` reads it:
      a missing template is the text "undefined". */
  function TemplateText(route: Option<string>): string {
    if route.Some? then route.value else "undefined"
  }

  // -------------------------------------------------------------------
  // The replacement fold

  lemma {:induction false} FillAllAppend(path: string, p: Params, a: seq<Piece>, b: seq<Piece>, acc: Fill)
    ensures FillAll(path, p, a + b, acc) == FillAll(path, p, b, FillAll(path, p, a, acc))
    decreases |a|
  {
    if a == [] {
      EmptyAppend(b);
    } else {
      DropAppend(a, b);
      FillAllAppend(path, p, a[1..], b, Step(path, p, acc, a[0]));
    }
  }

  /** No marker finds a value: no key reads truthy and every position the
      counter reaches, from `from` on, is blank. */
  predicate NothingToFill(p: Params, keys: seq<string>, from: nat) {
    (forall k :: k in keys ==> !Truthy(ByKey(p, k))) &&
    (forall i: nat :: from <= i < from + |keys| ==> Blank(ByIndex(p, i)))
  }

  /** A marker whose key reads falsy and whose position is blank vanishes,
      and only moves the counter on. */
  lemma StepBlank(path: string, p: Params, acc: Fill, m: Piece)
    requires m.Marker? && !Truthy(ByKey(p, m.key)) && Blank(ByIndex(p, acc.index))
    ensures Step(path, p, acc, m) == Fill(acc.index + 1, acc.keys, acc.appendParams || m.key == "params", acc.out)
  {
    assert acc.out + "" == acc.out;
  }

  lemma {:induction false} FillAllBlank(path: string, p: Params, ps: seq<Piece>, acc: Fill)
    requires NothingToFill(p, MarkerKeys(ps), acc.index)
    ensures FillAll(path, p, ps, acc)
         == Fill(acc.index + MarkerCount(ps), acc.keys,
                 acc.appendParams || "params" in MarkerKeys(ps), acc.out + Literals(ps))
    decreases |ps|
  {
    if ps == [] {
      EmptyAppend(acc.out);
    } else {
      var next := Step(path, p, acc, ps[0]);
      if ps[0].Lit? {
        assert MarkerKeys(ps) == MarkerKeys(ps[1..]);
        assert Literals(ps) == [ps[0].c] + Literals(ps[1..]);
        FillAllBlank(path, p, ps[1..], next);
        Assoc(acc.out, [ps[0].c], Literals(ps[1..]));
      } else {
        var keys := MarkerKeys(ps);
        assert keys == [ps[0].key] + MarkerKeys(ps[1..]);
        assert Literals(ps) == Literals(ps[1..]);
        assert ps[0].key in keys;
        StepBlank(path, p, acc, ps[0]);
        assert NothingToFill(p, MarkerKeys(ps[1..]), acc.index + 1) by {
          assert forall k :: k in MarkerKeys(ps[1..]) ==> k in keys;
        }
        FillAllBlank(path, p, ps[1..], next);
      }
    }
  }

  /** With nothing to fill, every marker disappears together with its slash:
      the url is the literal text of the template, followed by the serialized
      object when there is a `params` marker and the values came as an object. */
  lemma UrlNothingToFill(t: string, args: seq<UrlArg>)
    requires NothingToFill(Normalize(args), MarkerKeys(Parse(StripParens(t))), 0)
    ensures var ps := Parse(StripParens(t));
            var p := Normalize(args);
            Url(t, args)
            == if "params" in MarkerKeys(ps) && p.Named? then
                 (if Literals(ps) == "" then Serialize(p.d) else Literals(ps) + "/" + Serialize(p.d))
               else Literals(ps)
  {
    var ps := Parse(StripParens(t));
    FillAllBlank(StripParens(t), Normalize(args), ps, Fill(0, [], false, ""));
    EmptyAppend(Literals(ps));
    if Normalize(args).Named? {
      OmitNothing(Normalize(args).d);
    }
  }

  lemma {:induction false} FlattenAppend(a: seq<UrlArg>, b: seq<UrlArg>)
    ensures Flatten(a + b) == Flatten(a) + Flatten(b)
  {
    if a == [] {
      EmptyAppend(b);
    } else {
      DropAppend(a, b);
      FlattenAppend(a[1..], b);
      Assoc(Flatten([a[0]]), Flatten(a[1..]), Flatten(b));
    }
  }

  lemma {:induction false} FillAllSurplus(path: string, vs: seq<Val>, extra: seq<Val>, ps: seq<Piece>, acc: Fill)
    requires acc.index + MarkerCount(ps) <= |vs|
    requires forall k :: k in MarkerKeys(ps) ==> k != "length" && (IsIndexKey(k) ==> ParseDigits(k) < |vs|)
    ensures FillAll(path, Positional(vs + extra), ps, acc) == FillAll(path, Positional(vs), ps, acc)
    decreases |ps|
  {
    if ps != [] {
      var p, q := Positional(vs + extra), Positional(vs);
      if ps[0].Marker? {
        assert MarkerKeys(ps) == [ps[0].key] + MarkerKeys(ps[1..]);
        assert ByKey(p, ps[0].key) == ByKey(q, ps[0].key);
        assert ByIndex(p, acc.index) == ByIndex(q, acc.index);
      }
      assert Step(path, p, acc, ps[0]) == Step(path, q, acc, ps[0]);
      FillAllSurplus(path, vs, extra, ps[1..], Step(path, q, acc, ps[0]));
    }
  }

  /** Positional values beyond those the markers consume are ignored. */
  lemma UrlIgnoresSurplus(t: string, args: seq<UrlArg>, more: seq<UrlArg>)
    requires |args| > 0 && !args[0].Plain?
    requires MarkerCount(Parse(StripParens(t))) <= |Flatten(args)|
    requires forall k :: k in MarkerKeys(Parse(StripParens(t))) ==>
               k != "length" && (IsIndexKey(k) ==> ParseDigits(k) < |Flatten(args)|)
    ensures Url(t, args + more) == Url(t, args)
  {
    FlattenAppend(args, more);
    assert (args + more)[0] == args[0];
    FillAllSurplus(StripParens(t), Flatten(args), Flatten(more), Parse(StripParens(t)), Fill(0, [], false, ""));
  }

  lemma {:induction false} MarkerKeysAppend(a: seq<Piece>, b: seq<Piece>)
    ensures MarkerKeys(a + b) == MarkerKeys(a) + MarkerKeys(b)
    ensures Literals(a + b) == Literals(a) + Literals(b)
  {
    if a == [] {
      EmptyAppend(b);
      EmptyAppend(MarkerKeys(b));
      EmptyAppend(Literals(b));
    } else {
      DropAppend(a, b);
      MarkerKeysAppend(a[1..], b);
      var x := a[0];
      Assoc(if x.Marker? then [x.key] else [], MarkerKeys(a[1..]), MarkerKeys(b));
      Assoc(if x.Lit? then [x.c] else [], Literals(a[1..]), Literals(b));
      assert MarkerKeys(a) == (if x.Marker? then [x.key] else []) + MarkerKeys(a[1..]);
      assert Literals(a) == (if x.Lit? then [x.c] else []) + Literals(a[1..]);
    }
  }

  // -------------------------------------------------------------------
  // The catch-all codec

  /** A plain object the catch-all carries unchanged: distinct keys, values
      that are non-empty strings, and no `+` or `:` in any key or value. */
  predicate Carriable(d: Dict) {
    UniqueKeys(d) &&
    forall i :: 0 <= i < |d| ==>
      d[i].1.Str? && d[i].1.s != "" &&
      '+' !in d[i].0 && ':' !in d[i].0 && '+' !in d[i].1.s && ':' !in d[i].1.s
  }

  lemma {:induction false} PairsCarriable(d: Dict)
    requires Carriable(d)
    ensures |Pairs(d)| == |d|
    ensures forall i :: 0 <= i < |d| ==> Pairs(d)[i] == d[i].0 + ":" + d[i].1.s
  {
    if d != [] {
      assert Carriable(d[1..]) by {
        assert forall i :: 0 <= i < |d| - 1 ==> d[1..][i] == d[i + 1];
      }
      PairsCarriable(d[1..]);
    }
  }

  lemma SplitPair(k: string, v: string)
    requires ':' !in k && ':' !in v
    ensures Split(k + ":" + v, ':') == [k, v]
  {
    SplitPrefix(k, v, ':');
    SplitNoSeparator(v, ':');
  }

  lemma {:induction false} CollectPairs(acc: Dict, d: Dict)
    requires Carriable(d) && UniqueKeys(acc)
    requires forall k :: k in KeySet(acc) ==> k !in KeySet(d)
    ensures Collect(acc, Pairs(d)) == acc + d
    decreases |d|
  {
    if d == [] {
      EmptyAppend(acc);
    } else {
      var k, v := d[0].0, d[0].1.s;
      assert Carriable(d[1..]) by {
        assert forall i :: 0 <= i < |d| - 1 ==> d[1..][i] == d[i + 1];
      }
      var pair := k + ":" + v;
      assert Pairs(d) == [pair] + Pairs(d[1..]);
      ConsDrop(pair, Pairs(d[1..]));
      SplitPair(k, v);
      PutNew(acc, k, Str(v));
      KeySetAppend(acc, d[0]);
      var acc' := acc + [d[0]];
      assert Collect(acc, Pairs(d)) == Collect(acc', Pairs(d[1..]));
      CollectPairs(acc', d[1..]);
      Assoc(acc, [d[0]], d[1..]);
      ConsSplit(d);
    }
  }

  /** Deserializing a serialized object gives it back. */
  lemma DeserializeSerialize(d: Dict)
    requires Carriable(d)
    ensures Deserialize(Str(Serialize(d))) == d
  {
    if d != [] {
      PairsCarriable(d);
      var ps := Pairs(d);
      assert forall i :: 0 <= i < |ps| ==> '+' !in ps[i] by {
        forall i | 0 <= i < |ps| ensures '+' !in ps[i] {
          assert ps[i] == d[i].0 + ":" + d[i].1.s;
        }
      }
      SplitJoin(ps, '+');
      assert |ps[0]| > 0;
      assert |Serialize(d)| >= |ps[0]|;
      CollectPairs([], d);
    }
  }
}
