/**
 * Templates written as `/`-separated segments, each literal text or a single
 * marker: the shape every route in the router's own examples has. For these
 * the replacement fold of `Router.prototype.url` is given a direct meaning
 * (each marker replaced by its value) and proved to agree with it.
 */
module UrlSegments {
  import opened SeqFacts
  import opened JsValues
  import opened UrlTemplate

  // -------------------------------------------------------------------
  // Templates written as segments

  /** One `/`-separated segment of a template: literal text, or exactly one
      marker (`*key` when `splat`, `:key` otherwise). */
  datatype Seg = LitSeg(lit: string) | KeySeg(splat: bool, key: string)

  /** Text with no separator, no marker sigil and no optional-part parenthesis. */
  predicate PlainText(s: string) {
    forall i :: 0 <= i < |s| ==> s[i] != '/' && !IsSigil(s[i]) && s[i] != '(' && s[i] != ')'
  }

  predicate IsKey(k: string) {
    |k| > 0 && forall i :: 0 <= i < |k| ==> IsWordChar(k[i])
  }

  predicate ValidSeg(g: Seg) {
    match g
    case LitSeg(l) => PlainText(l)
    case KeySeg(_, k) => IsKey(k)
  }

  predicate ValidSegs(segs: seq<Seg>) {
    forall i :: 0 <= i < |segs| ==> ValidSeg(segs[i])
  }

  function SigilOf(splat: bool): char {
    if splat then '*' else ':'
  }

  function SegSource(g: Seg): string {
    match g
    case LitSeg(l) => l
    case KeySeg(splat, k) => [SigilOf(splat)] + k
  }

  /** The segments after the first one, each behind a `/`. */
  function Tail(segs: seq<Seg>): (r: string)
    ensures r == [] || r[0] == '/'
  {
    if segs == [] then "" else "/" + SegSource(segs[0]) + Tail(segs[1..])
  }

  /** The key a segment names, if it is a key segment. */
  function SegKey(g: Seg): seq<string> {
    if g.KeySeg? then [g.key] else []
  }

  function SegKeys(segs: seq<Seg>): seq<string> {
    if segs == [] then [] else SegKey(segs[0]) + SegKeys(segs[1..])
  }

  function KeyCount(segs: seq<Seg>): nat {
    |SegKeys(segs)|
  }

  function LitPieces(s: string): seq<Piece> {
    if s == [] then [] else [Lit(s[0])] + LitPieces(s[1..])
  }

  function SegPieces(g: Seg): seq<Piece> {
    match g
    case LitSeg(l) => [Lit('/')] + LitPieces(l)
    case KeySeg(splat, k) => [Marker(true, SigilOf(splat), k)]
  }

  function TailPieces(segs: seq<Seg>): seq<Piece> {
    if segs == [] then [] else SegPieces(segs[0]) + TailPieces(segs[1..])
  }

  /** Every key segment names a property of `d` that reads truthy. */
  predicate Supplied(d: Dict, segs: seq<Seg>) {
    segs == [] || ((segs[0].KeySeg? ==> Truthy(Get(d, segs[0].key))) && Supplied(d, segs[1..]))
  }

  /** What a segment template means for a plain object: each key segment
      replaced by the text of the object's value for it. */
  function TailNamed(segs: seq<Seg>, d: Dict): string {
    if segs == [] then ""
    else "/" + (if segs[0].LitSeg? then segs[0].lit else Text(Get(d, segs[0].key))) + TailNamed(segs[1..], d)
  }

  /** The positions from `from` on hold a present value for every key segment,
      and every key is ordinary: an array of values does not answer it by
      itself (through an index, `length` or a built-in member). */
  predicate Enough(vs: seq<Val>, from: nat, segs: seq<Seg>)
    decreases |segs|
  {
    segs == [] ||
    if segs[0].LitSeg? then Enough(vs, from, segs[1..])
    else
      from < |vs| && !Blank(vs[from]) && OrdinaryKey(segs[0].key)
      && Enough(vs, from + 1, segs[1..])
  }

  /** What a segment template means for positional values: the key segments
      take the values from position `from` on, in order. */
  function TailPositional(segs: seq<Seg>, vs: seq<Val>, from: nat): string
    requires Enough(vs, from, segs)
  {
    if segs == [] then ""
    else if segs[0].LitSeg? then "/" + segs[0].lit + TailPositional(segs[1..], vs, from)
    else "/" + Text(vs[from]) + TailPositional(segs[1..], vs, from + 1)
  }

  lemma {:induction false} ParseLits(a: string, x: string)
    requires PlainText(a)
    ensures Parse(a + x) == LitPieces(a) + Parse(x)
    decreases |a|
  {
    if a == [] {
      EmptyAppend(x);
    } else {
      DropAppend(a, x);
      assert Parse(a + x) == [Lit(a[0])] + Parse(a[1..] + x);
      ParseLits(a[1..], x);
    }
  }

  lemma {:induction false} WordRunKey(k: string, x: string)
    requires forall i :: 0 <= i < |k| ==> IsWordChar(k[i])
    requires x == [] || !IsWordChar(x[0])
    ensures WordRun(k + x) == |k|
    decreases |k|
  {
    if k == [] {
      EmptyAppend(x);
    } else {
      DropAppend(k, x);
      WordRunKey(k[1..], x);
    }
  }

  /** A slash not followed by a sigil is a literal. */
  lemma ParseSlash(rest: string)
    requires rest == [] || !IsSigil(rest[0])
    ensures Parse("/" + rest) == [Lit('/')] + Parse(rest)
  {
    ConsDrop('/', rest);
  }

  /** A slash, a sigil and a whole key make one marker. */
  lemma ParseMarker(sigil: char, k: string, rest: string)
    requires IsSigil(sigil) && IsKey(k)
    requires rest == [] || !IsWordChar(rest[0])
    ensures Parse("/" + [sigil] + k + rest) == [Marker(true, sigil, k)] + Parse(rest)
  {
    var s := "/" + [sigil] + k + rest;
    Slices("/" + [sigil], k, rest);
    WordRunKey(k, rest);
  }

  lemma {:induction false} ValidSegsTail(segs: seq<Seg>)
    requires ValidSegs(segs) && segs != []
    ensures ValidSeg(segs[0]) && ValidSegs(segs[1..])
  {
    assert forall i :: 0 <= i < |segs| - 1 ==> segs[1..][i] == segs[i + 1];
  }

  lemma ParseLitSeg(l: string, rest: string)
    requires PlainText(l)
    requires rest == [] || rest[0] == '/'
    ensures Parse("/" + l + rest) == [Lit('/')] + LitPieces(l) + Parse(rest)
  {
    Assoc("/", l, rest);
    ParseSlash(l + rest);
    ParseLits(l, rest);
  }

  lemma ParseSeg(g: Seg, rest: string)
    requires ValidSeg(g)
    requires rest == [] || rest[0] == '/'
    ensures Parse("/" + SegSource(g) + rest) == SegPieces(g) + Parse(rest)
  {
    if g.LitSeg? {
      ParseLitSeg(g.lit, rest);
    } else {
      ParseMarker(SigilOf(g.splat), g.key, rest);
      assert "/" + SegSource(g) + rest == "/" + [SigilOf(g.splat)] + g.key + rest;
    }
  }

  lemma {:induction false} ParseTail(segs: seq<Seg>)
    requires ValidSegs(segs)
    ensures Parse(Tail(segs)) == TailPieces(segs)
    decreases |segs|
  {
    if segs != [] {
      ValidSegsTail(segs);
      ParseTail(segs[1..]);
      ParseSeg(segs[0], Tail(segs[1..]));
    }
  }

  lemma {:induction false} StripParensPlain(s: string)
    requires forall i :: 0 <= i < |s| ==> s[i] != '(' && s[i] != ')'
    ensures StripParens(s) == s
  {
    if s != [] {
      StripParensPlain(s[1..]);
      ConsSplit(s);
    }
  }

  lemma {:induction false} TailNoParens(segs: seq<Seg>)
    requires ValidSegs(segs)
    ensures forall i :: 0 <= i < |Tail(segs)| ==> Tail(segs)[i] != '(' && Tail(segs)[i] != ')'
    decreases |segs|
  {
    if segs != [] {
      assert ValidSegs(segs[1..]) by {
        forall i | 0 <= i < |segs| - 1 ensures ValidSeg(segs[1..][i]) {
          assert segs[1..][i] == segs[i + 1];
        }
      }
      TailNoParens(segs[1..]);
      assert ValidSeg(segs[0]);
      var src := SegSource(segs[0]);
      assert forall i :: 0 <= i < |src| ==> src[i] != '(' && src[i] != ')';
    }
  }

  /** A segment template is scanned segment by segment. */
  lemma ParseSegments(head: string, segs: seq<Seg>)
    requires PlainText(head) && ValidSegs(segs)
    ensures StripParens(head + Tail(segs)) == head + Tail(segs)
    ensures Parse(head + Tail(segs)) == LitPieces(head) + TailPieces(segs)
  {
    TailNoParens(segs);
    var t := head + Tail(segs);
    assert forall i :: 0 <= i < |t| ==> t[i] != '(' && t[i] != ')' by {
      forall i | 0 <= i < |t| ensures t[i] != '(' && t[i] != ')' {
        if i >= |head| {
          assert t[i] == Tail(segs)[i - |head|];
        }
      }
    }
    StripParensPlain(t);
    ParseLits(head, Tail(segs));
    ParseTail(segs);
  }

  lemma {:induction false} FillLits(path: string, p: Params, l: string, acc: Fill)
    ensures FillAll(path, p, LitPieces(l), acc) == acc.(out := acc.out + l)
    decreases |l|
  {
    if l == [] {
      EmptyAppend(acc.out);
    } else {
      ConsDrop(Lit(l[0]), LitPieces(l[1..]));
      FillLits(path, p, l[1..], Step(path, p, acc, Lit(l[0])));
      Assoc(acc.out, [l[0]], l[1..]);
      ConsSplit(l);
    }
  }

  /** Filling the pieces of one segment. */
  lemma FillSegLit(path: string, p: Params, l: string, acc: Fill)
    ensures FillAll(path, p, SegPieces(LitSeg(l)), acc) == acc.(out := acc.out + "/" + l)
  {
    FillAllAppend(path, p, [Lit('/')], LitPieces(l), acc);
    FillLits(path, p, l, acc.(out := acc.out + "/"));
  }

  /** A key segment is one marker step, and its marker does not start the
      template when the template starts with something other than a slash. */
  lemma FillKeySeg(path: string, p: Params, splat: bool, k: string, acc: Fill)
    requires |path| > 0 && path[0] != '/'
    ensures FillAll(path, p, SegPieces(KeySeg(splat, k)), acc) == Step(path, p, acc, Marker(true, SigilOf(splat), k))
    ensures !StartsWith(path, Segment(Marker(true, SigilOf(splat), k)))
  {
  }

  lemma StepNamed(path: string, d: Dict, acc: Fill, m: Piece)
    requires m.Marker? && Truthy(Get(d, m.key)) && !StartsWith(path, Segment(m))
    ensures Step(path, Named(d), acc, m)
         == Fill(acc.index, acc.keys + [m.key], acc.appendParams || m.key == "params",
                 acc.out + ("/" + Text(Get(d, m.key))))
  {
  }

  lemma StepPositional(path: string, vs: seq<Val>, acc: Fill, m: Piece)
    requires m.Marker? && OrdinaryKey(m.key) && !StartsWith(path, Segment(m))
    requires acc.index < |vs| && !Blank(vs[acc.index])
    ensures Step(path, Positional(vs), acc, m)
         == Fill(acc.index + 1, acc.keys + [m.key], acc.appendParams || m.key == "params",
                 acc.out + ("/" + Text(vs[acc.index])))
  {
    assert ByKey(Positional(vs), m.key) == Undef;
  }

  /** The state after a literal segment, or after a key segment whose value is
      taken from `d`. */
  lemma FillSegNamed(path: string, d: Dict, g: Seg, acc: Fill) returns (next: Fill)
    requires |path| > 0 && path[0] != '/'
    requires g.KeySeg? ==> Truthy(Get(d, g.key))
    ensures FillAll(path, Named(d), SegPieces(g), acc) == next
    ensures next.index == acc.index
    ensures next.keys == acc.keys + SegKey(g)
    ensures next.appendParams == (acc.appendParams || "params" in SegKey(g))
    ensures next.out == acc.out + "/" + (if g.LitSeg? then g.lit else Text(Get(d, g.key)))
  {
    if g.LitSeg? {
      FillSegLit(path, Named(d), g.lit, acc);
      next := acc.(out := acc.out + "/" + g.lit);
      EmptyAppend(acc.keys);
    } else {
      FillKeyNamed(path, d, g.splat, g.key, acc);
      next := Fill(acc.index, acc.keys + [g.key], acc.appendParams || g.key == "params",
                   acc.out + "/" + Text(Get(d, g.key)));
    }
  }

  lemma FillKeyNamed(path: string, d: Dict, splat: bool, k: string, acc: Fill)
    requires |path| > 0 && path[0] != '/'
    requires Truthy(Get(d, k))
    ensures FillAll(path, Named(d), SegPieces(KeySeg(splat, k)), acc)
         == Fill(acc.index, acc.keys + [k], acc.appendParams || k == "params",
                 acc.out + "/" + Text(Get(d, k)))
  {
    var m := Marker(true, SigilOf(splat), k);
    FillKeySeg(path, Named(d), splat, k, acc);
    StepNamed(path, d, acc, m);
    Assoc(acc.out, "/", Text(Get(d, k)));
  }

  lemma {:induction false} FillNamed(path: string, d: Dict, segs: seq<Seg>, acc: Fill)
    requires |path| > 0 && path[0] != '/'
    requires Supplied(d, segs)
    ensures FillAll(path, Named(d), TailPieces(segs), acc)
         == Fill(acc.index, acc.keys + SegKeys(segs),
                 acc.appendParams || "params" in SegKeys(segs), acc.out + TailNamed(segs, d))
    decreases |segs|
  {
    if segs == [] {
      EmptyAppend(acc.keys);
      EmptyAppend(acc.out);
    } else {
      var g, rest := segs[0], segs[1..];
      FillAllAppend(path, Named(d), SegPieces(g), TailPieces(rest), acc);
      var next := FillSegNamed(path, d, g, acc);
      FillNamed(path, d, rest, next);
      Assoc(acc.keys, SegKey(g), SegKeys(rest));
      Assoc4(acc.out, "/", if g.LitSeg? then g.lit else Text(Get(d, g.key)), TailNamed(rest, d));
    }
  }

  /** The text a segment stands for when key segments take positional values. */
  function SegText(g: Seg, vs: seq<Val>, i: nat): string
    requires g.KeySeg? ==> i < |vs|
  {
    if g.LitSeg? then g.lit else Text(vs[i])
  }

  /** One step of `Enough` and `TailPositional`. */
  lemma TailPositionalCons(segs: seq<Seg>, vs: seq<Val>, from: nat)
    requires segs != [] && Enough(vs, from, segs)
    ensures segs[0].KeySeg? ==> from < |vs| && !Blank(vs[from]) && OrdinaryKey(segs[0].key)
    ensures Enough(vs, from + |SegKey(segs[0])|, segs[1..])
    ensures TailPositional(segs, vs, from)
         == "/" + SegText(segs[0], vs, from) + TailPositional(segs[1..], vs, from + |SegKey(segs[0])|)
    ensures KeyCount(segs) == |SegKey(segs[0])| + KeyCount(segs[1..])
    ensures SegKeys(segs) == SegKey(segs[0]) + SegKeys(segs[1..])
  {
  }

  /** The state after a literal segment, or after a key segment whose value is
      the next positional one. */
  lemma FillSegPositional(path: string, vs: seq<Val>, g: Seg, acc: Fill) returns (next: Fill)
    requires |path| > 0 && path[0] != '/'
    requires g.KeySeg? ==> acc.index < |vs| && !Blank(vs[acc.index]) && OrdinaryKey(g.key)
    ensures FillAll(path, Positional(vs), SegPieces(g), acc) == next
    ensures next.index == acc.index + |SegKey(g)|
    ensures next.keys == acc.keys + SegKey(g)
    ensures next.appendParams == (acc.appendParams || "params" in SegKey(g))
    ensures next.out == acc.out + "/" + SegText(g, vs, acc.index)
  {
    if g.LitSeg? {
      FillSegLit(path, Positional(vs), g.lit, acc);
      next := acc.(out := acc.out + "/" + g.lit);
      EmptyAppend(acc.keys);
    } else {
      FillKeyPositional(path, vs, g.splat, g.key, acc);
      next := Fill(acc.index + 1, acc.keys + [g.key], acc.appendParams || g.key == "params",
                   acc.out + "/" + Text(vs[acc.index]));
    }
  }

  lemma FillKeyPositional(path: string, vs: seq<Val>, splat: bool, k: string, acc: Fill)
    requires |path| > 0 && path[0] != '/'
    requires acc.index < |vs| && !Blank(vs[acc.index]) && OrdinaryKey(k)
    ensures FillAll(path, Positional(vs), SegPieces(KeySeg(splat, k)), acc)
         == Fill(acc.index + 1, acc.keys + [k], acc.appendParams || k == "params",
                 acc.out + "/" + Text(vs[acc.index]))
  {
    var m := Marker(true, SigilOf(splat), k);
    FillKeySeg(path, Positional(vs), splat, k, acc);
    StepPositional(path, vs, acc, m);
    Assoc(acc.out, "/", Text(vs[acc.index]));
  }

  lemma {:induction false} FillPositional(path: string, vs: seq<Val>, segs: seq<Seg>, acc: Fill)
    requires |path| > 0 && path[0] != '/'
    requires Enough(vs, acc.index, segs)
    ensures FillAll(path, Positional(vs), TailPieces(segs), acc)
         == Fill(acc.index + KeyCount(segs), acc.keys + SegKeys(segs),
                 acc.appendParams || "params" in SegKeys(segs),
                 acc.out + TailPositional(segs, vs, acc.index))
    decreases |segs|
  {
    if segs == [] {
      EmptyAppend(acc.keys);
      EmptyAppend(acc.out);
    } else {
      var g, rest := segs[0], segs[1..];
      TailPositionalCons(segs, vs, acc.index);
      FillAllAppend(path, Positional(vs), SegPieces(g), TailPieces(rest), acc);
      var next := FillSegPositional(path, vs, g, acc);
      FillPositional(path, vs, rest, next);
      Assoc(acc.keys, SegKey(g), SegKeys(rest));
      Assoc4(acc.out, "/", SegText(g, vs, acc.index), TailPositional(rest, vs, next.index));
    }
  }

  /** Filling a segment template from a plain object that has a value for
      every marker replaces each marker by its value; a `params` marker also
      appends the remaining properties, serialized. */
  lemma UrlNamed(head: string, segs: seq<Seg>, d: Dict)
    requires head != "" && PlainText(head) && ValidSegs(segs)
    requires Supplied(d, segs)
    ensures Url(head + Tail(segs), [Plain(d)])
         == head + TailNamed(segs, d)
            + (if "params" in SegKeys(segs) then "/" + Serialize(Omit(d, SegKeys(segs))) else "")
  {
    var t := head + Tail(segs);
    ParseSegments(head, segs);
    var init := Fill(0, [], false, "");
    var f := FillAll(t, Named(d), Parse(StripParens(t)), init);
    assert f == Fill(0, SegKeys(segs), "params" in SegKeys(segs), head + TailNamed(segs, d)) by {
      calc {
        f;
      == { FillAllAppend(t, Named(d), LitPieces(head), TailPieces(segs), init); }
        FillAll(t, Named(d), TailPieces(segs), FillAll(t, Named(d), LitPieces(head), init));
      == { FillLits(t, Named(d), head, init); EmptyAppend(head); }
        FillAll(t, Named(d), TailPieces(segs), Fill(0, [], false, head));
      == { FillNamed(t, d, segs, Fill(0, [], false, head)); EmptyAppend(SegKeys(segs)); }
        Fill(0, SegKeys(segs), "params" in SegKeys(segs), head + TailNamed(segs, d));
      }
    }
    assert Normalize([Plain(d)]) == Named(d);
  }

  /** Filling a segment template from positional values, one for every
      marker, replaces the markers by the values in order. */
  lemma UrlPositional(head: string, segs: seq<Seg>, args: seq<UrlArg>)
    requires head != "" && PlainText(head) && ValidSegs(segs)
    requires |args| > 0 && !args[0].Plain?
    requires Enough(Flatten(args), 0, segs)
    ensures Url(head + Tail(segs), args) == head + TailPositional(segs, Flatten(args), 0)
  {
    var t := head + Tail(segs);
    var vs := Flatten(args);
    ParseSegments(head, segs);
    var init := Fill(0, [], false, "");
    var f := FillAll(t, Positional(vs), Parse(StripParens(t)), init);
    assert f == Fill(KeyCount(segs), [] + SegKeys(segs), "params" in SegKeys(segs), head + TailPositional(segs, vs, 0)) by {
      calc {
        f;
      == { FillAllAppend(t, Positional(vs), LitPieces(head), TailPieces(segs), init); }
        FillAll(t, Positional(vs), TailPieces(segs), FillAll(t, Positional(vs), LitPieces(head), init));
      == { FillLits(t, Positional(vs), head, init); EmptyAppend(head); }
        FillAll(t, Positional(vs), TailPieces(segs), Fill(0, [], false, head));
      == { FillPositional(t, vs, segs, Fill(0, [], false, head)); }
        Fill(KeyCount(segs), [] + SegKeys(segs), "params" in SegKeys(segs), head + TailPositional(segs, vs, 0));
      }
    }
    assert Normalize(args) == Positional(vs);
  }

  /** The catch-all template `prefix/:params` (with either sigil) carries a
      whole plain object: the url is the prefix, a slash and the serialized
      object. */
  lemma UrlCatchAll(head: string, splat: bool, d: Dict)
    requires head != "" && PlainText(head)
    requires !Truthy(Get(d, "params")) && Blank(Get(d, "0"))
    ensures Url(head + Tail([KeySeg(splat, "params")]), [Plain(d)]) == head + "/" + Serialize(d)
  {
    var t := head + Tail([KeySeg(splat, "params")]);
    var m := Marker(true, SigilOf(splat), "params");
    BuiltinIsWord(ObjectProto, "params");
    assert ByKey(Named(d), "params") == Get(d, "params");
    assert NatToString(0) == "0";
    StepBlank(t, Named(d), Fill(0, [], false, head), m);
    OneMarkerFill(head, splat, "params", Named(d));
    assert FillAll(t, Named(d), Parse(t), Fill(0, [], false, "")) == Fill(1, [], true, head);
    assert Normalize([Plain(d)]) == Named(d);
    OmitNothing(d);
  }


  /** The literal text of a segment tail: key segments contribute nothing. */
  function TailLiterals(segs: seq<Seg>): string {
    if segs == [] then ""
    else (if segs[0].LitSeg? then "/" + segs[0].lit else "") + TailLiterals(segs[1..])
  }

  lemma {:induction false} LitPiecesShape(l: string)
    ensures MarkerKeys(LitPieces(l)) == [] && Literals(LitPieces(l)) == l
  {
    if l != [] {
      LitPiecesShape(l[1..]);
      ConsDrop(Lit(l[0]), LitPieces(l[1..]));
    }
  }

  lemma {:induction false} TailPiecesShape(segs: seq<Seg>)
    ensures MarkerKeys(TailPieces(segs)) == SegKeys(segs)
    ensures Literals(TailPieces(segs)) == TailLiterals(segs)
  {
    if segs != [] {
      TailPiecesShape(segs[1..]);
      MarkerKeysAppend(SegPieces(segs[0]), TailPieces(segs[1..]));
      if segs[0].LitSeg? {
        MarkerKeysAppend([Lit('/')], LitPieces(segs[0].lit));
        LitPiecesShape(segs[0].lit);
      }
    }
  }

  /** A segment template with no value for any key segment gives its literal
      segments only. */
  lemma UrlSegmentsEmpty(head: string, segs: seq<Seg>, args: seq<UrlArg>)
    requires PlainText(head) && ValidSegs(segs)
    requires NothingToFill(Normalize(args), SegKeys(segs), 0)
    requires "params" !in SegKeys(segs)
    ensures Url(head + Tail(segs), args) == head + TailLiterals(segs)
  {
    ParseSegments(head, segs);
    MarkerKeysAppend(LitPieces(head), TailPieces(segs));
    LitPiecesShape(head);
    TailPiecesShape(segs);
    EmptyAppend(SegKeys(segs));
    UrlNothingToFill(head + Tail(segs), args);
  }

  // -------------------------------------------------------------------
  // Markers that start the template, partial fills, optional parts

  /** Parentheses never reach the scan: `url` gives the same result for a
      template and for the template with its parentheses removed, so
      `users(/:id)` fills like `users/:id`. */
  lemma UrlStripParens(t: string, args: seq<UrlArg>)
    ensures Url(t, args) == Url(StripParens(t), args)
  {
    var r := StripParens(t);
    assert forall i :: 0 <= i < |r| ==> r[i] != '(' && r[i] != ')' by {
      forall i | 0 <= i < |r| ensures r[i] != '(' && r[i] != ')' {
        assert r[i] in r;
      }
    }
    StripParensPlain(r);
  }

  lemma {:induction false} TailAppend(a: seq<Seg>, b: seq<Seg>)
    ensures Tail(a + b) == Tail(a) + Tail(b)
  {
    if a == [] {
      EmptyAppend(b);
      EmptyAppend(Tail(b));
    } else {
      DropAppend(a, b);
      TailAppend(a[1..], b);
      Assoc4("/", SegSource(a[0]), Tail(a[1..]), Tail(b));
    }
  }

  lemma {:induction false} TailPiecesAppend(a: seq<Seg>, b: seq<Seg>)
    ensures TailPieces(a + b) == TailPieces(a) + TailPieces(b)
  {
    if a == [] {
      EmptyAppend(b);
      EmptyAppend(TailPieces(b));
    } else {
      DropAppend(a, b);
      TailPiecesAppend(a[1..], b);
      Assoc(SegPieces(a[0]), TailPieces(a[1..]), TailPieces(b));
    }
  }

  lemma ValidSegsAppend(a: seq<Seg>, b: seq<Seg>)
    requires ValidSegs(a) && ValidSegs(b)
    ensures ValidSegs(a + b)
  {
    forall i | 0 <= i < |a + b| ensures ValidSeg((a + b)[i]) {
      if i >= |a| {
        assert (a + b)[i] == b[i - |a|];
      }
    }
  }

  /** Positional values for the first markers only: those markers take the
      values in order, and every later marker has no value and disappears
      together with its slash, so `url('users/:a/:b/:c', 'foo')` is
      `users/foo`. */
  lemma UrlPositionalPartial(head: string, filled: seq<Seg>, rest: seq<Seg>, args: seq<UrlArg>)
    requires head != "" && PlainText(head) && ValidSegs(filled) && ValidSegs(rest)
    requires |args| > 0 && !args[0].Plain?
    requires Enough(Flatten(args), 0, filled)
    requires forall i :: KeyCount(filled) <= i < |Flatten(args)| ==> Blank(Flatten(args)[i])
    requires forall k :: k in SegKeys(rest) ==> OrdinaryKey(k)
    ensures Url(head + Tail(filled + rest), args)
         == head + TailPositional(filled, Flatten(args), 0) + TailLiterals(rest)
  {
    var vs := Flatten(args);
    var segs := filled + rest;
    var t := head + Tail(segs);
    ValidSegsAppend(filled, rest);
    TailAppend(filled, rest);
    TailPiecesAppend(filled, rest);
    ParseSegments(head, segs);
    Assoc(LitPieces(head), TailPieces(filled), TailPieces(rest));
    PartialFill(t, head, filled, rest, vs);
    assert Normalize(args) == Positional(vs);
  }

  /** The fold behind `UrlPositionalPartial`: the head's characters, the
      filled segments from the front of the values, then the rest blank. */
  lemma PartialFill(t: string, head: string, filled: seq<Seg>, rest: seq<Seg>, vs: seq<Val>)
    requires |t| > 0 && t[0] != '/'
    requires Enough(vs, 0, filled)
    requires forall i :: KeyCount(filled) <= i < |vs| ==> Blank(vs[i])
    requires forall k :: k in SegKeys(rest) ==> OrdinaryKey(k)
    ensures FillAll(t, Positional(vs), LitPieces(head) + (TailPieces(filled) + TailPieces(rest)), Fill(0, [], false, "")).out
         == head + TailPositional(filled, vs, 0) + TailLiterals(rest)
  {
    var p := Positional(vs);
    var init := Fill(0, [], false, "");
    var start := Fill(0, [], false, head);
    var mid := Fill(KeyCount(filled), [] + SegKeys(filled), "params" in SegKeys(filled),
                    head + TailPositional(filled, vs, 0));
    RestBlank(vs, filled, rest);
    FillAllAppend(t, p, LitPieces(head), TailPieces(filled) + TailPieces(rest), init);
    FillLits(t, p, head, init);
    EmptyAppend(head);
    assert FillAll(t, p, LitPieces(head), init) == start;
    FillAllAppend(t, p, TailPieces(filled), TailPieces(rest), start);
    FillPositional(t, vs, filled, start);
    assert FillAll(t, p, TailPieces(filled), start) == mid;
    FillAllBlank(t, p, TailPieces(rest), mid);
    TailPiecesShape(rest);
  }

  /** Past the filled segments every position is blank and every key of the
      rest is ordinary, so nothing in the rest finds a value. */
  lemma RestBlank(vs: seq<Val>, filled: seq<Seg>, rest: seq<Seg>)
    requires forall i :: KeyCount(filled) <= i < |vs| ==> Blank(vs[i])
    requires forall k :: k in SegKeys(rest) ==> OrdinaryKey(k)
    ensures NothingToFill(Positional(vs), MarkerKeys(TailPieces(rest)), KeyCount(filled))
  {
    TailPiecesShape(rest);
    var p := Positional(vs);
    forall i: nat | KeyCount(filled) <= i < KeyCount(filled) + |SegKeys(rest)| ensures Blank(ByIndex(p, i)) {
      if i < |vs| {
        assert Blank(vs[i]);
      }
    }
  }


  /** A template that starts with a marker: `:key` followed by segments. */
  function LeadingTemplate(splat: bool, k: string, segs: seq<Seg>): string {
    SegSource(KeySeg(splat, k)) + Tail(segs)
  }

  lemma {:induction false} StripParensAppend(a: string, b: string)
    ensures StripParens(a + b) == StripParens(a) + StripParens(b)
  {
    if a == [] {
      EmptyAppend(b);
    } else {
      DropAppend(a, b);
      StripParensAppend(a[1..], b);
      Assoc([a[0]], StripParens(a[1..]), StripParens(b));
    }
  }

  lemma ParseLeading(splat: bool, k: string, segs: seq<Seg>)
    requires IsKey(k) && ValidSegs(segs)
    ensures StripParens(LeadingTemplate(splat, k, segs)) == LeadingTemplate(splat, k, segs)
    ensures Parse(LeadingTemplate(splat, k, segs)) == [Marker(false, SigilOf(splat), k)] + TailPieces(segs)
  {
    var sigil, tail := SigilOf(splat), Tail(segs);
    TailNoParens(segs);
    StripParensPlain(tail);
    StripParensPlain([sigil] + k);
    StripParensAppend([sigil] + k, tail);
    ParseMarkerHead(sigil, k, tail);
    ParseTail(segs);
  }

  /** A sigil and a whole key at the start make one marker without a slash. */
  lemma ParseMarkerHead(sigil: char, k: string, rest: string)
    requires IsSigil(sigil) && sigil != '/' && IsKey(k)
    requires rest == [] || !IsWordChar(rest[0])
    ensures Parse([sigil] + k + rest) == [Marker(false, sigil, k)] + Parse(rest)
  {
    var t := [sigil] + k + rest;
    assert t[1..] == k + rest;
    WordRunKey(k, rest);
    assert t[1..1 + |k|] == k && t[1 + |k|..] == rest;
  }

  /** A marker whose own text starts the template and that finds a value by
      key is replaced by the bare value. */
  lemma StepLeadingByKey(path: string, p: Params, acc: Fill, m: Piece)
    requires m.Marker? && StartsWith(path, Segment(m)) && Truthy(ByKey(p, m.key))
    ensures Step(path, p, acc, m)
         == Fill(acc.index, acc.keys + [m.key], acc.appendParams || m.key == "params", acc.out + Text(ByKey(p, m.key)))
  {
  }

  /** The same marker taking the next positional value. */
  lemma StepLeadingPositional(path: string, vs: seq<Val>, acc: Fill, m: Piece)
    requires m.Marker? && StartsWith(path, Segment(m)) && OrdinaryKey(m.key)
    requires acc.index < |vs| && !Blank(vs[acc.index])
    ensures Step(path, Positional(vs), acc, m)
         == Fill(acc.index + 1, acc.keys + [m.key], acc.appendParams || m.key == "params", acc.out + Text(vs[acc.index]))
  {
  }

  /** A marker inside the template that finds a value by key is replaced by
      a slash and the value. */
  lemma StepByKey(path: string, p: Params, acc: Fill, m: Piece)
    requires m.Marker? && !StartsWith(path, Segment(m)) && Truthy(ByKey(p, m.key))
    ensures Step(path, p, acc, m)
         == Fill(acc.index, acc.keys + [m.key], acc.appendParams || m.key == "params", acc.out + ("/" + Text(ByKey(p, m.key))))
  {
  }

  lemma LeadingStarts(splat: bool, k: string, segs: seq<Seg>)
    ensures StartsWith(LeadingTemplate(splat, k, segs), Segment(Marker(false, SigilOf(splat), k)))
  {
    var t := LeadingTemplate(splat, k, segs);
    var seg := Segment(Marker(false, SigilOf(splat), k));
    assert seg == [SigilOf(splat)] + k;
    assert t == seg + Tail(segs);
    assert t[..|seg|] == seg;
  }

  /** The marker that starts the template is the text the template starts
      with, so a value found for it is written without a slash:
      `url(':id/edit', {id: 5})` is `5/edit`. Later markers keep theirs. */
  lemma UrlLeadingNamed(splat: bool, k: string, segs: seq<Seg>, d: Dict)
    requires IsKey(k) && ValidSegs(segs)
    requires Truthy(Get(d, k)) && Supplied(d, segs)
    ensures var out := Text(Get(d, k)) + TailNamed(segs, d);
            var keys := [k] + SegKeys(segs);
            Url(LeadingTemplate(splat, k, segs), [Plain(d)])
            == if "params" in keys then
                 (var serialized := Serialize(Omit(d, keys));
                  if out == "" then serialized else out + "/" + serialized)
               else out
  {
    var t := LeadingTemplate(splat, k, segs);
    ParseLeading(splat, k, segs);
    var m := Marker(false, SigilOf(splat), k);
    var init := Fill(0, [], false, "");
    var first := Fill(0, [k], k == "params", Text(Get(d, k)));
    assert Step(t, Named(d), init, m) == first by {
      LeadingStarts(splat, k, segs);
      StepLeadingByKey(t, Named(d), init, m);
      EmptyAppend([k]);
      EmptyAppend(Text(Get(d, k)));
    }
    calc {
      FillAll(t, Named(d), Parse(StripParens(t)), init);
    == { FillAllAppend(t, Named(d), [m], TailPieces(segs), init); }
      FillAll(t, Named(d), TailPieces(segs), first);
    == { FillNamed(t, d, segs, first); }
      Fill(0, [k] + SegKeys(segs), k == "params" || "params" in SegKeys(segs),
           Text(Get(d, k)) + TailNamed(segs, d));
    }
    assert Normalize([Plain(d)]) == Named(d);
  }

  /** The same for positional values: the first value is written as it is,
      and the later markers take the following values behind their slashes. */
  lemma UrlLeadingPositional(splat: bool, k: string, segs: seq<Seg>, args: seq<UrlArg>)
    requires IsKey(k) && ValidSegs(segs) && OrdinaryKey(k)
    requires |args| > 0 && !args[0].Plain?
    requires |Flatten(args)| > 0 && !Blank(Flatten(args)[0])
    requires Enough(Flatten(args), 1, segs)
    ensures Url(LeadingTemplate(splat, k, segs), args)
         == Text(Flatten(args)[0]) + TailPositional(segs, Flatten(args), 1)
  {
    var vs := Flatten(args);
    var t := LeadingTemplate(splat, k, segs);
    ParseLeading(splat, k, segs);
    var m := Marker(false, SigilOf(splat), k);
    var init := Fill(0, [], false, "");
    var first := Fill(1, [k], k == "params", Text(vs[0]));
    assert Step(t, Positional(vs), init, m) == first by {
      LeadingStarts(splat, k, segs);
      StepLeadingPositional(t, vs, init, m);
      EmptyAppend([k]);
      EmptyAppend(Text(vs[0]));
    }
    calc {
      FillAll(t, Positional(vs), Parse(StripParens(t)), init);
    == { FillAllAppend(t, Positional(vs), [m], TailPieces(segs), init); }
      FillAll(t, Positional(vs), TailPieces(segs), first);
    == { FillPositional(t, vs, segs, first); }
      Fill(1 + KeyCount(segs), [k] + SegKeys(segs), k == "params" || "params" in SegKeys(segs),
           Text(vs[0]) + TailPositional(segs, vs, 1));
    }
    assert Normalize(args) == Positional(vs);
  }

  // -------------------------------------------------------------------
  // Keys the prototype chain answers

  /** A template of plain text and one marker, whose key is not `params`
      and finds a truthy value, is the text, a slash and the value. */
  lemma UrlOneMarker(head: string, splat: bool, k: string, args: seq<UrlArg>)
    requires head != "" && PlainText(head) && IsKey(k) && k != "params"
    requires Truthy(ByKey(Normalize(args), k))
    ensures Url(head + Tail([KeySeg(splat, k)]), args) == head + "/" + Text(ByKey(Normalize(args), k))
  {
    var t := head + Tail([KeySeg(splat, k)]);
    var p := Normalize(args);
    var m := Marker(true, SigilOf(splat), k);
    var start := Fill(0, [], false, head);
    OneMarkerFill(head, splat, k, p);
    StepByKey(t, p, start, m);
    assert ([k] + []) == [k];
  }

  /** The fill of a plain head and one marker is the step on that marker
      from the head's text. */
  lemma OneMarkerFill(head: string, splat: bool, k: string, p: Params)
    requires head != "" && PlainText(head) && IsKey(k)
    ensures var t := head + Tail([KeySeg(splat, k)]);
      StripParens(t) == t
      && !StartsWith(t, Segment(Marker(true, SigilOf(splat), k)))
      && FillAll(t, p, Parse(t), Fill(0, [], false, ""))
         == Step(t, p, Fill(0, [], false, head), Marker(true, SigilOf(splat), k))
  {
    var t := head + Tail([KeySeg(splat, k)]);
    var m := Marker(true, SigilOf(splat), k);
    var init := Fill(0, [], false, "");
    OneMarkerParse(head, splat, k);
    FillAllAppend(t, p, LitPieces(head), [m], init);
    FillLits(t, p, head, init);
    EmptyAppend(head);
    FillAllOne(t, p, Fill(0, [], false, head), m);
  }

  /** A plain head and one marker segment: no parentheses, the head's
      characters and then the marker, which does not start the text. */
  lemma OneMarkerParse(head: string, splat: bool, k: string)
    requires head != "" && PlainText(head) && IsKey(k)
    ensures var t := head + Tail([KeySeg(splat, k)]);
      StripParens(t) == t
      && Parse(t) == LitPieces(head) + [Marker(true, SigilOf(splat), k)]
      && !StartsWith(t, Segment(Marker(true, SigilOf(splat), k)))
  {
    var segs := [KeySeg(splat, k)];
    assert ValidSeg(segs[0]);
    ParseSegments(head, segs);
    assert TailPieces(segs) == [Marker(true, SigilOf(splat), k)];
  }

  /** Folding over one piece is one step. */
  lemma FillAllOne(path: string, p: Params, acc: Fill, m: Piece)
    ensures FillAll(path, p, [m], acc) == Step(path, p, acc, m)
  {
    assert [m][1..] == [];
  }

  /** A marker named after a built-in array member reads that member when
      the values come as a list: it is written as the member's text and the
      positional counter does not move, so `url('list/:sort', 'x')` is
      `list/function sort() { [native code] }`. */
  lemma UrlArrayMember(head: string, splat: bool, k: string, args: seq<UrlArg>)
    requires head != "" && PlainText(head) && IsKey(k) && Builtin(ArrayProto, k)
    requires |args| > 0 && !args[0].Plain?
    ensures Url(head + Tail([KeySeg(splat, k)]), args) == head + "/" + Text(Inherited(ArrayProto, k))
  {
    assert Normalize(args) == Positional(Flatten(args));
    BuiltinIsWord(ArrayProto, k);
    UrlOneMarker(head, splat, k, args);
  }

  /** The same holds for the members of `Object.prototype` with a plain
      object that does not own the name: `url('x/:constructor', {})` writes
      `Object`'s source text. */
  lemma UrlObjectMember(head: string, splat: bool, k: string, d: Dict)
    requires head != "" && PlainText(head) && IsKey(k) && Builtin(ObjectProto, k) && k !in KeySet(d)
    ensures Url(head + Tail([KeySeg(splat, k)]), [Plain(d)]) == head + "/" + Text(Inherited(ObjectProto, k))
  {
    assert Normalize([Plain(d)]) == Named(d);
    BuiltinIsWord(ObjectProto, k);
    UrlOneMarker(head, splat, k, [Plain(d)]);
  }
}
