/**
 * URL building in the earlier `Backbone.Blazer.Router` (`url`). A template
 * is scanned the way `/:([A-Za-z_]+)/g` scans it: a marker is a colon
 * followed by letters and underscores. Each marker is replaced by the value
 * `params[key] || params[index++]` gives, `undefined` becoming the empty
 * string; the `/` before a marker, `*name` and parentheses stay as written.
 */
module LegacyUrl {
  import opened SeqFacts
  import opened JsValues
  import U = UrlTemplate

  /** `[A-Za-z_]` */
  predicate IsKeyChar(c: char) {
    ('a' <= c <= 'z') || ('A' <= c <= 'Z') || c == '_'
  }

  /** Length of the longest run of key characters that starts `s`. */
  function KeyRun(s: string): (n: nat)
    ensures n <= |s|
    ensures forall i :: 0 <= i < n ==> IsKeyChar(s[i])
    ensures n < |s| ==> !IsKeyChar(s[n])
    ensures s != [] && IsKeyChar(s[0]) ==> n >= 1
  {
    if s == [] || !IsKeyChar(s[0]) then 0 else 1 + KeyRun(s[1..])
  }

  /** A template piece: one literal character, or one `:name` marker. */
  datatype Piece = Lit(c: char) | Key(name: string)

  /** The left-to-right scan of `/:([A-Za-z_]+)/g`. */
  function Parse(s: string): seq<Piece>
    decreases |s|
  {
    if s == [] then []
    else if |s| >= 2 && s[0] == ':' && IsKeyChar(s[1]) then
      var n := KeyRun(s[1..]);
      [Key(s[1..1 + n])] + Parse(s[1 + n..])
    else [Lit(s[0])] + Parse(s[1..])
  }

  /** The text each piece covers. */
  function Render(ps: seq<Piece>): string {
    if ps == [] then ""
    else (match ps[0] case Lit(c) => [c] case Key(k) => ":" + k) + Render(ps[1..])
  }

  function MarkerKeys(ps: seq<Piece>): seq<string> {
    if ps == [] then []
    else if ps[0].Key? then [ps[0].name] + MarkerKeys(ps[1..])
    else MarkerKeys(ps[1..])
  }

  function MarkerCount(ps: seq<Piece>): nat {
    |MarkerKeys(ps)|
  }

  /** A marker name as the scan produces it: a non-empty run of key characters. */
  predicate KeyName(k: string) {
    |k| > 0 && forall i :: 0 <= i < |k| ==> IsKeyChar(k[i])
  }

  lemma RenderCons(p: Piece, ps: seq<Piece>)
    ensures Render([p] + ps) == (match p case Lit(c) => [c] case Key(k) => ":" + k) + Render(ps)
    ensures MarkerKeys([p] + ps) == (if p.Key? then [p.name] else []) + MarkerKeys(ps)
  {
    assert ([p] + ps)[1..] == ps;
  }

  /** The head of a template that starts with a marker. */
  lemma ParseKeyHead(s: string) returns (n: nat)
    requires |s| >= 2 && s[0] == ':' && IsKeyChar(s[1])
    ensures 1 <= n && 1 + n <= |s| && n == KeyRun(s[1..])
    ensures Parse(s) == [Key(s[1..1 + n])] + Parse(s[1 + n..])
    ensures s == ":" + s[1..1 + n] + s[1 + n..]
    ensures KeyName(s[1..1 + n])
  {
    n := KeyRun(s[1..]);
    assert s == [s[0]] + s[1..1 + n] + s[1 + n..];
  }

  /** The scan loses nothing. */
  lemma {:induction false} ParseRender(s: string)
    ensures Render(Parse(s)) == s
    decreases |s|
  {
    if s != [] {
      var p, rest := ParseStep(s);
      ParseRender(rest);
      RenderHead(p, Parse(rest), rest);
    }
  }

  /** The text one piece covers. */
  function PieceText(p: Piece): string {
    match p
    case Lit(c) => [c]
    case Key(k) => ":" + k
  }

  /** The scan of a non-empty text: its first piece, covering a prefix,
      then the scan of what follows. */
  lemma ParseStep(s: string) returns (p: Piece, rest: string)
    requires s != []
    ensures Parse(s) == [p] + Parse(rest) && s == PieceText(p) + rest && |rest| < |s|
  {
    if |s| >= 2 && s[0] == ':' && IsKeyChar(s[1]) {
      var n := ParseKeyHead(s);
      p, rest := Key(s[1..1 + n]), s[1 + n..];
    } else {
      ParseLitHead(s);
      p, rest := Lit(s[0]), s[1..];
      assert s == [s[0]] + s[1..];
    }
  }

  /** Rendering one more piece in front of pieces that render as `rest`. */
  lemma RenderHead(p: Piece, ps: seq<Piece>, rest: string)
    requires Render(ps) == rest
    ensures Render([p] + ps) == PieceText(p) + rest
  {
    RenderCons(p, ps);
  }

  /** Every marker the scan finds has a proper name. */
  lemma {:induction false} ParseKeys(s: string)
    ensures forall k :: k in MarkerKeys(Parse(s)) ==> KeyName(k)
    decreases |s|
  {
    if s != [] {
      if |s| >= 2 && s[0] == ':' && IsKeyChar(s[1]) {
        var n := ParseKeyHead(s);
        ParseKeys(s[1 + n..]);
        RenderCons(Key(s[1..1 + n]), Parse(s[1 + n..]));
        assert MarkerKeys(Parse(s)) == [s[1..1 + n]] + MarkerKeys(Parse(s[1 + n..]));
      } else {
        ParseLitHead(s);
        ParseKeys(s[1..]);
        RenderCons(Lit(s[0]), Parse(s[1..]));
        assert MarkerKeys(Parse(s)) == MarkerKeys(Parse(s[1..]));
      }
    }
  }

  /** The head of a template that does not start with a marker. */
  lemma ParseLitHead(s: string)
    requires s != [] && !(|s| >= 2 && s[0] == ':' && IsKeyChar(s[1]))
    ensures Parse(s) == [Lit(s[0])] + Parse(s[1..])
  {
  }

  /** The pieces of a colon-free text: one literal per character. */
  function Lits(a: string): (ps: seq<Piece>)
    ensures |ps| == |a|
  {
    if a == [] then [] else [Lit(a[0])] + Lits(a[1..])
  }

  /** A colon-free prefix is scanned character by character. */
  lemma {:induction false} ParseLits(a: string, rest: string)
    requires ':' !in a
    ensures Parse(a + rest) == Lits(a) + Parse(rest)
  {
    if a == [] {
      assert a + rest == rest;
    } else {
      assert ':' !in a[1..] by {
        forall i | 0 <= i < |a[1..]| ensures a[1..][i] != ':' {
          assert a[1..][i] == a[i + 1];
        }
      }
      ParseLits(a[1..], rest);
      assert (a + rest)[0] == a[0] && (a + rest)[1..] == a[1..] + rest;
      Assoc([Lit(a[0])], Lits(a[1..]), Parse(rest));
    }
  }

  /** A marker followed by a character that cannot extend its name. */
  lemma ParseKey(k: string, rest: string)
    requires KeyName(k) && (rest == [] || !IsKeyChar(rest[0]))
    ensures Parse(":" + k + rest) == [Key(k)] + Parse(rest)
  {
    var s := ":" + k + rest;
    assert s[1..] == k + rest;
    assert KeyRun(k + rest) >= |k| by {
      KeyRunPrefix(k, rest);
    }
    KeyRunPrefix(k, rest);
    assert s[1..1 + |k|] == k && s[1 + |k|..] == rest;
  }

  lemma {:induction false} KeyRunPrefix(k: string, rest: string)
    requires (forall i :: 0 <= i < |k| ==> IsKeyChar(k[i])) && (rest == [] || !IsKeyChar(rest[0]))
    ensures KeyRun(k + rest) == |k|
  {
    if k == [] {
      assert k + rest == rest;
    } else {
      assert (k + rest)[1..] == k[1..] + rest;
      KeyRunPrefix(k[1..], rest);
    }
  }

  /** A template without a colon has no marker. */
  lemma {:induction false} NoColonNoMarker(s: string)
    requires ':' !in s
    ensures MarkerCount(Parse(s)) == 0
    decreases |s|
  {
    if s != [] {
      assert ':' !in s[1..] by {
        forall i | 0 <= i < |s[1..]| ensures s[1..][i] != ':' {
          assert s[1..][i] == s[i + 1];
        }
      }
      NoColonNoMarker(s[1..]);
      assert ([Lit(s[0])] + Parse(s[1..]))[1..] == Parse(s[1..]);
    }
  }

  /** What a replaced marker becomes: `undefined` is dropped, every other
      value is converted to a string (so `null` gives `"null"`). */
  function Shown(v: Val): (t: string)
    ensures v == Undef ==> t == ""
    ensures v != Undef ==> t == Text(v)
  {
    if v == Undef then "" else Text(v)
  }

  /** The replacement loop, from positional counter `index` on. */
  function Fill(p: U.Params, ps: seq<Piece>, index: nat): string {
    if ps == [] then ""
    else match ps[0]
      case Lit(c) => [c] + Fill(p, ps[1..], index)
      case Key(k) =>
        var byKey := U.ByKey(p, k);
        if Truthy(byKey) then Shown(byKey) + Fill(p, ps[1..], index)
        else Shown(U.ByIndex(p, index)) + Fill(p, ps[1..], index + 1)
  }

  /** `Router.prototype.url(path, ...args)`. A plain-object first argument
      is read by key; otherwise the arguments are flattened into positions.
      Without any argument `params` is `undefined`, and reading a marker's
      value from it throws (`None`). */
  function Url(template: string, args: seq<U.UrlArg>): (r: Option<string>)
    ensures r.None? <==> args == [] && MarkerCount(Parse(template)) > 0
    ensures args == [] && r.Some? ==> r.value == template
  {
    if args == [] then
      if MarkerCount(Parse(template)) > 0 then None
      else
        FillUnmarked(U.Named([]), Parse(template), 0);
        ParseRender(template);
        Some(template)
    else Some(Fill(U.Normalize(args), Parse(template), 0))
  }

  // -------------------------------------------------------------------
  // What the filled URL is

  /** The pieces with the `j`-th marker replaced by `rs[j]`. */
  function Subst(ps: seq<Piece>, rs: seq<string>): string
    requires MarkerCount(ps) <= |rs|
  {
    if ps == [] then ""
    else match ps[0]
      case Lit(c) => [c] + Subst(ps[1..], rs)
      case Key(_) => rs[0] + Subst(ps[1..], rs[1..])
  }

  /** The marker texts themselves. */
  function MarkerTexts(ps: seq<Piece>): (rs: seq<string>)
    ensures |rs| == MarkerCount(ps)
  {
    if ps == [] then []
    else if ps[0].Key? then [":" + ps[0].name] + MarkerTexts(ps[1..])
    else MarkerTexts(ps[1..])
  }

  /** Substituting each marker by its own text gives the template back:
      a filled URL differs from its template only where the markers were. */
  lemma {:induction false} SubstRender(ps: seq<Piece>)
    ensures Subst(ps, MarkerTexts(ps)) == Render(ps)
  {
    if ps != [] {
      SubstRender(ps[1..]);
    }
  }

  /** Without markers, filling changes nothing. */
  lemma {:induction false} FillUnmarked(p: U.Params, ps: seq<Piece>, index: nat)
    requires MarkerCount(ps) == 0
    ensures Fill(p, ps, index) == Render(ps)
  {
    if ps != [] {
      FillUnmarked(p, ps[1..], index);
    }
  }

  /** The values at positions `i`, `i + 1`, ... for `n` markers. */
  function ShownFrom(vs: seq<Val>, i: nat, n: nat): (rs: seq<string>)
    ensures |rs| == n
    decreases n
  {
    if n == 0 then [] else [Shown(if i < |vs| then vs[i] else Undef)] + ShownFrom(vs, i + 1, n - 1)
  }

  /** With a list of values, each marker takes the next position in turn,
      whatever its name, as long as the array itself does not answer it
      (`length` and the built-in members do). */
  lemma {:induction false} FillPositional(vs: seq<Val>, ps: seq<Piece>, i: nat)
    requires forall k :: k in MarkerKeys(ps) ==> KeyName(k) && U.OrdinaryKey(k)
    ensures Fill(U.Positional(vs), ps, i) == Subst(ps, ShownFrom(vs, i, MarkerCount(ps)))
  {
    if ps != [] {
      match ps[0]
      case Lit(c) =>
        FillPositional(vs, ps[1..], i);
      case Key(k) =>
        assert MarkerKeys(ps) == [k] + MarkerKeys(ps[1..]);
        assert U.ByKey(U.Positional(vs), k) == Undef;
        FillPositional(vs, ps[1..], i + 1);
        assert ShownFrom(vs, i, MarkerCount(ps))[1..] == ShownFrom(vs, i + 1, MarkerCount(ps[1..]));
    }
  }

  /** The values an object gives the markers, by name. */
  function ByName(d: Dict, ks: seq<string>): (rs: seq<string>)
    ensures |rs| == |ks|
  {
    if ks == [] then [] else [Text(Get(d, ks[0]))] + ByName(d, ks[1..])
  }

  /** With an object holding a truthy value for every marker, each marker
      takes its own value. */
  lemma {:induction false} FillNamed(d: Dict, ps: seq<Piece>, i: nat)
    requires forall k :: k in MarkerKeys(ps) ==> Truthy(Get(d, k))
    ensures Fill(U.Named(d), ps, i) == Subst(ps, ByName(d, MarkerKeys(ps)))
  {
    if ps != [] {
      match ps[0]
      case Lit(c) =>
        FillNamed(d, ps[1..], i);
      case Key(k) =>
        assert MarkerKeys(ps) == [k] + MarkerKeys(ps[1..]);
        FillNamed(d, ps[1..], i);
    }
  }

  /** `url(template, [v0, v1, ...])`: the `j`-th marker becomes the `j`-th
      value, `undefined` (or a missing one) becomes empty, extra values are
      ignored. This holds for every marker name that is not `length` or
      the name of a built-in array member. */
  lemma UrlPositional(t: string, vs: seq<Val>)
    requires forall k :: k in MarkerKeys(Parse(t)) ==> U.OrdinaryKey(k)
    ensures Url(t, [U.List(vs)]) == Some(Subst(Parse(t), ShownFrom(vs, 0, MarkerCount(Parse(t)))))
  {
    ParseKeys(t);
    assert U.Flatten([U.List(vs)]) == vs + U.Flatten([]);
    assert vs + [] == vs;
    FillPositional(vs, Parse(t), 0);
  }

  /** `url(template, {k: v, ...})` with a truthy value for every marker:
      each marker becomes its value. */
  lemma UrlNamed(t: string, d: Dict)
    requires forall k :: k in MarkerKeys(Parse(t)) ==> Truthy(Get(d, k))
    ensures Url(t, [U.Plain(d)]) == Some(Subst(Parse(t), ByName(d, MarkerKeys(Parse(t)))))
  {
    FillNamed(d, Parse(t), 0);
  }

  /** A template without `:` comes back unchanged, `*name` markers and
      parentheses included, whatever the arguments. */
  lemma UrlNoColon(t: string, args: seq<U.UrlArg>)
    requires ':' !in t
    ensures Url(t, args) == Some(t)
  {
    NoColonNoMarker(t);
    if args != [] {
      FillUnmarked(U.Normalize(args), Parse(t), 0);
      ParseRender(t);
    }
  }

  // -------------------------------------------------------------------
  // Examples

  /** Literals are copied as they are. */
  lemma {:induction false} FillLits(p: U.Params, a: string, rest: seq<Piece>, i: nat)
    ensures Fill(p, Lits(a) + rest, i) == a + Fill(p, rest, i)
  {
    if a == [] {
      assert Lits(a) + rest == rest;
    } else {
      LitsCons(a, rest);
      FillLits(p, a[1..], rest, i);
      FillLit(p, a[0], Lits(a[1..]) + rest, i);
      Assoc([a[0]], a[1..], Fill(p, rest, i));
      ConsSplit(a);
    }
  }

  lemma LitsCons(a: string, rest: seq<Piece>)
    requires a != []
    ensures Lits(a) + rest == [Lit(a[0])] + (Lits(a[1..]) + rest)
  {
    assert Lits(a) == [Lit(a[0])] + Lits(a[1..]);
  }

  lemma FillLit(p: U.Params, c: char, ps: seq<Piece>, i: nat)
    ensures Fill(p, [Lit(c)] + ps, i) == [c] + Fill(p, ps, i)
  {
    assert ([Lit(c)] + ps)[1..] == ps;
  }

  lemma FillKey(p: U.Params, k: string, rest: seq<Piece>, i: nat)
    ensures var byKey := U.ByKey(p, k);
      Fill(p, [Key(k)] + rest, i)
      == if Truthy(byKey) then Shown(byKey) + Fill(p, rest, i)
         else Shown(U.ByIndex(p, i)) + Fill(p, rest, i + 1)
  {
    assert ([Key(k)] + rest)[1..] == rest;
  }

  /** The pieces of a colon-free text followed by one marker. */
  lemma ParseTail(a: string, k: string)
    requires ':' !in a && KeyName(k)
    ensures Parse(a + ":" + k) == Lits(a) + ([Key(k)] + [])
  {
    ParseKey(k, "");
    assert ":" + k + "" == ":" + k;
    ParseLits(a, ":" + k);
    Assoc(a, ":", k);
  }

  /** An `undefined` value empties its marker but keeps what precedes it,
      the slash included: `url('users/:id', {})` is `'users/'`. */
  lemma UrlKeepsSlash(a: string, k: string)
    requires ':' !in a && KeyName(k) && !Builtin(ObjectProto, k)
    ensures Url(a + ":" + k, [U.Plain([])]) == Some(a)
  {
    ParseTail(a, k);
    assert U.Normalize([U.Plain([])]) == U.Named([]);
    FillLits(U.Named([]), a, [Key(k)] + [], 0);
    FillKey(U.Named([]), k, [], 0);
    assert Fill(U.Named([]), [], 1) == "";
    assert a + ("" + "") == a;
  }

  /** A falsy value found by name gives way to the next positional one,
      read from the same object: with `{id: 0, 0: 'x'}` the marker `:id`
      becomes `'x'`. */
  lemma UrlFalsyFallsBack(a: string, k: string, d: Dict)
    requires ':' !in a && KeyName(k) && !Truthy(Read(d, k))
    ensures Url(a + ":" + k, [U.Plain(d)]) == Some(a + Shown(Get(d, "0")))
  {
    ParseTail(a, k);
    assert U.Normalize([U.Plain(d)]) == U.Named(d);
    FillLits(U.Named(d), a, [Key(k)] + [], 0);
    FillKey(U.Named(d), k, [], 0);
    assert NatToString(0) == "0";
    assert Fill(U.Named(d), [], 1) == "";
    assert Shown(Get(d, "0")) + "" == Shown(Get(d, "0"));
  }

  /** `null` is not `undefined`: it is written out, so
      `url('users/:id', [null])` is `'users/null'`. */
  lemma UrlWritesNull(a: string, k: string)
    requires ':' !in a && KeyName(k) && U.OrdinaryKey(k)
    ensures Url(a + ":" + k, [U.List([Null])]) == Some(a + "null")
  {
    ParseTail(a, k);
    var p := U.Positional([Null]);
    assert U.Normalize([U.List([Null])]) == p by {
      assert U.Flatten([U.List([Null])]) == [Null] + U.Flatten([]);
    }
    FillLits(p, a, [Key(k)] + [], 0);
    FillKey(p, k, [], 0);
    assert Fill(p, [], 1) == "";
    assert Shown(Null) == "null";
    assert "null" + "" == "null";
  }

  /** A marker named after a built-in array member reads the member from a
      list of values: `url('list/:sort', ['x'])` is
      `'list/function sort() { [native code] }'`. */
  lemma UrlArrayMember(a: string, k: string, vs: seq<Val>)
    requires ':' !in a && KeyName(k) && Builtin(ArrayProto, k)
    ensures Url(a + ":" + k, [U.List(vs)]) == Some(a + Text(Inherited(ArrayProto, k)))
  {
    ParseTail(a, k);
    var p := U.Positional(vs);
    assert U.Normalize([U.List(vs)]) == p by {
      assert U.Flatten([U.List(vs)]) == vs + U.Flatten([]);
      assert vs + [] == vs;
    }
    FillLits(p, a, [Key(k)] + [], 0);
    FillKey(p, k, [], 0);
    assert Fill(p, [], 0) == "";
    assert Text(Inherited(ArrayProto, k)) + "" == Text(Inherited(ArrayProto, k));
  }

  /** The same with a plain object that does not own the name of an
      `Object.prototype` member: `url('x/:constructor', {})` writes the
      source text of `Object`. */
  lemma UrlObjectMember(a: string, k: string, d: Dict)
    requires ':' !in a && KeyName(k) && Builtin(ObjectProto, k) && k !in KeySet(d)
    ensures Url(a + ":" + k, [U.Plain(d)]) == Some(a + Text(Inherited(ObjectProto, k)))
  {
    ParseTail(a, k);
    var p := U.Named(d);
    assert U.Normalize([U.Plain(d)]) == p;
    FillLits(p, a, [Key(k)] + [], 0);
    FillKey(p, k, [], 0);
    assert Fill(p, [], 0) == "";
    assert Text(Inherited(ObjectProto, k)) + "" == Text(Inherited(ObjectProto, k));
  }
}
