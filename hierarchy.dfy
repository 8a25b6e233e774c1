/**
 * The tree that dotted route names span (`users`, `users.show`,
 * `users.show.documents`): `isAncestor`, `ancestors`, `nodes` and `siblings`
 * of a router, over its `handlers` list.
 */
module Hierarchy {
  import opened SeqFacts
  import opened JsValues
  import opened UrlTemplate
  import opened Registry

  /** An object of the lists these queries return; `active` is present only
      in the answer of `siblings`. */
  datatype Node = Node(name: string, route: Option<string>, url: string, active: Option<bool>)

  /** How the query was called: with no argument (the current route and its
      parameters), with an object (the current route and those parameters),
      or with a route name and a parameters argument (`undefined` when left out). */
  datatype Query = NoArgs | ForObject(d: Dict) | ForName(name: string, params: UrlArg)

  /** The route name and the parameters a query works on. */
  function Subject(q: Query, currentName: string, currentParams: Dict): (string, UrlArg) {
    match q
    case NoArgs => (currentName, Plain(currentParams))
    case ForObject(d) => (currentName, Plain(Extend([], d)))
    case ForName(name, params) => (name, params)
  }

  /** `isAncestor(routeName)`, read for its truthiness: the current route has
      a truthy name that starts with `routeName` followed by a dot. */
  predicate IsAncestor(currentName: Option<string>, routeName: Val) {
    currentName.Some? && currentName.value != "" && routeName.Str?
    && StartsWith(currentName.value, routeName.s + ".")
  }

  // -------------------------------------------------------------------
  // ancestors

  /** The names `ancestors` looks up, shortest first: the first `k` dotted
      segments of the name, joined, for k = 1, 2, ... */
  function Chain(segs: seq<string>, k: nat): (r: seq<string>)
    requires k <= |segs|
    ensures |r| == k
    ensures forall j :: 0 <= j < k ==> r[j] == Join(segs[..j + 1], '.')
  {
    if k == 0 then [] else Chain(segs, k - 1) + [Join(segs[..k], '.')]
  }

  function Ancestry(name: string): seq<string> {
    Chain(Split(name, '.'), |Split(name, '.')|)
  }

  /** `this.url(route, params)` */
  function NodeUrl(route: Option<string>, params: UrlArg): string {
    Url(TemplateText(route), [params])
  }

  /** The names that have a route, each with that route and its url. */
  function NodesAt<H>(hs: seq<Entry<H>>, names: seq<string>, params: UrlArg): seq<Node> {
    if names == [] then []
    else
      var route := GetRoute(hs, Some(names[0]));
      (if route.Some? then [RouteNode(hs, names[0], params)] else [])
      + NodesAt(hs, names[1..], params)
  }

  /** What `ancestors` returns, root first. */
  function AncestorNodes<H>(hs: seq<Entry<H>>, name: string, params: UrlArg): seq<Node> {
    NodesAt(hs, Ancestry(name), params)
  }

  function Reverse<T>(s: seq<T>): (r: seq<T>)
    ensures |r| == |s|
  {
    if s == [] then [] else Reverse(s[1..]) + [s[0]]
  }

  /** `ancestors(...)`: walks the dotted segments from the full name down,
      pushing a node for each prefix that has a route, and reverses. */
  method Ancestors<H>(hs: seq<Entry<H>>, q: Query, currentName: string, currentParams: Dict)
    returns (nodes: seq<Node>)
    ensures nodes == AncestorNodes(hs, Subject(q, currentName, currentParams).0, Subject(q, currentName, currentParams).1)
  {
    var (routeName, params) := Subject(q, currentName, currentParams);
    ghost var all := Split(routeName, '.');
    var segments := Split(routeName, '.');
    nodes := [];
    while |segments| > 0
      invariant |segments| <= |all| && segments == all[..|segments|]
      invariant AncestorNodes(hs, routeName, params) == NodesAt(hs, Chain(all, |segments|), params) + Reverse(nodes)
    {
      var name := Join(segments, '.');
      var route := GetRoute(hs, Some(name));
      ChainStep(hs, all, |segments|, nodes, params);
      if route.Some? {
        nodes := nodes + [Node(name, route, NodeUrl(route, params), None)];
      }
      segments := segments[..|segments| - 1];
    }
    nodes := Reverse(nodes);
    EmptyAppend(nodes);
  }

  /** One step of the walk: the node for the `k`-segment prefix, if any, moves
      from the not-yet-visited part onto the reversed output. */
  lemma ChainStep<H>(hs: seq<Entry<H>>, all: seq<string>, k: nat, nodes: seq<Node>, params: UrlArg)
    requires 0 < k <= |all|
    ensures var name := Join(all[..k], '.');
            var route := GetRoute(hs, Some(name));
            var nodes' := if route.Some? then nodes + [Node(name, route, NodeUrl(route, params), None)] else nodes;
            NodesAt(hs, Chain(all, k), params) + Reverse(nodes) == NodesAt(hs, Chain(all, k - 1), params) + Reverse(nodes')
  {
    var name := Join(all[..k], '.');
    var route := GetRoute(hs, Some(name));
    assert Chain(all, k) == Chain(all, k - 1) + [name];
    NodesAtAppend(hs, Chain(all, k - 1), [name], params);
    var one := NodesAt(hs, [name], params);
    assert NodesAt(hs, [name][1..], params) == [];
    if route.Some? {
      var n := Node(name, route, NodeUrl(route, params), None);
      assert one == [n];
      ReverseSnoc(nodes, n);
    } else {
      assert one == [];
      EmptyAppend(Reverse(nodes));
    }
    Assoc(NodesAt(hs, Chain(all, k - 1), params), one, Reverse(nodes));
  }

  lemma {:induction false} ReverseSnoc<T>(s: seq<T>, x: T)
    ensures Reverse(s + [x]) == [x] + Reverse(s)
  {
    if s != [] {
      DropAppend(s, [x]);
      ReverseSnoc(s[1..], x);
      Assoc([x], Reverse(s[1..]), [s[0]]);
    }
  }

  lemma {:induction false} NodesAtAppend<H>(hs: seq<Entry<H>>, a: seq<string>, b: seq<string>, params: UrlArg)
    ensures NodesAt(hs, a + b, params) == NodesAt(hs, a, params) + NodesAt(hs, b, params)
  {
    if a == [] {
      EmptyAppend(b);
      EmptyAppend(NodesAt(hs, b, params));
    } else {
      DropAppend(a, b);
      NodesAtAppend(hs, a[1..], b, params);
      var route := GetRoute(hs, Some(a[0]));
      Assoc(if route.Some? then [Node(a[0], route, NodeUrl(route, params), None)] else [],
            NodesAt(hs, a[1..], params), NodesAt(hs, b, params));
    }
  }
  /** The node of a name that has a route: that route and its url. */
  function RouteNode<H>(hs: seq<Entry<H>>, name: string, params: UrlArg): Node {
    var route := GetRoute(hs, Some(name));
    Node(name, route, NodeUrl(route, params), None)
  }

  /** A node carries the route `getRoute` finds for its name and that
      route's url. */
  predicate Registered<H>(hs: seq<Entry<H>>, n: Node, params: UrlArg) {
    n.route == GetRoute(hs, Some(n.name)) && n.route.Some? && n.url == Url(n.route.value, [params])
    && n.active.None?
  }

  /** Each node stands for one of the names and carries its route; every
      name that has a route has its node. */
  lemma {:induction false} NodesAtMembers<H>(hs: seq<Entry<H>>, names: seq<string>, params: UrlArg)
    ensures forall n :: n in NodesAt(hs, names, params) ==> n.name in names && Registered(hs, n, params)
    ensures forall x :: x in names && GetRoute(hs, Some(x)).Some? ==> RouteNode(hs, x, params) in NodesAt(hs, names, params)
  {
    if names != [] {
      NodesAtMembers(hs, names[1..], params);
      assert forall x :: x in names[1..] ==> x in names;
      assert forall x :: x in names ==> x == names[0] || x in names[1..];
    }
  }


  /** A name is among the looked-up ones exactly when it is the full name or
      a dotted prefix of it, which is what `isAncestor` tests. */
  lemma AncestryMembers(name: string, x: string)
    ensures x in Ancestry(name) <==> x == name || StartsWith(name, x + ".")
  {
    if x in Ancestry(name) {
      AncestryMemberIsPrefix(name, x);
    }
    if x == name || StartsWith(name, x + ".") {
      PrefixIsAncestryMember(name, x);
    }
  }

  /** Each entry of the chain is the name or a dotted prefix of it. */
  lemma AncestryMemberIsPrefix(name: string, x: string)
    requires x in Ancestry(name)
    ensures x == name || StartsWith(name, x + ".")
  {
    var segs := Split(name, '.');
    var chain := Ancestry(name);
    JoinSplit(name, '.');
    var j :| 0 <= j < |chain| && chain[j] == x;
    if j + 1 < |segs| {
      JoinPrefix(segs, j + 1, '.');
      assert name == x + "." + Join(segs[j + 1..], '.');
      assert name[..|x + "."|] == x + ".";
    } else {
      assert segs[..j + 1] == segs;
    }
  }

  /** The name and each of its dotted prefixes are in the chain. */
  lemma PrefixIsAncestryMember(name: string, x: string)
    requires x == name || StartsWith(name, x + ".")
    ensures x in Ancestry(name)
  {
    var segs := Split(name, '.');
    var chain := Ancestry(name);
    JoinSplit(name, '.');
    if x == name {
      assert segs[..|segs|] == segs;
      assert chain[|segs| - 1] == x;
    } else {
      var rest := name[|x| + 1..];
      assert name == x + ['.'] + rest by {
        assert name[..|x| + 1] == x + ".";
        TakeDrop(name, |x| + 1);
      }
      SplitAppendSep(x, rest, '.');
      var j := |Split(x, '.')|;
      assert segs[..j] == Split(x, '.');
      JoinSplit(x, '.');
      assert chain[j - 1] == x;
    }
  }


  /** `isAncestor(x)` holds exactly when `x` is one of the names
      `ancestors` looks up for the current name, other than that name
      itself. */
  lemma IsAncestorMeaning(current: Option<string>, routeName: Val)
    ensures IsAncestor(current, routeName)
            <==> current.Some? && current.value != "" && routeName.Str?
                 && routeName.s in Ancestry(current.value) && routeName.s != current.value
  {
    if current.Some? && routeName.Str? {
      AncestryMembers(current.value, routeName.s);
      if StartsWith(current.value, routeName.s + ".") {
        assert |routeName.s + "."| <= |current.value|;
      }
    }
  }

  /** The looked-up names get strictly longer: each extends the one before. */
  lemma AncestryLonger(name: string)
    ensures var chain := Ancestry(name);
            forall i, j :: 0 <= i < j < |chain| ==> |chain[i]| < |chain[j]|
  {
    var segs := Split(name, '.');
    var chain := Ancestry(name);
    forall i, j | 0 <= i < j < |chain|
      ensures |chain[i]| < |chain[j]|
    {
      JoinPrefix(segs[..j + 1], i + 1, '.');
      assert segs[..j + 1][..i + 1] == segs[..i + 1];
    }
  }

  /** Names strictly lengthen along the list: shortest, that is root, first. */
  predicate RootFirst(ns: seq<Node>) {
    forall i, j :: 0 <= i < j < |ns| ==> |ns[i].name| < |ns[j].name|
  }

  lemma RootFirstCons(n: Node, ns: seq<Node>)
    requires RootFirst(ns)
    requires forall m :: m in ns ==> |n.name| < |m.name|
    ensures RootFirst([n] + ns)
  {
    var r := [n] + ns;
    forall i, j | 0 <= i < j < |r|
      ensures |r[i].name| < |r[j].name|
    {
      assert r[j] == ns[j - 1];
      if i > 0 {
        assert r[i] == ns[i - 1];
      }
    }
  }

  lemma {:induction false} NodesAtLonger<H>(hs: seq<Entry<H>>, names: seq<string>, params: UrlArg)
    requires forall i, j :: 0 <= i < j < |names| ==> |names[i]| < |names[j]|
    ensures RootFirst(NodesAt(hs, names, params))
  {
    if names != [] {
      var tail := NodesAt(hs, names[1..], params);
      NodesAtLonger(hs, names[1..], params);
      NodesAtMembers(hs, names[1..], params);
      forall x | x in names[1..]
        ensures |names[0]| < |x|
      {
        var k :| 0 <= k < |names[1..]| && names[1..][k] == x;
        assert names[k + 1] == x;
      }
      if GetRoute(hs, Some(names[0])).Some? {
        RootFirstCons(RouteNode(hs, names[0], params), tail);
      } else {
        EmptyAppend(tail);
      }
    }
  }

  /** `ancestors` answers with exactly the routes registered under the name
      itself or under a name `isAncestor` holds for, root first, each with
      the url of its route. */
  lemma AncestorsExact<H>(hs: seq<Entry<H>>, name: string, params: UrlArg)
    ensures forall n :: n in AncestorNodes(hs, name, params) ==>
              (n.name == name || IsAncestor(Some(name), Str(n.name))) && Registered(hs, n, params)
    ensures forall x :: (x == name || IsAncestor(Some(name), Str(x))) && GetRoute(hs, Some(x)).Some? ==>
              RouteNode(hs, x, params) in AncestorNodes(hs, name, params)
    ensures RootFirst(AncestorNodes(hs, name, params))
  {
    NodesAtMembers(hs, Ancestry(name), params);
    AncestryLonger(name);
    NodesAtLonger(hs, Ancestry(name), params);
    forall n | n in AncestorNodes(hs, name, params)
      ensures n.name == name || IsAncestor(Some(name), Str(n.name))
    {
      AncestryMembers(name, n.name);
    }
    forall x | (x == name || IsAncestor(Some(name), Str(x))) && GetRoute(hs, Some(x)).Some?
      ensures x in Ancestry(name)
    {
      AncestryMembers(name, x);
    }
  }

  // -------------------------------------------------------------------
  // nodes and siblings

  /** The object pushed for a handler entry with a truthy name. */
  function NodeOf<H>(e: Entry<H>, params: UrlArg, active: Option<bool>): Node
    requires EntryName(e).Some?
  {
    Node(EntryName(e).value, EntryRoute(e), NodeUrl(EntryRoute(e), params), active)
  }

  /** What `nodes` returns: in registration order, every entry whose name
      starts with the route name and a dot. */
  function Children<H>(hs: seq<Entry<H>>, routeName: string, params: UrlArg): seq<Node> {
    if hs == [] then []
    else
      var name := EntryName(hs[0]);
      (if name.Some? && StartsWith(name.value, routeName + ".") then [NodeOf(hs[0], params, None)] else [])
      + Children(hs[1..], routeName, params)
  }

  /** `nodes` holds one node per entry for which the route name is an
      ancestor, in `isAncestor`'s sense, of the entry's name. */
  lemma {:induction false} ChildrenMembers<H>(hs: seq<Entry<H>>, routeName: string, params: UrlArg)
    ensures |Children(hs, routeName, params)| <= |hs|
    ensures forall n :: n in Children(hs, routeName, params) <==>
              exists i :: 0 <= i < |hs| && IsAncestor(EntryName(hs[i]), Str(routeName))
                          && n == NodeOf(hs[i], params, None)
  {
    if hs != [] {
      ChildrenMembers(hs[1..], routeName, params);
      forall n | (exists i :: 0 <= i < |hs| && IsAncestor(EntryName(hs[i]), Str(routeName))
                              && n == NodeOf(hs[i], params, None))
        ensures n in Children(hs, routeName, params)
      {
        var i :| 0 <= i < |hs| && IsAncestor(EntryName(hs[i]), Str(routeName)) && n == NodeOf(hs[i], params, None);
        if i > 0 {
          assert hs[1..][i - 1] == hs[i];
        }
      }
      forall n | n in Children(hs[1..], routeName, params)
        ensures exists i :: 0 <= i < |hs| && IsAncestor(EntryName(hs[i]), Str(routeName))
                            && n == NodeOf(hs[i], params, None)
      {
        var i :| 0 <= i < |hs[1..]| && IsAncestor(EntryName(hs[1..][i]), Str(routeName))
                 && n == NodeOf(hs[1..][i], params, None);
        assert hs[1..][i] == hs[i + 1];
      }
    }
  }

  /** The name without its last dotted segment: `''` for a top-level name. */
  function Parent(routeName: string): string {
    var segs := Split(routeName, '.');
    Join(segs[..|segs| - 1], '.')
  }

  /** `siblings` keeps an entry whose name starts with the parent name and a
      dot and does not contain the route name followed by a dot. */
  predicate IsSibling<H>(e: Entry<H>, routeName: string) {
    EntryName(e).Some? && StartsWith(EntryName(e).value, Parent(routeName) + ".")
    && !Contains(EntryName(e).value, routeName + ".")
  }

  /** What `siblings` returns, in registration order; the entry named after
      the route itself is the active one. */
  function Siblings<H>(hs: seq<Entry<H>>, routeName: string, params: UrlArg): seq<Node> {
    if hs == [] then []
    else
      (if IsSibling(hs[0], routeName)
       then [NodeOf(hs[0], params, Some(EntryName(hs[0]).value == routeName))] else [])
      + Siblings(hs[1..], routeName, params)
  }

  lemma {:induction false} SiblingsMembers<H>(hs: seq<Entry<H>>, routeName: string, params: UrlArg)
    ensures forall n :: n in Siblings(hs, routeName, params) <==>
              exists i :: 0 <= i < |hs| && IsSibling(hs[i], routeName)
                          && n == NodeOf(hs[i], params, Some(EntryName(hs[i]).value == routeName))
  {
    if hs != [] {
      SiblingsMembers(hs[1..], routeName, params);
      forall n
        ensures n in Siblings(hs, routeName, params) <==>
                exists i :: 0 <= i < |hs| && IsSibling(hs[i], routeName)
                            && n == NodeOf(hs[i], params, Some(EntryName(hs[i]).value == routeName))
      {
        SiblingsCons(hs, routeName, params, n);
        if n in Siblings(hs[1..], routeName, params) {
          var i :| 0 <= i < |hs[1..]| && IsSibling(hs[1..][i], routeName)
                   && n == NodeOf(hs[1..][i], params, Some(EntryName(hs[1..][i]).value == routeName));
          assert hs[1..][i] == hs[i + 1];
        }
        if exists i :: 0 <= i < |hs| && IsSibling(hs[i], routeName)
                       && n == NodeOf(hs[i], params, Some(EntryName(hs[i]).value == routeName)) {
          var i :| 0 <= i < |hs| && IsSibling(hs[i], routeName)
                   && n == NodeOf(hs[i], params, Some(EntryName(hs[i]).value == routeName));
          if i > 0 {
            assert hs[1..][i - 1] == hs[i];
          }
        }
      }
    }
  }

  /** One step of `Siblings`: the head entry's node, if it is a sibling, or
      a node of the rest. */
  lemma SiblingsCons<H>(hs: seq<Entry<H>>, routeName: string, params: UrlArg, n: Node)
    requires hs != []
    ensures n in Siblings(hs, routeName, params) <==>
            (IsSibling(hs[0], routeName) && n == NodeOf(hs[0], params, Some(EntryName(hs[0]).value == routeName)))
            || n in Siblings(hs[1..], routeName, params)
  {
  }


  /** For a nested name, every entry registered under the name itself is
      among the siblings, marked active, and every other sibling is inactive;
      children of the name are never siblings. */
  lemma SiblingsOfNested<H>(hs: seq<Entry<H>>, routeName: string, params: UrlArg, i: nat)
    requires '.' in routeName
    requires i < |hs| && EntryName(hs[i]) == Some(routeName)
    ensures NodeOf(hs[i], params, Some(true)) in Siblings(hs, routeName, params)
    ensures forall n :: n in Siblings(hs, routeName, params) ==> (n.active == Some(true) <==> n.name == routeName)
    ensures forall n :: n in Siblings(hs, routeName, params) ==> !StartsWith(n.name, routeName + ".")
  {
    var segs := Split(routeName, '.');
    JoinSplit(routeName, '.');
    assert |segs| >= 2;
    JoinPrefix(segs, |segs| - 1, '.');
    assert routeName[..|Parent(routeName) + "."|] == Parent(routeName) + ".";
    assert !Contains(routeName, routeName + ".");
    assert IsSibling(hs[i], routeName);
    SiblingsMembers(hs, routeName, params);
    forall n | n in Siblings(hs, routeName, params)
      ensures !StartsWith(n.name, routeName + ".")
    {
      var j :| 0 <= j < |hs| && IsSibling(hs[j], routeName)
               && n == NodeOf(hs[j], params, Some(EntryName(hs[j]).value == routeName));
      assert n.name[0..] == n.name;
    }
  }

  /** For a top-level name the parent is empty, so `siblings` keeps only
      names that begin with a dot: the route itself is never among them. */
  lemma SiblingsOfTopLevel<H>(hs: seq<Entry<H>>, routeName: string, params: UrlArg)
    requires '.' !in routeName
    ensures forall n :: n in Siblings(hs, routeName, params) ==> |n.name| > 0 && n.name[0] == '.'
  {
    SplitNoSeparator(routeName, '.');
    assert Parent(routeName) == "";
    SiblingsMembers(hs, routeName, params);
    forall n | n in Siblings(hs, routeName, params)
      ensures |n.name| > 0 && n.name[0] == '.'
    {
      var j :| 0 <= j < |hs| && IsSibling(hs[j], routeName)
               && n == NodeOf(hs[j], params, Some(EntryName(hs[j]).value == routeName));
      TopLevelSibling(hs[j], routeName);
    }
  }

  lemma TopLevelSibling<H>(e: Entry<H>, routeName: string)
    requires Parent(routeName) == "" && IsSibling(e, routeName)
    ensures |EntryName(e).value| > 0 && EntryName(e).value[0] == '.'
  {
    var name := EntryName(e).value;
    assert "" + "." == ".";
    assert StartsWith(name, ".");
    assert name[..1] == ".";
  }
}
