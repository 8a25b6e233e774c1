/**
 * The slice of JavaScript's value semantics that the router relies on:
 * truthiness, conversion to string, plain objects used as dictionaries,
 * and the string helpers `split`, `join`, `indexOf` and `toLowerCase`.
 */
module JsValues {
  import opened SeqFacts

  datatype Option<T> = None | Some(value: T)

  /** A JavaScript value as the router sees it. `Obj` stands for any object
      (array, function, plain object) used where a scalar is expected;
      `Native` for a built-in object reached through a prototype (a method
      such as `Array.prototype.sort`, or a prototype itself), carried with
      the text `String` gives it. */
  datatype Val = Undef | Null | Bool(b: bool) | Num(n: int) | Str(s: string) | Obj | Native(shown: string)

  /** JavaScript truthiness: `undefined`, `null`, `false`, `0` and `''` are falsy. */
  predicate Truthy(v: Val) {
    match v
    case Undef => false
    case Null => false
    case Bool(b) => b
    case Num(n) => n != 0
    case Str(s) => s != ""
    case Obj => true
    case Native(_) => true
  }

  /** `_.isUndefined(v) || _.isNull(v)` */
  predicate Blank(v: Val) {
    v.Undef? || v.Null?
  }

  function DigitChar(d: nat): (c: char)
    requires d < 10
    ensures '0' <= c <= '9'
  {
    "0123456789"[d]
  }

  /** Decimal rendering of a natural number, as `String(n)` gives it. */
  function NatToString(n: nat): (s: string)
    ensures |s| > 0 && AllDigits(s)
    ensures s[0] == '0' ==> s == "0"
  {
    if n < 10 then [DigitChar(n)] else NatToString(n / 10) + [DigitChar(n % 10)]
  }

  function IntToString(i: int): string {
    if i < 0 then "-" + NatToString(-i) else NatToString(i)
  }

  predicate IsDigit(c: char) {
    '0' <= c <= '9'
  }

  predicate AllDigits(s: string) {
    forall i :: 0 <= i < |s| ==> IsDigit(s[i])
  }

  /** A key that a JavaScript array treats as an element index:
      decimal digits without a leading zero. */
  predicate IsIndexKey(s: string) {
    |s| > 0 && AllDigits(s) && (s[0] == '0' ==> s == "0")
  }

  function ParseDigits(s: string): nat
    requires AllDigits(s)
  {
    if s == [] then 0
    else ParseDigits(s[..|s| - 1]) * 10 + ((s[|s| - 1] as int) - ('0' as int))
  }

  /** Reading back a rendered number gives the number: the index keys of an
      array are exactly the renderings of its indices. */
  lemma {:induction false} ParseNatToString(n: nat)
    ensures IsIndexKey(NatToString(n))
    ensures ParseDigits(NatToString(n)) == n
  {
    var s := NatToString(n);
    if n >= 10 {
      ParseNatToString(n / 10);
      assert s[..|s| - 1] == NatToString(n / 10);
    }
  }

  /** `String(v)`, the conversion a string concatenation or `join` applies. */
  function Text(v: Val): string {
    match v
    case Undef => "undefined"
    case Null => "null"
    case Bool(b) => if b then "true" else "false"
    case Num(n) => IntToString(n)
    case Str(s) => s
    case Obj => "[object Object]"
    case Native(t) => t
  }

  /** A plain object as its own enumerable properties, in enumeration order. */
  type Dict = seq<(string, Val)>

  function Keys(d: Dict): (ks: seq<string>)
    ensures |ks| == |d| && forall i :: 0 <= i < |d| ==> ks[i] == d[i].0
  {
    if d == [] then [] else [d[0].0] + Keys(d[1..])
  }

  /** The property names of `d`. */
  function KeySet(d: Dict): set<string> {
    if d == [] then {} else {d[0].0} + KeySet(d[1..])
  }

  /** No property name occurs twice, as in every JavaScript object. */
  predicate UniqueKeys(d: Dict) {
    d == [] || (d[0].0 !in KeySet(d[1..]) && UniqueKeys(d[1..]))
  }

  /** `d[k]`: a missing property reads as `undefined`. */
  function Get(d: Dict, k: string): (v: Val)
    ensures k !in KeySet(d) ==> v == Undef
  {
    if d == [] then Undef else if d[0].0 == k then d[0].1 else Get(d[1..], k)
  }

  // -------------------------------------------------------------------
  // The prototype chain

  /** Where a read continues when the object does not own the property:
      `Object.prototype` for a plain object, `Array.prototype` (and then
      `Object.prototype`) for an array. */
  datatype Proto = ObjectProto | ArrayProto

  /** The methods of `Object.prototype` other than `constructor`
      (ECMAScript 2023). */
  function ObjectMethodNames(): seq<string> {
    ["hasOwnProperty", "isPrototypeOf", "propertyIsEnumerable", "toLocaleString", "toString",
     "valueOf", "__defineGetter__", "__defineSetter__", "__lookupGetter__", "__lookupSetter__"]
  }

  /** The methods of `Array.prototype` other than `constructor`
      (ECMAScript 2023), in four groups. */
  function ArrayMethodNames(): seq<string> {
    ArrayNames1() + ArrayNames2() + ArrayNames3() + ArrayNames4()
  }

  function ArrayNames1(): seq<string> {
    ["at", "concat", "copyWithin", "entries", "every", "fill", "filter", "find", "findIndex", "findLast"]
  }

  function ArrayNames2(): seq<string> {
    ["findLastIndex", "flat", "flatMap", "forEach", "includes", "indexOf", "join", "keys", "lastIndexOf", "map"]
  }

  function ArrayNames3(): seq<string> {
    ["pop", "push", "reduce", "reduceRight", "reverse", "shift", "slice", "some", "sort", "splice"]
  }

  function ArrayNames4(): seq<string> {
    ["toLocaleString", "toReversed", "toSorted", "toSpliced", "toString", "unshift", "values", "with"]
  }

  /** `k` is one of the methods of `Object.prototype`. */
  predicate ObjectMethod(k: string) {
    exists i | 0 <= i < |ObjectMethodNames()| :: ObjectMethodNames()[i] == k
  }

  /** `k` is one of the methods of `Array.prototype`. */
  predicate ArrayMethod(k: string) {
    exists i | 0 <= i < |ArrayMethodNames()| :: ArrayMethodNames()[i] == k
  }

  /** A name the prototype chain answers: the methods, `constructor` and
      the `__proto__` accessor. */
  predicate Builtin(p: Proto, k: string) {
    k == "constructor" || k == "__proto__" || ObjectMethod(k) || (p == ArrayProto && ArrayMethod(k))
  }

  /** Built-in names start with a letter or `_`, so none of them is an
      array index, and none is `length` or `params`. */
  lemma BuiltinIsWord(p: Proto, k: string)
    ensures Builtin(p, k) ==> k != [] && !IsDigit(k[0]) && !IsIndexKey(k) && k != "length" && k != "params"
  {
    if ObjectMethod(k) {
      var i :| 0 <= i < |ObjectMethodNames()| && ObjectMethodNames()[i] == k;
      ObjectNamesWords();
      assert WordName(k);
    } else if ArrayMethod(k) {
      var i :| 0 <= i < |ArrayMethodNames()| && ArrayMethodNames()[i] == k;
      ArrayNamesWords();
      assert WordName(k);
    }
  }

  /** A name that starts with a letter or `_` and is not `length` or `params`. */
  predicate WordName(n: string) {
    n != [] && !IsDigit(n[0]) && n != "length" && n != "params"
  }

  /** Every array method name is a word name. */
  lemma ArrayNamesWords()
    ensures forall n :: n in ArrayMethodNames() ==> WordName(n)
  {
    ArrayNamesWords1();
    ArrayNamesWords2();
    ArrayNamesWords3();
    ArrayNamesWords4();
  }

  lemma ObjectNamesWords()
    ensures forall n :: n in ObjectMethodNames() ==> WordName(n)
  {
  }

  lemma ArrayNamesWords1()
    ensures forall n :: n in ArrayNames1() ==> WordName(n)
  {
  }

  lemma ArrayNamesWords2()
    ensures forall n :: n in ArrayNames2() ==> WordName(n)
  {
  }

  lemma ArrayNamesWords3()
    ensures forall n :: n in ArrayNames3() ==> WordName(n)
  {
  }

  lemma ArrayNamesWords4()
    ensures forall n :: n in ArrayNames4() ==> WordName(n)
  {
  }

  /** `String(f)` for a built-in function named `name`. */
  function NativeCode(name: string): string {
    "function " + name + "() { [native code] }"
  }

  /** What a read of `k` finds on the prototype chain: a built-in function,
      or for `__proto__` the prototype itself (`Object.prototype` shows as
      "[object Object]", `Array.prototype`, an empty array, as ""). */
  function Inherited(p: Proto, k: string): (v: Val)
    ensures Builtin(p, k) <==> Truthy(v)
    ensures Builtin(p, k) <==> v.Native?
    ensures !Builtin(p, k) ==> v == Undef
  {
    if k == "constructor" then Native(NativeCode(if p == ArrayProto then "Array" else "Object"))
    else if k == "__proto__" then Native(if p == ArrayProto then "" else "[object Object]")
    else if ObjectMethod(k) || (p == ArrayProto && ArrayMethod(k)) then Native(NativeCode(k))
    else Undef
  }

  /** `d[k]` on a plain object: an own property wins (even one holding
      `undefined`); otherwise the read goes on to `Object.prototype`. */
  function Read(d: Dict, k: string): (v: Val)
    ensures !Get(d, k).Undef? ==> v == Get(d, k)
    ensures !Builtin(ObjectProto, k) ==> v == Get(d, k)
    ensures k !in KeySet(d) && Builtin(ObjectProto, k) ==> v.Native? && Truthy(v)
  {
    if k in KeySet(d) then Get(d, k) else Inherited(ObjectProto, k)
  }

  /** An assignment is seen by the reads that follow it. */
  lemma ReadPut(d: Dict, k: string, v: Val, k': string)
    ensures Read(Put(d, k, v), k') == if k' == k then v else Read(d, k')
  {
  }

  /** `d[k] = v`: an existing property keeps its position, a new one goes last. */
  function Put(d: Dict, k: string, v: Val): (r: Dict)
    ensures Get(r, k) == v
    ensures forall k' :: k' != k ==> Get(r, k') == Get(d, k')
    ensures KeySet(r) == KeySet(d) + {k}
    ensures UniqueKeys(d) ==> UniqueKeys(r)
  {
    if d == [] then [(k, v)]
    else if d[0].0 == k then [(k, v)] + d[1..]
    else [d[0]] + Put(d[1..], k, v)
  }

  lemma {:induction false} KeySetAppend(d: Dict, e: (string, Val))
    ensures KeySet(d + [e]) == KeySet(d) + {e.0}
  {
    if d != [] {
      assert (d + [e])[1..] == d[1..] + [e];
      KeySetAppend(d[1..], e);
    }
  }

  /** Setting a property the object does not have appends it. */
  lemma {:induction false} PutNew(d: Dict, k: string, v: Val)
    requires k !in KeySet(d)
    ensures Put(d, k, v) == d + [(k, v)]
  {
    if d != [] {
      PutNew(d[1..], k, v);
      assert [d[0]] + (d[1..] + [(k, v)]) == d + [(k, v)];
    }
  }

  /** `_.extend(d, src)`: every property of `src`, in order, overwrites. */
  function Extend(d: Dict, src: Dict): (r: Dict)
    ensures UniqueKeys(d) ==> UniqueKeys(r)
    decreases |src|
  {
    if src == [] then d else Extend(Put(d, src[0].0, src[0].1), src[1..])
  }

  /** `_.extend` owns the properties of both objects. */
  lemma {:induction false} ExtendKeys(d: Dict, src: Dict)
    ensures KeySet(Extend(d, src)) == KeySet(d) + KeySet(src)
    decreases |src|
  {
    if src != [] {
      ExtendKeys(Put(d, src[0].0, src[0].1), src[1..]);
    }
  }

  /** `_.defaults(d, src)`: a property of `src` fills `d[k]` only while that
      reads `undefined`, the read going through the prototype chain. */
  function Defaults(d: Dict, src: Dict): (r: Dict)
    ensures UniqueKeys(d) ==> UniqueKeys(r)
    decreases |src|
  {
    if src == [] then d
    else if Read(d, src[0].0).Undef? then Defaults(Put(d, src[0].0, src[0].1), src[1..])
    else Defaults(d, src[1..])
  }

  /** After `_.extend(d, src)` a property of `src` reads as in `src`, any
      other as in `d`. */
  lemma {:induction false} ExtendGet(d: Dict, src: Dict, k: string)
    requires UniqueKeys(src)
    ensures Get(Extend(d, src), k) == if k in KeySet(src) then Get(src, k) else Get(d, k)
    decreases |src|
  {
    if src != [] {
      ExtendGet(Put(d, src[0].0, src[0].1), src[1..], k);
    }
  }

  /** After `_.defaults(d, src)` a property keeps a value it had, and one
      that read `undefined` reads as in `src`. A built-in name `d` does not
      own reads the inherited member, so it is never filled in. */
  lemma {:induction false} DefaultsGet(d: Dict, src: Dict, k: string)
    requires UniqueKeys(src)
    ensures Get(Defaults(d, src), k) == if Read(d, k).Undef? then Get(src, k) else Get(d, k)
    ensures Builtin(ObjectProto, k) && k !in KeySet(d) ==> Get(Defaults(d, src), k) == Undef
    decreases |src|
  {
    if src != [] {
      var e := src[0];
      assert UniqueKeys(src[1..]) && e.0 !in KeySet(src[1..]);
      if Read(d, e.0).Undef? {
        var d' := Put(d, e.0, e.1);
        DefaultsGet(d', src[1..], k);
        ReadPut(d, e.0, e.1, k);
        if k == e.0 {
          assert Get(src[1..], k) == Undef;
        }
      } else {
        DefaultsGet(d, src[1..], k);
      }
    }
  }

  /** Defaults with properties that are all new and all defined are appended. */
  lemma {:induction false} DefaultsFresh(d: Dict, src: Dict)
    requires UniqueKeys(src)
    requires forall i :: 0 <= i < |src| ==> !src[i].1.Undef? && src[i].0 !in KeySet(d) && !Builtin(ObjectProto, src[i].0)
    ensures Defaults(d, src) == d + src
    decreases |src|
  {
    if src == [] {
      EmptyAppend(d);
    } else {
      var e := src[0];
      assert e.0 !in KeySet(d);
      PutNew(d, e.0, e.1);
      KeySetAppend(d, e);
      forall i | 0 <= i < |src[1..]|
        ensures !src[1..][i].1.Undef? && src[1..][i].0 !in KeySet(d + [e]) && !Builtin(ObjectProto, src[1..][i].0)
      {
        assert src[1..][i] == src[i + 1];
        KeySetMember(src[1..], i);
      }
      DefaultsFresh(d + [e], src[1..]);
      Assoc(d, [e], src[1..]);
      ConsSplit(src);
    }
  }

  lemma {:induction false} KeySetMember(d: Dict, i: nat)
    requires i < |d|
    ensures d[i].0 in KeySet(d)
  {
    if i > 0 {
      KeySetMember(d[1..], i - 1);
    }
  }

  /** `_.omit(d, ks)` */
  function Omit(d: Dict, ks: seq<string>): (r: Dict)
    ensures forall i :: 0 <= i < |r| ==> r[i].0 !in ks
  {
    if d == [] then [] else if d[0].0 in ks then Omit(d[1..], ks) else [d[0]] + Omit(d[1..], ks)
  }

  /** `b` is `a` with some entries left out, the others in their order. */
  predicate Subsequence<T(==)>(b: seq<T>, a: seq<T>)
    decreases |a|
  {
    b == [] || (a != [] && if b[0] == a[0] then Subsequence(b[1..], a[1..]) else Subsequence(b, a[1..]))
  }

  /** `_.omit(d, ks)` keeps every other property, with its value and in its
      place in the enumeration order, and only those. */
  lemma {:induction false} OmitKeeps(d: Dict, ks: seq<string>)
    ensures Subsequence(Omit(d, ks), d)
    ensures forall k :: k !in ks ==> Get(Omit(d, ks), k) == Get(d, k)
    ensures forall k :: k in KeySet(Omit(d, ks)) <==> k in KeySet(d) && k !in ks
    ensures UniqueKeys(d) ==> UniqueKeys(Omit(d, ks))
  {
    if d != [] {
      OmitKeeps(d[1..], ks);
      var r := Omit(d, ks);
      if d[0].0 !in ks {
        assert r == [d[0]] + Omit(d[1..], ks);
        assert r[1..] == Omit(d[1..], ks);
      } else if r != [] {
        assert r[0].0 !in ks;
      }
    }
  }

  lemma {:induction false} OmitNothing(d: Dict)
    ensures Omit(d, []) == d
  {
    if d != [] { OmitNothing(d[1..]); }
  }

  /** `s.split(c)` for a one-character separator. */
  function Split(s: string, c: char): (parts: seq<string>)
    ensures |parts| >= 1
    ensures forall i :: 0 <= i < |parts| ==> c !in parts[i]
  {
    if s == [] then [""]
    else if s[0] == c then [""] + Split(s[1..], c)
    else
      var rest := Split(s[1..], c);
      [[s[0]] + rest[0]] + rest[1..]
  }

  /** `parts.join(c)` */
  function Join(parts: seq<string>, c: char): string {
    if parts == [] then ""
    else if |parts| == 1 then parts[0]
    else parts[0] + [c] + Join(parts[1..], c)
  }

  lemma {:induction false} JoinSplit(s: string, c: char)
    ensures Join(Split(s, c), c) == s
  {
    if s != [] {
      JoinSplit(s[1..], c);
      if s[0] != c {
        var rest := Split(s[1..], c);
        if |rest| == 1 {
          assert s == [s[0]] + rest[0];
        } else {
          assert Join(rest, c) == rest[0] + [c] + Join(rest[1..], c);
          assert s == [s[0]] + s[1..];
        }
      }
    }
  }

  lemma {:induction false} SplitJoin(parts: seq<string>, c: char)
    requires |parts| >= 1
    requires forall i :: 0 <= i < |parts| ==> c !in parts[i]
    ensures Split(Join(parts, c), c) == parts
  {
    if |parts| == 1 {
      SplitNoSeparator(parts[0], c);
    } else {
      SplitJoin(parts[1..], c);
      SplitPrefix(parts[0], Join(parts[1..], c), c);
      assert Join(parts, c) == parts[0] + ([c] + Join(parts[1..], c));
      assert [parts[0]] + parts[1..] == parts;
    }
  }

  lemma {:induction false} SplitNoSeparator(s: string, c: char)
    requires c !in s
    ensures Split(s, c) == [s]
  {
    if s != [] {
      SplitNoSeparator(s[1..], c);
      assert [s[0]] + s[1..] == s;
    }
  }

  lemma {:induction false} SplitPrefix(a: string, b: string, c: char)
    requires c !in a
    ensures Split(a + [c] + b, c) == [a] + Split(b, c)
  {
    if a == [] {
      assert a + [c] + b == [c] + b;
      assert ([c] + b)[1..] == b;
    } else {
      SplitPrefix(a[1..], b, c);
      assert (a + [c] + b)[1..] == a[1..] + [c] + b;
      assert [a[0]] + a[1..] == a;
    }
  }

  /** Splitting at a separator occurrence splits the two sides apart. */
  lemma {:induction false} SplitAppendSep(a: string, b: string, c: char)
    ensures Split(a + [c] + b, c) == Split(a, c) + Split(b, c)
  {
    if a == [] {
      assert a + [c] + b == [c] + b;
      assert ([c] + b)[1..] == b;
    } else {
      assert (a + [c] + b)[1..] == a[1..] + [c] + b;
      SplitAppendSep(a[1..], b, c);
      if a[0] != c {
        HeadJoins(a[0], Split(a[1..], c), Split(b, c));
      }
    }
  }

  /** Gluing a character to the first part commutes with appending parts. */
  lemma HeadJoins(x: char, ra: seq<string>, rb: seq<string>)
    requires ra != []
    ensures [[x] + (ra + rb)[0]] + (ra + rb)[1..] == [[x] + ra[0]] + ra[1..] + rb
  {
    assert (ra + rb)[0] == ra[0] && (ra + rb)[1..] == ra[1..] + rb;
  }

  /** Joining the first `k` parts, the separator and the rest gives the whole. */
  lemma {:induction false} JoinPrefix(parts: seq<string>, k: nat, c: char)
    requires 0 < k < |parts|
    ensures Join(parts, c) == Join(parts[..k], c) + [c] + Join(parts[k..], c)
  {
    if k == 1 {
      assert parts[..1] == [parts[0]] && parts[1..] == parts[k..];
    } else {
      JoinPrefix(parts[1..], k - 1, c);
      assert parts[1..][..k - 1] == parts[..k][1..];
      assert parts[1..][k - 1..] == parts[k..];
      assert Join(parts[..k], c) == parts[0] + [c] + Join(parts[..k][1..], c);
    }
  }

  predicate StartsWith(s: string, prefix: string) {
    |prefix| <= |s| && s[..|prefix|] == prefix
  }

  /** `s.indexOf(t) !== -1` */
  predicate Contains(s: string, t: string) {
    exists i :: 0 <= i <= |s| - |t| && StartsWith(s[i..], t)
  }

  function LowerChar(c: char): char {
    if 'A' <= c <= 'Z' then (c as int + 32) as char else c
  }

  /** `s.toLowerCase()` on ASCII letters. */
  function Lower(s: string): (r: string)
    ensures |r| == |s| && forall i :: 0 <= i < |s| ==> r[i] == LowerChar(s[i])
  {
    if s == [] then [] else [LowerChar(s[0])] + Lower(s[1..])
  }
}
