/** JavaScript values as the Kanban layout sees them in item records, and the
    few built-ins it relies on: truthiness, string coercion, property reads,
    `String.prototype.startsWith`/`includes` and `Array.prototype.filter`/
    `findIndex`. */
module Js {

  datatype Option<+T> = None | Some(value: T)

  /** A JavaScript value. Numbers are modelled as integers. */
  datatype Value =
    | Undefined
    | Null
    | Bool(b: bool)
    | Num(n: int)
    | Str(s: string)
    | Arr(elems: seq<Value>)
    | Obj(props: map<string, Value>)

  /** A plain record of the backend; a missing key reads as `undefined`. */
  type Record = map<string, Value>

  /** `!!v` */
  predicate Truthy(v: Value) {
    match v
    case Undefined => false
    case Null => false
    case Bool(b) => b
    case Num(n) => n != 0
    case Str(s) => s != ""
    case Arr(_) => true
    case Obj(_) => true
  }

  /** Truthiness of a value typed `string | null`. */
  predicate TruthyText(o: Option<string>) {
    o.Some? && o.value != ""
  }

  /** `record[key]` */
  function Lookup(r: Record, key: string): Value {
    if key in r then r[key] else Undefined
  }

  /** `v[name]` on a value that is neither null nor undefined: only objects
      carry the properties read here. */
  function Prop(v: Value, name: string): Value {
    if v.Obj? then Lookup(v.props, name) else Undefined
  }

  /** `String(v)`, the coercion used for template literals and property keys. */
  function Show(v: Value): string {
    match v
    case Undefined => "undefined"
    case Null => "null"
    case Bool(b) => if b then "true" else "false"
    case Num(n) => IntToString(n)
    case Str(s) => s
    case Arr(es) =>
      // Array.prototype.join: null and undefined elements become empty strings
      Join(seq(|es|, i requires 0 <= i < |es| =>
        if es[i].Null? || es[i].Undefined? then "" else Show(es[i])))
    case Obj(_) => "[object Object]"
  }

  function Join(parts: seq<string>): string {
    if parts == [] then ""
    else if |parts| == 1 then parts[0]
    else parts[0] + "," + Join(parts[1..])
  }

  function IntToString(n: int): string {
    if n < 0 then "-" + NatToString(-n) else NatToString(n)
  }

  function NatToString(n: nat): string {
    if n < 10 then [DigitChar(n)] else NatToString(n / 10) + [DigitChar(n % 10)]
  }

  function DigitChar(d: nat): char
    requires d < 10
  {
    "0123456789"[d]
  }

  /** `s.startsWith(prefix)` */
  predicate StartsWith(s: string, prefix: string) {
    |prefix| <= |s| && s[..|prefix|] == prefix
  }

  /** `s.endsWith(suffix)` */
  predicate EndsWith(s: string, suffix: string) {
    |suffix| <= |s| && s[|s| - |suffix|..] == suffix
  }

  /** `s.includes(sub)` */
  predicate Includes(s: string, sub: string)
    decreases |s|
  {
    StartsWith(s, sub) || (s != [] && Includes(s[1..], sub))
  }

  /** `a` keeps some of the elements of `b`, in the order `b` has them. */
  ghost predicate IsSubsequence<T>(a: seq<T>, b: seq<T>)
    decreases |b|
  {
    if b == [] then a == []
    else (a != [] && a[|a| - 1] == b[|b| - 1] && IsSubsequence(a[..|a| - 1], b[..|b| - 1]))
         || IsSubsequence(a, b[..|b| - 1])
  }

  /** `s.filter(p)`: exactly the elements satisfying `p`, each as often as in
      `s`, in their original order. */
  function Filter<T(==,!new)>(s: seq<T>, p: T -> bool): (r: seq<T>)
    ensures forall x :: x in r <==> x in s && p(x)
    ensures forall x :: multiset(r)[x] == if p(x) then multiset(s)[x] else 0
    ensures IsSubsequence(r, s)
  {
    if s == [] then []
    else
      var init := s[..|s| - 1];
      var last := s[|s| - 1];
      assert s == init + [last];
      var rest := Filter(init, p);
      if p(last) then rest + [last] else rest
  }

  /** The first element `filter` keeps is the one `findIndex` finds; it
      keeps none exactly when `findIndex` finds none. */
  lemma {:induction false} FilterFirst<T(!new)>(s: seq<T>, p: T -> bool)
    ensures FindIndex(s, p).None? ==> Filter(s, p) == []
    ensures FindIndex(s, p).Some? ==> Filter(s, p) != [] && Filter(s, p)[0] == s[FindIndex(s, p).value]
  {
    if s != [] {
      var init := s[..|s| - 1];
      var last := s[|s| - 1];
      assert Filter(s, p) == Filter(init, p) + (if p(last) then [last] else []);
      FilterFirst(init, p);
      FindIndexInit(s, p);
    }
  }

  /** Dropping the last element keeps the first match, if it was earlier. */
  lemma FindIndexInit<T>(s: seq<T>, p: T -> bool)
    requires s != []
    ensures var init := s[..|s| - 1];
      && (FindIndex(init, p).Some? ==> FindIndex(s, p) == FindIndex(init, p))
      && (FindIndex(init, p).None? ==> FindIndex(s, p) == if p(s[|s| - 1]) then Some(|s| - 1) else None)
  {
    var init := s[..|s| - 1];
    assert forall j :: 0 <= j < |init| ==> init[j] == s[j];
    match FindIndex(init, p)
    case Some(w) =>
      assert p(s[w]);
    case None =>
  }

  /** `s.findIndex(p)`, with `-1` as `None`. */
  function FindIndex<T>(s: seq<T>, p: T -> bool): (r: Option<nat>)
    ensures r.None? ==> forall i :: 0 <= i < |s| ==> !p(s[i])
    ensures r.Some? ==> r.value < |s| && p(s[r.value]) && forall j :: 0 <= j < r.value ==> !p(s[j])
  {
    if s == [] then None
    else if p(s[0]) then Some(0)
    else match FindIndex(s[1..], p)
      case None => None
      case Some(i) => Some(i + 1)
  }
}
