/**
 * The fragment of JavaScript value semantics the core relies on: dynamically
 * typed JSON-like values, truthiness, the `||` operator, plain (`.`) and
 * optional (`?.`) property access, `Math.random()` and decimal rendering of
 * natural numbers in template strings.
 */
module Js {
  import opened Wrappers

  /** A JavaScript value as it arrives from a JSON body or a configuration object. */
  datatype Value =
    | Undefined
    | Null
    | Bool(b: bool)
    | Num(n: real)
    | Str(s: string)
    | Arr(items: seq<Value>)
    | Obj(props: map<string, Value>)

  /** A value `Math.random()` can return. */
  type Random = r: real | 0.0 <= r < 1.0

  /** `undefined` or `null`: reading a property of either with `.` throws a TypeError. */
  predicate Nullish(v: Value) {
    v.Undefined? || v.Null?
  }

  /** JavaScript truthiness: `undefined`, `null`, `false`, `0` and `""` are falsy (NaN is not a value here). */
  predicate Truthy(v: Value) {
    match v
    case Undefined => false
    case Null => false
    case Bool(b) => b
    case Num(n) => n != 0.0
    case Str(s) => s != ""
    case Arr(_) => true
    case Obj(_) => true
  }

  /** `a || b`: the left operand when it is truthy, otherwise the right one. */
  function Or(a: Value, b: Value): Value {
    if Truthy(a) then a else b
  }

  /** Exactly five values are falsy; every array and every object is truthy. */
  lemma FalsyValues(v: Value)
    ensures !Truthy(v) <==> v in {Undefined, Null, Bool(false), Num(0.0), Str("")}
  {
  }

  /**
   * `a || b` is one of its operands, truthy exactly when either operand is,
   * and the left one whenever that is truthy.
   */
  lemma OrPicks(a: Value, b: Value)
    ensures Or(a, b) == a || Or(a, b) == b
    ensures Truthy(Or(a, b)) <==> Truthy(a) || Truthy(b)
    ensures Truthy(a) ==> Or(a, b) == a
    ensures !Truthy(a) ==> Or(a, b) == b
  {
  }

  /**
   * `v?.[key]`: the own property `key` of an object, `undefined` for anything
   * else (properties inherited from a prototype are not modelled).
   */
  function OptMember(v: Value, key: string): Value {
    match v
    case Obj(props) => if key in props then props[key] else Undefined
    case _ => Undefined
  }

  /**
   * `v?.[key]` reads an object's own property when it has one; anything else
   * it meets (a missing key, a non-object) reads as `undefined`.
   */
  lemma OptMemberReads(v: Value, key: string)
    ensures v.Obj? && key in v.props ==> OptMember(v, key) == v.props[key]
    ensures !(v.Obj? && key in v.props) ==> OptMember(v, key) == Undefined
    ensures OptMember(v, key) != Undefined ==> v.Obj? && key in v.props
  {
  }

  /** `v.key`: `None` stands for the TypeError thrown when `v` is nullish. */
  function Member(v: Value, key: string): (r: Option<Value>)
    ensures r.None? <==> Nullish(v)
    ensures r.Some? ==> r.value == OptMember(v, key)
  {
    if Nullish(v) then None else Some(OptMember(v, key))
  }

  /**
   * `c0 || c1 || ... || d`: the first truthy candidate, or `d` when none is.
   */
  function FirstTruthy(cands: seq<Value>, d: Value): (r: Value)
    ensures (forall i :: 0 <= i < |cands| ==> !Truthy(cands[i])) ==> r == d
    ensures forall k :: 0 <= k < |cands| && Truthy(cands[k]) && (forall i :: 0 <= i < k ==> !Truthy(cands[i])) ==> r == cands[k]
    decreases |cands|
  {
    if cands == [] then d else Or(cands[0], FirstTruthy(cands[1..], d))
  }

  /** `a || b || d` parses as `(a || b) || d` and picks the first truthy of `a`, `b`, else `d`. */
  lemma OrChain(a: Value, b: Value, d: Value)
    ensures Or(Or(a, b), d) == FirstTruthy([a, b], d)
  {
    assert [a, b][1..] == [b];
    assert [b][1..] == [];
  }

  /** The candidate `FirstTruthy` picks is truthy unless it fell back to the default. */
  lemma {:induction false} FirstTruthyIsTruthyOrDefault(cands: seq<Value>, d: Value)
    ensures Truthy(FirstTruthy(cands, d)) || FirstTruthy(cands, d) == d
    ensures FirstTruthy(cands, d) == d || FirstTruthy(cands, d) in cands
    decreases |cands|
  {
    if cands != [] {
      FirstTruthyIsTruthyOrDefault(cands[1..], d);
    }
  }

  /**
   * `items.map(f)` where `f` may throw (`None`): the mapped list, or `None`
   * as soon as one item's mapping throws.
   */
  function MapItems<T>(items: seq<Value>, f: Value -> Option<T>): (r: Option<seq<T>>)
    ensures r.None? <==> exists i :: 0 <= i < |items| && f(items[i]).None?
    ensures r.Some? ==> |r.value| == |items|
    ensures r.Some? ==> forall i :: 0 <= i < |items| ==> f(items[i]) == Some(r.value[i])
    decreases |items|
  {
    if items == [] then Some([])
    else
      match f(items[0])
      case None => None
      case Some(first) =>
        match MapItems(items[1..], f)
        case None => None
        case Some(rest) => Some([first] + rest)
  }

  function DigitChar(d: nat): char
    requires d < 10
  {
    "0123456789"[d]
  }

  predicate IsDigit(c: char) {
    '0' <= c <= '9'
  }

  /** Decimal rendering of a natural number, as `${n}` produces it in a template string. */
  function NatToString(n: nat): (s: string)
    ensures |s| >= 1
    ensures forall i :: 0 <= i < |s| ==> IsDigit(s[i])
    ensures n > 0 ==> s[0] != '0'
    decreases n
  {
    if n < 10 then [DigitChar(n)] else NatToString(n / 10) + [DigitChar(n % 10)]
  }

  /** The value of a string of decimal digits. */
  function DigitsValue(s: string): nat
    requires forall i :: 0 <= i < |s| ==> IsDigit(s[i])
    decreases |s|
  {
    if s == [] then 0
    else
      assert IsDigit(s[|s| - 1]);
      10 * DigitsValue(s[..|s| - 1]) + (s[|s| - 1] as int - '0' as int)
  }

  /** Reading back the rendering gives the number: the rendering is injective. */
  lemma {:induction false} NatToStringRoundTrip(n: nat)
    ensures DigitsValue(NatToString(n)) == n
    decreases n
  {
    var s := NatToString(n);
    if n >= 10 {
      NatToStringRoundTrip(n / 10);
      assert s[..|s| - 1] == NatToString(n / 10);
    }
  }
}
