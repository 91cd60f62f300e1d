/**
 * JavaScript values as they cross the plugin's boundary.
 *
 * A value is `undefined`, `null`, a boolean, a number (integers only), a string,
 * an array, a plain object (its own enumerable properties) or a function.  A
 * function carries an identity (two occurrences of the same closure have the
 * same `id`) and its declared parameter count, which is what `.length` reads.
 */
module Json {

  datatype Value =
    | Undefined
    | Null
    | Bool(b: bool)
    | Num(n: int)
    | Str(s: string)
    | Arr(items: seq<Value>)
    | Obj(props: map<string, Value>)
    | Fun(id: nat, arity: nat)

  /** `v == null` in JavaScript's loose sense: null or undefined. */
  predicate IsNullish(v: Value) {
    v.Undefined? || v.Null?
  }

  /** JavaScript truthiness (NaN is not modelled: numbers are integers). */
  predicate Truthy(v: Value) {
    match v
    case Undefined => false
    case Null => false
    case Bool(b) => b
    case Num(n) => n != 0
    case Str(s) => s != ""
    case _ => true
  }

  /** The result of the `typeof` operator. */
  function TypeOf(v: Value): (t: string)
    ensures t == "object" <==> v.Null? || v.Arr? || v.Obj?
    ensures t == "function" <==> v.Fun?
    ensures t == "string" <==> v.Str?
    ensures t == "undefined" <==> v.Undefined?
    ensures t == "boolean" <==> v.Bool?
  {
    match v
    case Undefined => "undefined"
    case Null => "object"
    case Bool(_) => "boolean"
    case Num(_) => "number"
    case Str(_) => "string"
    case Arr(_) => "object"
    case Obj(_) => "object"
    case Fun(_, _) => "function"
  }

  /** `typeof v === 'object' && v !== null`: true of arrays as well as plain objects. */
  predicate IsObjectLike(v: Value) {
    v.Arr? || v.Obj?
  }

  /** Decimal text of a natural number, as JavaScript writes an array index. */
  function NatToString(n: nat): (s: string)
    ensures |s| >= 1
    ensures forall i :: 0 <= i < |s| ==> '0' <= s[i] <= '9'
    decreases n
  {
    if n < 10 then [Digit(n)] else NatToString(n / 10) + [Digit(n % 10)]
  }

  function Digit(d: nat): (c: char)
    requires d < 10
    ensures '0' <= c <= '9' && c as int - '0' as int == d
  {
    (d + '0' as int) as char
  }

  /** Reads back a string of decimal digits. */
  function ParseDigits(s: string): nat
    requires forall i :: 0 <= i < |s| ==> '0' <= s[i] <= '9'
  {
    if s == [] then 0 else ParseDigits(s[..|s| - 1]) * 10 + (s[|s| - 1] as int - '0' as int)
  }

  lemma {:induction false} ParseNatToString(n: nat)
    ensures ParseDigits(NatToString(n)) == n
    decreases n
  {
    var s := NatToString(n);
    if n >= 10 {
      ParseNatToString(n / 10);
      assert s[..|s| - 1] == NatToString(n / 10);
    }
  }

  /** Distinct indices have distinct property names. */
  lemma NatToStringInjective()
    ensures forall i: nat, j: nat :: NatToString(i) == NatToString(j) ==> i == j
  {
    forall i: nat, j: nat | NatToString(i) == NatToString(j)
      ensures i == j
    {
      ParseNatToString(i);
      ParseNatToString(j);
    }
  }

  /** The index properties of a sequence, keyed by their decimal names. */
  function IndexEntries<T>(a: seq<T>): (m: map<string, T>)
    ensures forall i :: 0 <= i < |a| ==> NatToString(i) in m && m[NatToString(i)] == a[i]
  {
    NatToStringInjective();
    map i | 0 <= i < |a| :: NatToString(i) := a[i]
  }

  /** `Object.entries(v)`, as a map from property name to value. */
  function Entries(v: Value): (m: map<string, Value>)
    ensures v.Obj? ==> m == v.props
    ensures !v.Obj? && !v.Arr? && !v.Str? ==> m == map[]
  {
    match v
    case Obj(props) => props
    case Arr(items) => IndexEntries(items)
    case Str(s) => map k | k in IndexEntries(s) :: Str([IndexEntries(s)[k]])
    case _ => map[]
  }

  /**
   * Property access `v[key]` on a value that is not null or undefined (on those,
   * JavaScript throws).  Inherited properties other than `length` are not modelled.
   */
  function Get(v: Value, key: string): (r: Value)
    requires !IsNullish(v)
    ensures v.Obj? ==> r == (if key in v.props then v.props[key] else Undefined)
    ensures v.Bool? || v.Num? ==> r == Undefined
  {
    match v
    case Obj(props) => if key in props then props[key] else Undefined
    case Arr(items) =>
      if key == "length" then Num(|items|)
      else if IsIndexName(key) && ParseDigits(key) < |items| then items[ParseDigits(key)]
      else Undefined
    case Str(s) =>
      if key == "length" then Num(|s|)
      else if IsIndexName(key) && ParseDigits(key) < |s| then Str([s[ParseDigits(key)]])
      else Undefined
    case Fun(_, arity) => if key == "length" then Num(arity) else Undefined
    case _ => Undefined
  }

  /** A canonical array-index property name: decimal digits with no leading zero. */
  predicate IsIndexName(key: string) {
    |key| >= 1 && (forall i :: 0 <= i < |key| ==> '0' <= key[i] <= '9') && (key[0] != '0' || |key| == 1)
  }

  /** Property access on a map of own properties (a record the caller knows is an object). */
  function Prop(m: map<string, Value>, key: string): Value {
    if key in m then m[key] else Undefined
  }

  /**
   * `JSON.stringify(v)`.  The text of a serialisable value is left to `text`;
   * `undefined` and functions are not serialisable and give `undefined`.
   */
  function Stringify(v: Value, text: Value -> string): (r: Value)
    ensures r.Str? <==> !v.Undefined? && !v.Fun?
    ensures r.Undefined? <==> v.Undefined? || v.Fun?
  {
    if v.Undefined? || v.Fun? then Undefined else Str(text(v))
  }

  /** The values a "forces values to be string types" pass leaves: strings untouched, the rest stringified. */
  function StringValued(m: map<string, Value>, text: Value -> string): map<string, Value> {
    map k | k in m :: if m[k].Str? then m[k] else Stringify(m[k], text)
  }

  lemma StringValuedKeepsKeysAndStrings(m: map<string, Value>, text: Value -> string)
    ensures StringValued(m, text).Keys == m.Keys
    ensures forall k :: k in m && m[k].Str? ==> StringValued(m, text)[k] == m[k]
    ensures forall k :: k in m && !m[k].Str? ==> StringValued(m, text)[k] == Stringify(m[k], text)
    ensures forall k :: k in m ==>
              (StringValued(m, text)[k].Str? <==> !m[k].Undefined? && !m[k].Fun?)
  {
  }

  /** Pass `StringValued` twice and nothing more changes. */
  lemma {:induction false} StringValuedIdempotent(m: map<string, Value>, text: Value -> string)
    ensures StringValued(StringValued(m, text), text) == StringValued(m, text)
  {
    var once := StringValued(m, text);
    forall k | k in once
      ensures (if once[k].Str? then once[k] else Stringify(once[k], text)) == once[k]
    {
      if !m[k].Str? && (m[k].Undefined? || m[k].Fun?) {
        assert once[k] == Undefined;
      }
    }
  }

  /** A JavaScript object passed by reference, whose own properties a callee may rewrite. */
  class JsObject {
    var props: map<string, Value>

    constructor (props: map<string, Value>)
      ensures this.props == props
    {
      this.props := props;
    }

    /**
     * `Object.keys(o).forEach(k => { if (typeof o[k] !== "string") o[k] = JSON.stringify(o[k]); })`,
     * the loop the tags and triggers calls run on their argument.
     */
    method StringifyNonStrings(text: Value -> string)
      modifies this
      ensures props == StringValued(old(props), text)
    {
      ghost var m0 := props;
      var keys := props.Keys;
      ghost var done: set<string> := {};
      while keys != {}
        invariant keys !! done && keys + done == m0.Keys
        invariant props.Keys == m0.Keys
        invariant forall k :: k in done ==> props[k] == StringValued(m0, text)[k]
        invariant forall k :: k in keys ==> props[k] == m0[k]
        decreases keys
      {
        var k :| k in keys;
        if !props[k].Str? {
          props := props[k := Stringify(props[k], text)];
        }
        keys := keys - {k};
        done := done + {k};
      }
    }
  }
}
