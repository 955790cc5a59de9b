/** JavaScript values as far as the plugin observes them: `typeof`, truthiness,
    strict comparison with `true`/`false`, own enumerable properties (what object
    spread, object rest and `Object.assign` copy) and property lookup. */
module JsValue {

  datatype Option<+T> = None | Some(value: T)

  /** The exceptions the plugin can raise, synchronously or as a rejected hook. */
  datatype Error =
    | UnknownRouteHelmetValue   // "Unknown value for route helmet configuration"
    | CannotDestructureNull     // TypeError: destructuring `null`
    | NotAFunction              // TypeError: `reply.helmet` is still the `null` decorator

  datatype Result<+T> = Ok(value: T) | Err(error: Error)

  /** A JavaScript value. Numbers are integers here; functions carry no state. */
  datatype Value =
    | Undefined
    | Null
    | Bool(b: bool)
    | Num(n: int)
    | Str(s: string)
    | Arr(items: seq<Value>)
    | Obj(props: map<string, Value>)
    | Func

  /** The result of the `typeof` operator. */
  function TypeOf(v: Value): (t: string)
    ensures t == "object" <==> v.Null? || v.Arr? || v.Obj?
    ensures t == "undefined" <==> v.Undefined?
  {
    match v
    case Undefined => "undefined"
    case Null => "object"
    case Bool(_) => "boolean"
    case Num(_) => "number"
    case Str(_) => "string"
    case Arr(_) => "object"
    case Obj(_) => "object"
    case Func => "function"
  }

  /** JavaScript truthiness (ToBoolean): `null` and `undefined` are always
      falsy, objects, arrays and functions always truthy. */
  predicate Truthy(v: Value)
    ensures v.Undefined? || v.Null? ==> !Truthy(v)
    ensures v.Obj? || v.Arr? || v.Func? ==> Truthy(v)
    ensures v.Bool? ==> (Truthy(v) <==> v.b)
    ensures v.Str? ==> (Truthy(v) <==> |v.s| > 0)
    ensures v.Num? ==> (Truthy(v) <==> v.n != 0)
  {
    match v
    case Undefined => false
    case Null => false
    case Bool(b) => b
    case Num(n) => n != 0
    case Str(s) => s != ""
    case _ => true
  }

  /** `obj[key]` on a plain object: a missing key reads as `undefined`. */
  function Get(m: map<string, Value>, key: string): (v: Value)
    ensures key !in m ==> v == Undefined
    ensures key in m ==> v == m[key]
  {
    if key in m then m[key] else Undefined
  }

  /** The decimal digit `d` as a character. */
  function DigitChar(d: nat): char
    requires d < 10
  {
    "0123456789"[d]
  }

  /** The canonical decimal spelling of an array index, the property key of
      that element. */
  function Decimal(n: nat): (s: string)
    ensures |s| >= 1
    ensures n >= 10 ==> |s| >= 2
    ensures n < 10 ==> |s| == 1
    decreases n
  {
    if n < 10 then [DigitChar(n)] else Decimal(n / 10) + [DigitChar(n % 10)]
  }

  lemma DigitCharInjective(a: nat, b: nat)
    requires a < 10 && b < 10 && DigitChar(a) == DigitChar(b)
    ensures a == b
  {
  }

  /** Distinct indices have distinct property keys. */
  lemma {:induction false} DecimalInjective(a: nat, b: nat)
    requires Decimal(a) == Decimal(b)
    ensures a == b
    decreases a
  {
    if a < 10 && b < 10 {
      DigitCharInjective(a, b);
    } else if a >= 10 && b >= 10 {
      var sa, sb := Decimal(a), Decimal(b);
      assert sa == Decimal(a / 10) + [DigitChar(a % 10)];
      assert sb == Decimal(b / 10) + [DigitChar(b % 10)];
      assert sa[|sa| - 1] == DigitChar(a % 10);
      assert sb[|sb| - 1] == DigitChar(b % 10);
      DigitCharInjective(a % 10, b % 10);
      assert sa[..|sa| - 1] == Decimal(a / 10);
      assert sb[..|sb| - 1] == Decimal(b / 10);
      DecimalInjective(a / 10, b / 10);
    }
  }

  /** The index properties "0" .. "n-1" of an array-like value. */
  function IndexProps(items: seq<Value>, n: nat): (r: map<string, Value>)
    requires n <= |items|
    ensures forall k :: 0 <= k < n ==> Decimal(k) in r && r[Decimal(k)] == items[k]
    ensures forall key :: key in r ==> exists k :: 0 <= k < n && key == Decimal(k)
    decreases n
  {
    if n == 0 then map[]
    else
      var rest := IndexProps(items, n - 1);
      DecimalsBelowDiffer(n - 1);
      rest[Decimal(n - 1) := items[n - 1]]
  }

  lemma DecimalsBelowDiffer(n: nat)
    ensures forall k :: 0 <= k < n ==> Decimal(k) != Decimal(n)
  {
    forall k | 0 <= k < n ensures Decimal(k) != Decimal(n) {
      if Decimal(k) == Decimal(n) {
        DecimalInjective(k, n);
      }
    }
  }

  /** The characters of a string as one-character strings, the values a
      string exposes under its index keys. */
  function CharValues(s: string): (r: seq<Value>)
    ensures |r| == |s|
    ensures forall i :: 0 <= i < |s| ==> r[i] == Str([s[i]])
  {
    seq(|s|, i requires 0 <= i < |s| => Str([s[i]]))
  }

  /** The own enumerable string-keyed properties of a value: what `{...v}`,
      `const {a, ...rest} = v` and `Object.assign(t, v)` copy. Primitives other
      than strings, and functions, have none; `null`/`undefined` are ignored by
      spread and `Object.assign`. */
  function OwnProps(v: Value): (r: map<string, Value>)
    ensures v.Obj? ==> r == v.props
    ensures v.Arr? ==> forall k :: 0 <= k < |v.items| ==> Decimal(k) in r && r[Decimal(k)] == v.items[k]
    ensures v.Arr? ==> forall key :: key in r ==> exists k :: 0 <= k < |v.items| && key == Decimal(k)
    ensures v.Str? ==> forall k :: 0 <= k < |v.s| ==> Decimal(k) in r && r[Decimal(k)] == Str([v.s[k]])
    ensures v.Str? ==> forall key :: key in r ==> exists k :: 0 <= k < |v.s| && key == Decimal(k)
    ensures !(v.Obj? || v.Arr? || v.Str?) ==> r == map[]
  {
    match v
    case Obj(m) => m
    case Arr(items) => IndexProps(items, |items|)
    case Str(s) => IndexProps(CharValues(s), |s|)
    case _ => map[]
  }

  /** `v.key` on a value that is neither `null` nor `undefined`, reading own
      enumerable properties only. */
  function Prop(v: Value, key: string): (r: Value)
    ensures v.Obj? ==> r == Get(v.props, key)
    ensures v.Bool? || v.Num? || v.Func? ==> r == Undefined
    ensures v.Arr? && r != Undefined ==> exists k :: 0 <= k < |v.items| && key == Decimal(k)
  {
    Get(OwnProps(v), key)
  }

  /** `Object.assign(Object.create(null), target, source)` over plain objects:
      a fresh object holding every key of both, the source's value winning. */
  function Assign(target: map<string, Value>, source: map<string, Value>): (r: map<string, Value>)
    ensures r.Keys == target.Keys + source.Keys
    ensures forall k :: k in source ==> r[k] == source[k]
    ensures forall k :: k in target && k !in source ==> r[k] == target[k]
  {
    target + source
  }
}
