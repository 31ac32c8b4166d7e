/** The part of JavaScript's value model the connector touches: JSON-like
    values, truthiness, property reads, the enumerable own keys that
    `Object.keys` and object spread see, number-to-string conversion, and
    mutable objects that callers can alias. */
module Js {

  datatype Option<+T> = None | Some(value: T)
  {
    /** The value, or `d` when there is none. */
    function GetOr(d: T): (r: T)
      ensures Some? ==> r == value
      ensures None? ==> r == d
    {
      if Some? then value else d
    }
  }

  datatype Result<+T, +E> = Ok(value: T) | Err(error: E)

  /** What a JavaScript statement can throw in this model: a `TypeError`
      (reading or writing a property of `null`/`undefined`, writing one on
      a primitive in strict code) or an `Error` built by the library itself
      with the message and the optional code passed to its constructor. */
  datatype Exception = TypeError | Error(message: string, code: Option<string>)

  /** A JSON-like JavaScript value. An object lists its own properties and
      the names of those that are not enumerable (such as the `message` of an
      `Error`). Numbers are integers: NaN, infinities and fractions play no
      part in the modelled code. */
  datatype Value =
    | Undefined
    | Null
    | Bool(b: bool)
    | Num(n: int)
    | Str(s: string)
    | Obj(props: map<string, Value>, hidden: set<string>)

  /** JavaScript's boolean coercion (`if (v)`). */
  predicate Truthy(v: Value)
  {
    match v
    case Undefined => false
    case Null => false
    case Bool(b) => b
    case Num(n) => n != 0
    case Str(s) => s != ""
    case Obj(_, _) => true
  }

  /** A value is nullish when a default parameter or a property read treats it
      as missing. */
  predicate Nullish(v: Value)
  {
    v.Undefined? || v.Null?
  }

  /** A default parameter `p = d`: only `undefined` takes the default. */
  function Default(v: Value, d: Value): (r: Value)
    ensures v != Undefined ==> r == v
    ensures v == Undefined ==> r == d
  {
    if v.Undefined? then d else v
  }

  /** The property read `v[key]`. It throws on `null` and `undefined`; on an
      object it yields the own property or `undefined`. Reads of inherited
      properties and of a string's `length` and indices are not modelled: on
      every other primitive the read yields `undefined`. */
  function Get(v: Value, key: string): (r: Result<Value, Exception>)
    ensures r.Err? <==> Nullish(v)
    ensures r.Err? ==> r.error == TypeError
    ensures v.Obj? && key in v.props ==> r == Ok(v.props[key])
    ensures r.Ok? && r.value != Undefined ==> v.Obj? && key in v.props
  {
    match v
    case Undefined => Err(TypeError)
    case Null => Err(TypeError)
    case Obj(props, _) => Ok(if key in props then props[key] else Undefined)
    case _ => Ok(Undefined)
  }

  /** `new Error(message)`: its `message` is an own property that is not
      enumerable. */
  function ErrorObject(message: string): (r: Value)
    ensures r.Obj? && Get(r, "message") == Ok(Str(message))
    ensures "message" in r.hidden
  {
    Obj(map["message" := Str(message)], {"message"})
  }

  /** The character of a decimal digit. */
  function DigitChar(d: nat): (c: char)
    requires d < 10
    ensures '0' <= c <= '9'
    ensures c as int - '0' as int == d
  {
    ('0' as int + d) as char
  }

  /** The decimal form of a natural number, as template literals print it. */
  function NatToString(n: nat): (s: string)
    ensures |s| >= 1
    ensures (|s| == 1) == (n < 10)
    ensures forall i :: 0 <= i < |s| ==> '0' <= s[i] <= '9'
    decreases n
  {
    if n < 10 then [DigitChar(n)] else NatToString(n / 10) + [DigitChar(n % 10)]
  }

  /** The decimal form of an integer, with a leading `-` when negative. */
  function IntToString(n: int): (s: string)
    ensures |s| >= 1
    ensures (s[0] == '-') == (n < 0)
  {
    if n < 0 then "-" + NatToString(-n) else NatToString(n)
  }

  /** Different numbers print differently, so decimal keys never collide. */
  lemma {:induction false} NatToStringInjective(a: nat, b: nat)
    requires NatToString(a) == NatToString(b)
    ensures a == b
    decreases a
  {
    var sa, sb := NatToString(a), NatToString(b);
    if a < 10 {
      assert b < 10;
      assert sa[0] == DigitChar(a) && sb[0] == DigitChar(b);
    } else {
      assert b >= 10;
      assert NatToString(a / 10) == sa[..|sa| - 1];
      assert NatToString(b / 10) == sb[..|sb| - 1];
      NatToStringInjective(a / 10, b / 10);
      assert DigitChar(a % 10) == sa[|sa| - 1] == DigitChar(b % 10);
    }
  }

  /** Different integers print differently. */
  lemma IntToStringInjective(a: int, b: int)
    requires IntToString(a) == IntToString(b)
    ensures a == b
  {
    if a < 0 {
      assert IntToString(a)[1..] == NatToString(-a);
      assert IntToString(b)[1..] == NatToString(-b);
      NatToStringInjective(-a, -b);
    } else {
      NatToStringInjective(a, b);
    }
  }

  /** The own enumerable properties of a string: one per index, named by the
      index in decimal, holding the one-character string at that index. */
  function IndexProps(s: string): (m: map<string, Value>)
    decreases |s|
  {
    if s == [] then map[]
    else IndexProps(s[..|s| - 1])[NatToString(|s| - 1) := Str([s[|s| - 1]])]
  }

  /** Each index of a string is a key of its index properties, holding the
      character at that index. */
  lemma {:induction false} IndexPropsAt(s: string, i: nat)
    requires i < |s|
    ensures NatToString(i) in IndexProps(s)
    ensures IndexProps(s)[NatToString(i)] == Str([s[i]])
    decreases |s|
  {
    var p := s[..|s| - 1];
    if i < |s| - 1 {
      IndexPropsAt(p, i);
      if NatToString(i) == NatToString(|s| - 1) {
        NatToStringInjective(i, |s| - 1);
      }
      assert p[i] == s[i];
    }
  }

  /** Every key of a string's index properties names an index of it. */
  lemma {:induction false} IndexPropsKeys(s: string, k: string)
    requires k in IndexProps(s)
    ensures exists i :: 0 <= i < |s| && k == NatToString(i)
    decreases |s|
  {
    if k != NatToString(|s| - 1) {
      IndexPropsKeys(s[..|s| - 1], k);
    }
  }

  /** The own enumerable properties of a value, as `Object.keys` and object
      spread (`{ ...v }`) see them: an object's enumerable own properties, a
      string's indices, nothing for the other primitives. */
  function OwnEnumerable(v: Value): (m: map<string, Value>)
    ensures v.Obj? ==> m.Keys == v.props.Keys - v.hidden
    ensures v.Obj? ==> forall k :: k in m ==> m[k] == v.props[k]
    ensures !v.Obj? && !v.Str? ==> m == map[]
  {
    match v
    case Obj(props, hidden) => map k | k in props && k !in hidden :: props[k]
    case Str(s) => IndexProps(s)
    case _ => map[]
  }

  /** A mutable JavaScript object that several holders may share: writing a
      property through one reference is seen through every other. */
  class JsObject {
    var props: map<string, Value>

    constructor (props: map<string, Value>)
      ensures this.props == props
    {
      this.props := props;
    }
  }
}
