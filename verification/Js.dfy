/** JavaScript values as they reach the workflow from the network or from a
    language model: JSON-like data plus `undefined`. Numbers are exact reals
    (NaN and the infinities are not represented). */
module Js {
  import opened Wrappers
  import Text

  datatype Value =
    | Undefined
    | Null
    | Bool(b: bool)
    | Num(n: real)
    | Str(s: string)
    | Arr(items: seq<Value>)
    | Obj(fields: map<string, Value>)

  /** JavaScript truthiness. */
  predicate Truthy(v: Value) {
    match v
    case Undefined => false
    case Null => false
    case Bool(b) => b
    case Num(n) => n != 0.0
    case Str(s) => s != ""
    case Arr(_) => true
    case Obj(_) => true
  }

  /** Property access `v.key` (and `v?.key`): an own field of an object, and
      `undefined` for everything else. */
  function Get(v: Value, key: string): (r: Value)
    ensures !v.Obj? ==> r == Undefined
    ensures v.Obj? && key !in v.fields ==> r == Undefined
    ensures v.Obj? && key in v.fields ==> r == v.fields[key]
  {
    if v.Obj? && key in v.fields then v.fields[key] else Undefined
  }

  /** `v.length` of a JavaScript string: the number of UTF-16 code units. */
  function Utf16Length(s: string): (n: nat)
    ensures |s| <= n <= 2 * |s|
  {
    if |s| == 0 then 0
    else (if s[0] as int > 0xFFFF then 2 else 1) + Utf16Length(s[1..])
  }

  /** `Object.keys(v).length` of a truthy value. */
  function KeyCount(v: Value): nat {
    match v
    case Obj(fields) => |fields|
    case Arr(items) => |items|
    case Str(s) => Utf16Length(s)
    case _ => 0
  }

  /** `String(v)`; `serialise` stands for `JSON.stringify`, which agrees with
      `String` on every finite number. */
  function ToText(v: Value, serialise: Value -> string): string {
    match v
    case Undefined => "undefined"
    case Null => "null"
    case Bool(b) => if b then "true" else "false"
    case Num(_) => serialise(v)
    case Str(s) => s
    case Arr(items) => Text.Join(ElementTexts(items, serialise), ",")
    case Obj(_) => "[object Object]"
  }

  /** The pieces `Array.prototype.toString` joins: `null` and `undefined`
      become empty strings. */
  function ElementTexts(items: seq<Value>, serialise: Value -> string): (r: seq<string>)
    ensures |r| == |items|
    decreases items
  {
    if |items| == 0 then []
    else
      [if items[0].Undefined? || items[0].Null? then "" else ToText(items[0], serialise)]
      + ElementTexts(items[1..], serialise)
  }

  /** `z.string()` */
  function AsString(v: Value): Option<string> {
    if v.Str? then Some(v.s) else None
  }

  /** `z.boolean()` */
  function AsBool(v: Value): Option<bool> {
    if v.Bool? then Some(v.b) else None
  }

  /** `z.number()` */
  function AsNumber(v: Value): Option<real> {
    if v.Num? then Some(v.n) else None
  }

  /** `z.array(elem)`: every element must decode; the result keeps order. */
  function DecodeAll<T>(items: seq<Value>, elem: Value -> Option<T>): (r: Option<seq<T>>)
    ensures r.Some? ==> |r.value| == |items|
    ensures r.Some? ==> forall k :: 0 <= k < |items| ==> elem(items[k]) == Some(r.value[k])
    ensures r.None? <==> exists k :: 0 <= k < |items| && elem(items[k]).None?
    decreases |items|
  {
    if |items| == 0 then Some([])
    else
      match elem(items[0])
      case None => None
      case Some(x) =>
        match DecodeAll(items[1..], elem)
        case None => None
        case Some(xs) => Some([x] + xs)
  }

  /** The array of the element encodings, in order. */
  function EncodeAll<T>(xs: seq<T>, enc: T -> Value): (r: seq<Value>)
    ensures |r| == |xs|
    ensures forall k :: 0 <= k < |xs| ==> r[k] == enc(xs[k])
  {
    seq(|xs|, k requires 0 <= k < |xs| => enc(xs[k]))
  }

  /** Element-wise round trip lifts to arrays. */
  lemma DecodeEncodeAll<T>(xs: seq<T>, enc: T -> Value, elem: Value -> Option<T>)
    requires forall k :: 0 <= k < |xs| ==> elem(enc(xs[k])) == Some(xs[k])
    ensures DecodeAll(EncodeAll(xs, enc), elem) == Some(xs)
  {
    var r := DecodeAll(EncodeAll(xs, enc), elem);
    assert r.Some?;
    assert r.value == xs;
  }

  /** A string array. */
  function DecodeStrings(v: Value): Option<seq<string>> {
    if v.Arr? then DecodeAll(v.items, AsString) else None
  }

  function EncodeStrings(xs: seq<string>): Value {
    Arr(EncodeAll(xs, s => Str(s)))
  }

  lemma StringsRoundTrip(xs: seq<string>)
    ensures DecodeStrings(EncodeStrings(xs)) == Some(xs)
  {
    DecodeEncodeAll(xs, s => Str(s), AsString);
  }
}
