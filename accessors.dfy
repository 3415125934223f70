/**
 * The accessor layer: total projections from a JSON value onto optional
 * views of one shape. Absence means "not this shape" or "no exact
 * conversion", never an error.
 */
module JsonAccessors {
  import opened Wrappers
  import opened Numerics
  import opened Json
  import opened JsonCodec

  // Direct-shape views: the payload if the case matches, else absent

  /** `string` */
  function StringView(v: JSONValue): (r: Option<string>)
    ensures r.Some? <==> v.String?
    ensures r.Some? ==> v == String(r.value)
  {
    if v.String? then Some(v.s) else None
  }

  /** `object` */
  function ObjectView(v: JSONValue): (r: Option<map<string, JSONValue>>)
    ensures r.Some? <==> v.Object?
    ensures r.Some? ==> v == Object(r.value)
  {
    if v.Object? then Some(v.fields) else None
  }

  /** `array` */
  function ArrayView(v: JSONValue): (r: Option<seq<JSONValue>>)
    ensures r.Some? <==> v.Array?
    ensures r.Some? ==> v == Array(r.value)
  {
    if v.Array? then Some(v.values) else None
  }

  /** `bool` */
  function BoolView(v: JSONValue): (r: Option<bool>)
    ensures r.Some? <==> v.Bool?
    ensures r.Some? ==> v == Bool(r.value)
  {
    if v.Bool? then Some(v.b) else None
  }

  // Numeric views across shapes

  /**
   * `int64`: an `Int` always (every 64-bit `Int` fits), a double or text
   * only through the exact standard-library conversion, nothing else.
   */
  function Int64View(v: JSONValue, conv: Conversions): (r: Option<Int64>)
    ensures v.Int? ==> r == Some(v.i)
    ensures v.Double? ==> r == conv.int64FromDouble(v.d)
    ensures v.String? ==> r == conv.int64FromText(v.s)
    ensures r.Some? ==> v.Int? || v.Double? || v.String?
  {
    match v
    case Int(n) => Int64Exactly(n)
    case Double(x) => conv.int64FromDouble(x)
    case String(s) => conv.int64FromText(s)
    case _ => None
  }

  /**
   * `doubleValue`: present for every `Int` and `Double`, for text only
   * when it parses, and absent for every other case.
   */
  function DoubleValue(v: JSONValue, conv: Conversions): (r: Option<Float64>)
    ensures v.Int? ==> r == Some(conv.doubleFromInt(v.i))
    ensures v.Double? ==> r == Some(v.d)
    ensures v.String? ==> r == conv.doubleFromText(v.s)
    ensures r.Some? <==> v.Int? || v.Double? || (v.String? && conv.doubleFromText(v.s).Some?)
  {
    match v
    case Int(n) => Some(conv.doubleFromInt(n))
    case Double(x) => Some(x)
    case String(s) => conv.doubleFromText(s)
    case _ => None
  }

  /** `asString` is `string`. */
  function AsString(v: JSONValue): (r: Option<string>)
    ensures r == StringView(v)
  {
    StringView(v)
  }

  /** `asInt`: the `Int` itself, an exact conversion of a double or of text, else absent. */
  function AsInt(v: JSONValue, conv: Conversions): (r: Option<SwiftInt>)
    ensures v.Int? ==> r == Some(v.i)
    ensures v.Double? ==> r == conv.intFromDouble(v.d)
    ensures v.String? ==> r == conv.intFromText(v.s)
    ensures r.Some? ==> v.Int? || v.Double? || v.String?
  {
    match v
    case Int(n) => Some(n)
    case Double(x) => conv.intFromDouble(x)
    case String(s) => conv.intFromText(s)
    case _ => None
  }

  /** `asDouble` is `doubleValue`. */
  function AsDouble(v: JSONValue, conv: Conversions): (r: Option<Float64>)
    ensures r == DoubleValue(v, conv)
  {
    DoubleValue(v, conv)
  }

  /** `asBool` is `bool`. */
  function AsBool(v: JSONValue): (r: Option<bool>)
    ensures r == BoolView(v)
  {
    BoolView(v)
  }

  /** `asArray` is `array`. */
  function AsArray(v: JSONValue): (r: Option<seq<JSONValue>>)
    ensures r == ArrayView(v)
  {
    ArrayView(v)
  }

  /** `asObject` is `object`. */
  function AsObject(v: JSONValue): (r: Option<map<string, JSONValue>>)
    ensures r == ObjectView(v)
  {
    ObjectView(v)
  }

  /** `isNull`: always defined, true exactly for `Null`. */
  function IsNull(v: JSONValue): (r: bool)
    ensures r <==> v == Null
  {
    v.Null?
  }

  // Subscripts

  /** `v[key]`: the entry under the key of an object; absent for a missing key or any other case. */
  function Lookup(v: JSONValue, key: string): (r: Option<JSONValue>)
    ensures r.Some? <==> v.Object? && key in v.fields
    ensures r.Some? ==> r.value == v.fields[key]
  {
    if v.Object? && key in v.fields then Some(v.fields[key]) else None
  }

  /** `v[index]`: the element at an in-bounds index of an array; absent otherwise. */
  function At(v: JSONValue, index: SwiftInt): (r: Option<JSONValue>)
    ensures r.Some? <==> v.Array? && 0 <= index < |v.values|
    ensures r.Some? ==> r.value == v.values[index]
  {
    if v.Array? && 0 <= index < |v.values| then Some(v.values[index]) else None
  }

  // Views against the literal constructors and the codec

  /** Each literal builds the case its view reads back. */
  lemma LiteralsReadBack(s: string, n: SwiftInt, x: Float64, b: bool, elements: seq<JSONValue>, conv: Conversions)
    ensures StringView(FromStringLiteral(s)) == Some(s)
    ensures AsInt(FromIntegerLiteral(n), conv) == Some(n) && Int64View(FromIntegerLiteral(n), conv) == Some(n)
    ensures DoubleValue(FromFloatLiteral(x), conv) == Some(x)
    ensures BoolView(FromBooleanLiteral(b)) == Some(b)
    ensures ArrayView(FromArrayLiteral(elements)) == Some(elements)
    ensures IsNull(FromNilLiteral())
  {
  }

  /** A dictionary literal answers each of its keys with its value and nothing else. */
  lemma DictionaryLiteralLookup(elements: seq<(string, JSONValue)>, key: string)
    requires KeysUnique(elements)
    ensures forall i :: 0 <= i < |elements| ==> Lookup(FromDictionaryLiteral(elements), elements[i].0) == Some(elements[i].1)
    ensures (forall i :: 0 <= i < |elements| ==> elements[i].0 != key) ==> Lookup(FromDictionaryLiteral(elements), key) == None
  {
  }

  /** Indexing an array literal: the element when in bounds, absent when negative or too large. */
  lemma ArrayLiteralAt(elements: seq<JSONValue>, index: SwiftInt)
    ensures 0 <= index < |elements| ==> At(FromArrayLiteral(elements), index) == Some(elements[index])
    ensures (index < 0 || |elements| <= index) ==> At(FromArrayLiteral(elements), index) == None
  {
  }

  /** Exactly one shape answers: the presence of each view is decided by the case tag alone. */
  lemma ViewsFollowKind(v: JSONValue, conv: Conversions)
    ensures IsNull(v) <==> KindOf(v) == NullKind
    ensures BoolView(v).Some? <==> KindOf(v) == BoolKind
    ensures StringView(v).Some? <==> KindOf(v) == StringKind
    ensures ArrayView(v).Some? <==> KindOf(v) == ArrayKind
    ensures ObjectView(v).Some? <==> KindOf(v) == ObjectKind
    ensures KindOf(v) in {NullKind, BoolKind, ArrayKind, ObjectKind} ==>
      AsInt(v, conv).None? && Int64View(v, conv).None? && DoubleValue(v, conv).None?
  {
  }

  /**
   * The integer view survives a round trip through the wire when the
   * wire reads doubles as integers the way `Int(exactly:)` does: an
   * integral double that comes back as an `Int` has the same integer view.
   */
  lemma {:induction false} AsIntSurvivesRoundTrip(v: JSONValue, path: seq<CodingKey>, wire: WireNumbers, conv: Conversions)
    requires wire.intFromDouble == conv.intFromDouble
    ensures Decode(Reread(Encode(v), path, wire)).Success?
    ensures AsInt(Decode(Reread(Encode(v), path, wire)).value, conv) == AsInt(v, conv)
  {
    RoundTrip(v, path, wire);
  }

  /**
   * The 64-bit view follows the same rules as the integer view: with `Int`
   * at 64 bits, the two agree whenever the underlying conversions agree.
   */
  lemma Int64ViewIsAsInt(v: JSONValue, conv: Conversions)
    requires forall x :: conv.int64FromDouble(x) == conv.intFromDouble(x)
    requires forall s :: conv.int64FromText(s) == conv.intFromText(s)
    ensures Int64View(v, conv) == AsInt(v, conv)
  {
  }
}
