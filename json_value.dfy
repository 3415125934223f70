/**
 * The JSON value: a closed sum of seven cases, with the literal
 * constructors that map one native literal form onto one case.
 */
module Json {
  import opened Numerics

  /** Any JSON-compatible value. Equality is structural; map equality ignores order. */
  datatype JSONValue =
    | Null
    | Bool(b: bool)
    | Int(i: SwiftInt)
    | Double(d: Float64)
    | String(s: string)
    | Array(values: seq<JSONValue>)
    | Object(fields: map<string, JSONValue>)

  /** The case tag of a value, without its payload. */
  datatype Kind = NullKind | BoolKind | IntKind | DoubleKind | StringKind | ArrayKind | ObjectKind

  function KindOf(v: JSONValue): Kind
  {
    match v
    case Null => NullKind
    case Bool(_) => BoolKind
    case Int(_) => IntKind
    case Double(_) => DoubleKind
    case String(_) => StringKind
    case Array(_) => ArrayKind
    case Object(_) => ObjectKind
  }

  // Literal constructors: each native literal form builds one case

  function FromStringLiteral(value: string): (r: JSONValue)
    ensures KindOf(r) == StringKind && r.s == value
  {
    String(value)
  }

  function FromIntegerLiteral(value: SwiftInt): (r: JSONValue)
    ensures KindOf(r) == IntKind && r.i == value
  {
    Int(value)
  }

  function FromFloatLiteral(value: Float64): (r: JSONValue)
    ensures KindOf(r) == DoubleKind && r.d == value
  {
    Double(value)
  }

  function FromBooleanLiteral(value: bool): (r: JSONValue)
    ensures KindOf(r) == BoolKind && r.b == value
  {
    Bool(value)
  }

  function FromArrayLiteral(elements: seq<JSONValue>): (r: JSONValue)
    ensures KindOf(r) == ArrayKind && r.values == elements
  {
    Array(elements)
  }

  function FromNilLiteral(): (r: JSONValue)
    ensures KindOf(r) == NullKind
  {
    Null
  }

  /** No key occurs twice among the pairs of a dictionary literal. */
  predicate KeysUnique(elements: seq<(string, JSONValue)>)
  {
    forall i, j :: 0 <= i < j < |elements| ==> elements[i].0 != elements[j].0
  }

  /** The keys named by the pairs of a dictionary literal. */
  function KeysOf(elements: seq<(string, JSONValue)>): set<string>
  {
    set i | 0 <= i < |elements| :: elements[i].0
  }

  /**
   * `Dictionary(uniqueKeysWithValues:)`: the map holding exactly the given
   * pairs. Swift traps on a duplicate key, so callers must not pass one.
   */
  function UniqueKeysWithValues(elements: seq<(string, JSONValue)>): (m: map<string, JSONValue>)
    requires KeysUnique(elements)
    ensures m.Keys == KeysOf(elements)
    ensures forall i :: 0 <= i < |elements| ==> m[elements[i].0] == elements[i].1
    ensures |m| == |elements|
  {
    KeysOfSize(elements);
    if elements == [] then map[]
    else
      var n := |elements| - 1;
      var init, last := elements[..n], elements[n];
      assert forall i :: 0 <= i < n ==> init[i] == elements[i];
      assert KeysOf(elements) == KeysOf(init) + {last.0};
      var prev := UniqueKeysWithValues(init);
      assert last.0 !in prev;
      prev[last.0 := last.1]
  }

  /** Distinct keys: the literal names as many keys as it has pairs. */
  lemma {:induction false} KeysOfSize(elements: seq<(string, JSONValue)>)
    requires KeysUnique(elements)
    ensures |KeysOf(elements)| == |elements|
  {
    if elements != [] {
      var n := |elements| - 1;
      var init := elements[..n];
      assert forall i :: 0 <= i < n ==> init[i] == elements[i];
      assert KeysOf(elements) == KeysOf(init) + {elements[n].0};
      KeysOfSize(init);
    }
  }

  function FromDictionaryLiteral(elements: seq<(string, JSONValue)>): (r: JSONValue)
    requires KeysUnique(elements)
    ensures r.Object? && r.fields.Keys == KeysOf(elements) && |r.fields| == |elements|
    ensures forall i :: 0 <= i < |elements| ==> r.fields[elements[i].0] == elements[i].1
  {
    Object(UniqueKeysWithValues(elements))
  }

  /**
   * Object equality does not depend on the order of the literal's pairs:
   * two literals listing the same pairs build the same value.
   */
  lemma DictionaryLiteralOrderIrrelevant(a: seq<(string, JSONValue)>, b: seq<(string, JSONValue)>)
    requires KeysUnique(a) && KeysUnique(b)
    requires forall p :: p in a <==> p in b
    ensures FromDictionaryLiteral(a) == FromDictionaryLiteral(b)
  {
    var ma, mb := FromDictionaryLiteral(a).fields, FromDictionaryLiteral(b).fields;
    forall k | k in ma
      ensures k in mb && ma[k] == mb[k]
    {
      var i :| 0 <= i < |a| && a[i].0 == k;
      assert a[i] in b;
      var j :| 0 <= j < |b| && b[j] == a[i];
    }
    forall k | k in mb
      ensures k in ma
    {
      var j :| 0 <= j < |b| && b[j].0 == k;
      assert b[j] in a;
      var i :| 0 <= i < |a| && a[i] == b[j];
    }
  }
}
