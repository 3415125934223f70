/**
 * Decoding and encoding a JSON value against an abstract single-value
 * container. The container is seen only through the outcomes of the
 * attempts the decoder makes and the one write the encoder makes.
 */
module JsonCodec {
  import opened Wrappers
  import opened Numerics
  import opened Json

  /** One step of a coding path: a dictionary key or an array index. */
  datatype CodingKey = Key(name: string) | Index(position: nat)

  /**
   * What decoding can throw: the type mismatch raised when no attempt
   * succeeds, or any other error the decoder itself throws (Swift's `any Error`).
   */
  datatype DecodeError =
    | TypeMismatch(codingPath: seq<CodingKey>, debugDescription: string)
    | OtherError(description: string)

  const MismatchMessage: string := "Unable to decode JSONValue"

  /**
   * A decoder at one position: its coding path and the single-value
   * container it hands out (obtaining it may itself throw).
   */
  datatype Decoder = Decoder(codingPath: seq<CodingKey>, singleValueContainer: Result<Container, DecodeError>)

  /**
   * What each attempt on a single-value container yields: whether
   * `decodeNil()` is true, and for each `try? decode(T.self)` the value or
   * absence. Sequences and dictionaries of JSON values hand out one
   * decoder per element, which is decoded recursively.
   */
  datatype Container = Container(
    decodesNil: bool,
    boolAttempt: Option<bool>,
    intAttempt: Option<SwiftInt>,
    doubleAttempt: Option<Float64>,
    stringAttempt: Option<string>,
    arrayAttempt: SequenceAttempt,
    objectAttempt: MappingAttempt)

  /** What `decode([JSONValue].self)` finds: no sequence, or one decoder per element. */
  datatype SequenceAttempt = NotASequence | Sequence(elements: seq<Decoder>)

  /** What `decode([String: JSONValue].self)` finds: no mapping, or one decoder per key. */
  datatype MappingAttempt = NotAMapping | Mapping(entries: map<string, Decoder>)

  /**
   * `try? container.decode([JSONValue].self)`: present only if the container
   * holds a sequence and every element decodes.
   */
  function DecodeArray(c: Container): (r: Option<seq<JSONValue>>)
    ensures r.Some? <==> c.arrayAttempt.Sequence? && forall i :: 0 <= i < |c.arrayAttempt.elements| ==> Decode(c.arrayAttempt.elements[i]).Success?
    ensures r.Some? ==> |r.value| == |c.arrayAttempt.elements|
    ensures r.Some? ==> forall i :: 0 <= i < |r.value| ==> Decode(c.arrayAttempt.elements[i]) == Success(r.value[i])
    decreases c, 0
  {
    match c.arrayAttempt
    case NotASequence => None
    case Sequence(elements) =>
      if forall i :: 0 <= i < |elements| ==> Decode(elements[i]).Success? then
        Some(seq(|elements|, i requires 0 <= i < |elements| => Decode(elements[i]).value))
      else None
  }

  /**
   * `try? container.decode([String: JSONValue].self)`: present only if the
   * container holds a keyed mapping and every value decodes.
   */
  function DecodeObject(c: Container): (r: Option<map<string, JSONValue>>)
    ensures r.Some? <==> c.objectAttempt.Mapping? && forall k :: k in c.objectAttempt.entries ==> Decode(c.objectAttempt.entries[k]).Success?
    ensures r.Some? ==> r.value.Keys == c.objectAttempt.entries.Keys
    ensures r.Some? ==> forall k :: k in r.value ==> Decode(c.objectAttempt.entries[k]) == Success(r.value[k])
    decreases c, 0
  {
    match c.objectAttempt
    case NotAMapping => None
    case Mapping(entries) =>
      if forall k :: k in entries ==> Decode(entries[k]).Success? then
        Some(map k | k in entries :: Decode(entries[k]).value)
      else None
  }

  /**
   * `JSONValue.init(from:)`: an ordered cascade of attempts that stops at
   * the first success and throws a type mismatch only when all fail.
   */
  function Decode(decoder: Decoder): (r: Result<JSONValue, DecodeError>)
    ensures decoder.singleValueContainer.Failure? ==> r == Failure(decoder.singleValueContainer.error)
    ensures decoder.singleValueContainer.Success? && r.Failure? ==>
      r.error == TypeMismatch(decoder.codingPath, MismatchMessage)
    ensures decoder.singleValueContainer.Success? && decoder.singleValueContainer.value.decodesNil ==> r == Success(Null)
    decreases decoder, 1
  {
    match decoder.singleValueContainer
    case Failure(e) => Failure(e)
    case Success(c) =>
      if c.decodesNil then Success(Null)
      else if c.boolAttempt.Some? then Success(Bool(c.boolAttempt.value))
      else if c.intAttempt.Some? then Success(Int(c.intAttempt.value))
      else if c.doubleAttempt.Some? then Success(Double(c.doubleAttempt.value))
      else if c.stringAttempt.Some? then Success(String(c.stringAttempt.value))
      else if DecodeArray(c).Some? then Success(Array(DecodeArray(c).value))
      else if DecodeObject(c).Some? then Success(Object(DecodeObject(c).value))
      else Failure(TypeMismatch(decoder.codingPath, MismatchMessage))
  }

  // The cascade as an ordered list of attempts

  /** The order in which the cascade tries the cases. */
  const CascadeOrder: seq<Kind> := [NullKind, BoolKind, IntKind, DoubleKind, StringKind, ArrayKind, ObjectKind]

  /**
   * The seven attempts on a container, each turned into the value it would
   * produce; the i-th attempt can only produce the i-th kind of the cascade.
   */
  function Attempts(c: Container): (r: seq<Option<JSONValue>>)
    ensures |r| == |CascadeOrder|
    ensures forall i :: 0 <= i < |r| && r[i].Some? ==> KindOf(r[i].value) == CascadeOrder[i]
  {
    [ if c.decodesNil then Some(Null) else None,
      if c.boolAttempt.Some? then Some(Bool(c.boolAttempt.value)) else None,
      if c.intAttempt.Some? then Some(Int(c.intAttempt.value)) else None,
      if c.doubleAttempt.Some? then Some(Double(c.doubleAttempt.value)) else None,
      if c.stringAttempt.Some? then Some(String(c.stringAttempt.value)) else None,
      if DecodeArray(c).Some? then Some(Array(DecodeArray(c).value)) else None,
      if DecodeObject(c).Some? then Some(Object(DecodeObject(c).value)) else None ]
  }

  /** The first present entry of a list of attempts. */
  function FirstSuccess<T>(attempts: seq<Option<T>>): Option<T>
  {
    if attempts == [] then None
    else if attempts[0].Some? then attempts[0]
    else FirstSuccess(attempts[1..])
  }

  lemma {:induction false} FirstSuccessIsFirstPresent<T>(attempts: seq<Option<T>>, k: nat)
    requires k < |attempts| && attempts[k].Some?
    requires forall i :: 0 <= i < k ==> attempts[i].None?
    ensures FirstSuccess(attempts) == attempts[k]
  {
    if k > 0 {
      assert attempts[0].None?;
      FirstSuccessIsFirstPresent(attempts[1..], k - 1);
    }
  }

  lemma {:induction false} FirstSuccessAbsent<T>(attempts: seq<Option<T>>)
    ensures FirstSuccess(attempts).None? <==> forall i :: 0 <= i < |attempts| ==> attempts[i].None?
  {
    if attempts != [] {
      FirstSuccessAbsent(attempts[1..]);
      assert forall i :: 1 <= i < |attempts| ==> attempts[i] == attempts[1..][i - 1];
    }
  }

  /** The cascade is exactly "the first successful attempt, else the mismatch error". */
  lemma DecodeIsFirstSuccess(decoder: Decoder)
    requires decoder.singleValueContainer.Success?
    ensures Decode(decoder) ==
      match FirstSuccess(Attempts(decoder.singleValueContainer.value))
      case Some(v) => Success(v)
      case None => Failure(TypeMismatch(decoder.codingPath, MismatchMessage))
  {
    var c := decoder.singleValueContainer.value;
    var a := Attempts(c);
    if c.decodesNil {
      FirstSuccessIsFirstPresent(a, 0);
    } else if c.boolAttempt.Some? {
      FirstSuccessIsFirstPresent(a, 1);
    } else if c.intAttempt.Some? {
      FirstSuccessIsFirstPresent(a, 2);
    } else if c.doubleAttempt.Some? {
      FirstSuccessIsFirstPresent(a, 3);
    } else if c.stringAttempt.Some? {
      FirstSuccessIsFirstPresent(a, 4);
    } else if DecodeArray(c).Some? {
      FirstSuccessIsFirstPresent(a, 5);
    } else if DecodeObject(c).Some? {
      FirstSuccessIsFirstPresent(a, 6);
    } else {
      FirstSuccessAbsent(a);
    }
  }

  /**
   * Once attempt k succeeds after k failures, its value is the result:
   * failed attempts never stop the cascade, and later ones are not consulted.
   */
  lemma DecodeTakesFirstSuccess(decoder: Decoder, k: nat)
    requires decoder.singleValueContainer.Success?
    requires k < |CascadeOrder|
    requires Attempts(decoder.singleValueContainer.value)[k].Some?
    requires forall i :: 0 <= i < k ==> Attempts(decoder.singleValueContainer.value)[i].None?
    ensures Decode(decoder) == Success(Attempts(decoder.singleValueContainer.value)[k].value)
    ensures KindOf(Decode(decoder).value) == CascadeOrder[k]
  {
    DecodeIsFirstSuccess(decoder);
    FirstSuccessIsFirstPresent(Attempts(decoder.singleValueContainer.value), k);
  }

  /** Two containers that agree up to the first success decode alike. */
  lemma LaterAttemptsIgnored(d1: Decoder, d2: Decoder, k: nat)
    requires d1.singleValueContainer.Success? && d2.singleValueContainer.Success?
    requires k < |CascadeOrder|
    requires Attempts(d1.singleValueContainer.value)[k].Some?
    requires forall i :: 0 <= i < k ==> Attempts(d1.singleValueContainer.value)[i].None?
    requires forall i :: 0 <= i <= k ==> Attempts(d1.singleValueContainer.value)[i] == Attempts(d2.singleValueContainer.value)[i]
    ensures Decode(d1) == Decode(d2)
  {
    DecodeTakesFirstSuccess(d1, k);
    DecodeTakesFirstSuccess(d2, k);
  }

  /** Decoding fails, with the fixed mismatch error, exactly when all seven attempts fail. */
  lemma DecodeFailsIffAllAttemptsFail(decoder: Decoder)
    requires decoder.singleValueContainer.Success?
    ensures Decode(decoder).Failure? <==>
      forall i :: 0 <= i < |CascadeOrder| ==> Attempts(decoder.singleValueContainer.value)[i].None?
    ensures Decode(decoder).Failure? ==> Decode(decoder).error == TypeMismatch(decoder.codingPath, MismatchMessage)
  {
    DecodeIsFirstSuccess(decoder);
    FirstSuccessAbsent(Attempts(decoder.singleValueContainer.value));
  }

  // Encoding

  /**
   * The one write `encode(to:)` makes on its single-value container;
   * sequences and dictionaries carry the writes of their elements.
   */
  datatype Write =
    | WroteNil
    | WroteBool(b: bool)
    | WroteInt(i: SwiftInt)
    | WroteDouble(d: Float64)
    | WroteString(s: string)
    | WroteArray(elements: seq<Write>)
    | WroteObject(entries: map<string, Write>)

  function WriteKind(w: Write): Kind
  {
    match w
    case WroteNil => NullKind
    case WroteBool(_) => BoolKind
    case WroteInt(_) => IntKind
    case WroteDouble(_) => DoubleKind
    case WroteString(_) => StringKind
    case WroteArray(_) => ArrayKind
    case WroteObject(_) => ObjectKind
  }

  /** `encode(to:)`: one write per case, of that case's own payload; nested values are encoded recursively. */
  function Encode(v: JSONValue): (w: Write)
    ensures WriteKind(w) == KindOf(v)
    ensures v.Array? ==> |w.elements| == |v.values|
    ensures v.Object? ==> w.entries.Keys == v.fields.Keys
  {
    match v
    case Null => WroteNil
    case Bool(b) => WroteBool(b)
    case Int(n) => WroteInt(n)
    case Double(x) => WroteDouble(x)
    case String(s) => WroteString(s)
    case Array(values) => WroteArray(seq(|values|, i requires 0 <= i < |values| => Encode(values[i])))
    case Object(fields) => WroteObject(map k | k in fields :: Encode(fields[k]))
  }

  // Reading back what was written

  /**
   * How the reading side of the wire treats numbers: whether the text a
   * double was written as also reads as an `Int`, and the double an
   * integer reads as.
   */
  datatype WireNumbers = WireNumbers(intFromDouble: Float64 -> Option<SwiftInt>, doubleFromInt: SwiftInt -> Float64)

  /** A container on which every attempt fails; `Reread` sets the ones that succeed. */
  const Empty: Container := Container(false, None, None, None, None, NotASequence, NotAMapping)

  /**
   * The decoder a JSON reader hands out for a written value: null reads
   * only as nil, a boolean only as Bool, a number as Int and as Double
   * (a written double as Int only when its text is integral), a string
   * only as String, a sequence or dictionary as such; nested values get
   * nested coding paths.
   */
  function Reread(w: Write, path: seq<CodingKey>, wire: WireNumbers): (d: Decoder)
    ensures d.codingPath == path && d.singleValueContainer.Success?
  {
    Decoder(path, Success(
      match w
      case WroteNil => Empty.(decodesNil := true)
      case WroteBool(b) => Empty.(boolAttempt := Some(b))
      case WroteInt(n) => Empty.(intAttempt := Some(n), doubleAttempt := Some(wire.doubleFromInt(n)))
      case WroteDouble(x) => Empty.(intAttempt := wire.intFromDouble(x), doubleAttempt := Some(x))
      case WroteString(s) => Empty.(stringAttempt := Some(s))
      case WroteArray(ws) =>
        Empty.(arrayAttempt := Sequence(seq(|ws|, i requires 0 <= i < |ws| => Reread(ws[i], path + [Index(i)], wire))))
      case WroteObject(m) =>
        Empty.(objectAttempt := Mapping(map k | k in m :: Reread(m[k], path + [Key(k)], wire)))))
  }

  /** The value a round trip yields: every double that reads back as an integer becomes that `Int`. */
  function Canonical(v: JSONValue, wire: WireNumbers): JSONValue
  {
    match v
    case Double(x) => if wire.intFromDouble(x).Some? then Int(wire.intFromDouble(x).value) else v
    case Array(values) => Array(seq(|values|, i requires 0 <= i < |values| => Canonical(values[i], wire)))
    case Object(fields) => Object(map k | k in fields :: Canonical(fields[k], wire))
    case _ => v
  }

  /** No double anywhere in the value reads back as an integer. */
  predicate NoIntegralDouble(v: JSONValue, wire: WireNumbers)
  {
    match v
    case Double(x) => wire.intFromDouble(x).None?
    case Array(values) => forall i :: 0 <= i < |values| ==> NoIntegralDouble(values[i], wire)
    case Object(fields) => forall k :: k in fields ==> NoIntegralDouble(fields[k], wire)
    case _ => true
  }

  /** Decoding what was encoded gives the value back, integral doubles as `Int`. */
  lemma {:induction false} RoundTrip(v: JSONValue, path: seq<CodingKey>, wire: WireNumbers)
    ensures Decode(Reread(Encode(v), path, wire)) == Success(Canonical(v, wire))
  {
    match v
    case Array(values) =>
      var d := Reread(Encode(v), path, wire);
      var c := d.singleValueContainer.value;
      forall i | 0 <= i < |values|
        ensures Decode(c.arrayAttempt.elements[i]) == Success(Canonical(values[i], wire))
      {
        RoundTrip(values[i], path + [Index(i)], wire);
      }
      assert DecodeArray(c).value == Canonical(v, wire).values;
    case Object(fields) =>
      var d := Reread(Encode(v), path, wire);
      var c := d.singleValueContainer.value;
      forall k | k in fields
        ensures Decode(c.objectAttempt.entries[k]) == Success(Canonical(fields[k], wire))
      {
        RoundTrip(fields[k], path + [Key(k)], wire);
      }
      assert DecodeObject(c).value == Canonical(v, wire).fields;
    case _ =>
  }

  lemma {:induction false} CanonicalIdentity(v: JSONValue, wire: WireNumbers)
    requires NoIntegralDouble(v, wire)
    ensures Canonical(v, wire) == v
  {
    match v
    case Array(values) =>
      forall i | 0 <= i < |values| ensures Canonical(values[i], wire) == values[i] {
        CanonicalIdentity(values[i], wire);
      }
      assert Canonical(v, wire).values == values;
    case Object(fields) =>
      forall k | k in fields ensures Canonical(fields[k], wire) == fields[k] {
        CanonicalIdentity(fields[k], wire);
      }
      assert Canonical(v, wire).fields == fields;
    case _ =>
  }

  /** Without doubles that read back as integers, the round trip is exact. */
  lemma RoundTripExact(v: JSONValue, path: seq<CodingKey>, wire: WireNumbers)
    requires NoIntegralDouble(v, wire)
    ensures Decode(Reread(Encode(v), path, wire)) == Success(v)
  {
    RoundTrip(v, path, wire);
    CanonicalIdentity(v, wire);
  }

  /** The accepted asymmetry: a double whose text is integral comes back as that `Int`. */
  lemma IntegralDoubleReadsBackAsInt(x: Float64, path: seq<CodingKey>, wire: WireNumbers)
    requires wire.intFromDouble(x).Some?
    ensures Decode(Reread(Encode(Double(x)), path, wire)) == Success(Int(wire.intFromDouble(x).value))
  {
    RoundTrip(Double(x), path, wire);
  }
}
