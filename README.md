# JSONValue in Dafny

A model of the `JSONValue` type of the Swift package `json-value`: a closed
sum of seven cases (`null`, `bool`, `int`, `double`, `string`, `array`,
`object`) together with

- its `Codable` conformance: `init(from:)`, an ordered cascade of
  speculative decode attempts on a single-value container, and
  `encode(to:)`, one write per case;
- its accessor layer: the direct-shape views (`string`, `object`, `array`,
  `bool`), the numeric views (`int64`, `doubleValue`, `asInt`,
  `asDouble`), the `as*` aliases, `isNull`, and the key and index
  subscripts;
- its literal initialisers (string, integer, float, boolean, array,
  dictionary, nil).

The whole core is pure, so the model is datatypes, functions and lemmas.

Files and modules:

- `wrappers.dfy` (`Wrappers`): `Option` (Swift's optionals) and `Result` (a
  call that may throw).
- `numerics.dfy` (`Numerics`): Swift `Int` and `Int64` as 64-bit subset
  types. It also defines `Float64`, a double kept as its uninterpreted
  binary64 bit pattern. `Conversions` is a record of the standard-library
  conversions the accessors call (`Int64(exactly:)`, `Int(exactly:)`,
  `Double(Int)` and the three text parsers). It is passed as a parameter;
  its result types carry the only fact known of it: a result that is
  present lies in the target type's range.
- `json_value.dfy` (`Json`): the `JSONValue` datatype, its case tag `Kind`,
  and the literal constructors. The dictionary literal is built by
  `UniqueKeysWithValues`, which requires distinct keys because Swift's
  `Dictionary(uniqueKeysWithValues:)` traps on a duplicate.
- `codec.dfy` (`JsonCodec`): a `Decoder` is given as its coding path and the
  single-value container it hands out, or the error it throws instead
  (`OtherError`, kept apart from the cascade's own `TypeMismatch`). A
  `Container` holds what each attempt yields. Sequence and dictionary
  attempts hold one nested decoder per element, decoded recursively and
  all-or-nothing, as `try? container.decode([JSONValue].self)` does.
  `Decode` is the cascade, and `Attempts` and `FirstSuccess` give it as
  "first success in an ordered list". `Encode` yields the single `Write`
  the container receives. `Reread` models a JSON reader over a written
  value, and `RoundTrip` proves the decode/encode law with its documented
  exception: doubles whose text reads as an integer come back as `Int`.
- `accessors.dfy` (`JsonAccessors`): the views and subscripts, and lemmas
  tying them to the literals and to the codec.

## Model

| member | source | states |
|---|---|---|
| `Numerics.Int64Exactly` | Sources/JSONValue.swift:98 | `Int64(exactly:)` on an integer is present exactly when the value is within the `Int64` range, and then equals it |
| `Json.FromStringLiteral` | Sources/JSONValue.swift:154-156 | the string literal builds a `string` holding that text (read back by `LiteralsReadBack`) |
| `Json.FromIntegerLiteral` | Sources/JSONValue.swift:160-162 | the integer literal builds an `int` holding that integer (read back by `LiteralsReadBack`) |
| `Json.FromFloatLiteral` | Sources/JSONValue.swift:166-168 | the float literal builds a `double` holding that double (read back by `LiteralsReadBack`) |
| `Json.FromBooleanLiteral` | Sources/JSONValue.swift:172-174 | the boolean literal builds a `bool` holding that boolean (read back by `LiteralsReadBack`) |
| `Json.FromArrayLiteral` | Sources/JSONValue.swift:178-180 | the array literal builds an `array` holding the elements in order (read back by `LiteralsReadBack`) |
| `Json.FromNilLiteral` | Sources/JSONValue.swift:190-192 | the nil literal builds `null` (read back by `LiteralsReadBack`) |
| `Json.UniqueKeysWithValues` | Sources/JSONValue.swift:185 | given distinct keys, the map has exactly the literal's keys, maps each key to its paired value, and has one entry per pair |
| `Json.KeysOfSize` | Sources/JSONValue.swift:185 | a literal with distinct keys names as many keys as it has pairs |
| `Json.FromDictionaryLiteral` | Sources/JSONValue.swift:183-187 | the dictionary literal is an `object` holding exactly the given pairs; duplicate keys are excluded, as Swift traps on them |
| `Json.DictionaryLiteralOrderIrrelevant` | Sources/JSONValue.swift:183-187 | two dictionary literals listing the same pairs in any order are equal values |
| `JsonCodec.DecodeArray` | Sources/JSONValue.swift:36-39 | the sequence attempt succeeds iff the container holds a sequence and every element decodes; the result holds each element's decoded value, in order |
| `JsonCodec.DecodeObject` | Sources/JSONValue.swift:40-43 | the dictionary attempt succeeds iff the container holds a keyed mapping and every value decodes; the result has the same keys, each with its decoded value |
| `JsonCodec.Attempts` | Sources/JSONValue.swift:16-43 | the seven attempts in cascade order; the i-th can only produce the i-th kind (null, bool, int, double, string, array, object) |
| `JsonCodec.FirstSuccessIsFirstPresent` | Sources/JSONValue.swift:16-43 | in an ordered list of attempts, the first success wins over all later entries |
| `JsonCodec.FirstSuccessAbsent` | Sources/JSONValue.swift:16-48 | no success is found exactly when every attempt is absent |
| `JsonCodec.Decode` | Sources/JSONValue.swift:13-49 | an error from obtaining the single-value container (line 14) is thrown unchanged; otherwise the only failure is the type mismatch with the decoder's coding path and "Unable to decode JSONValue", and a nil container always gives `null`; `DecodeIsFirstSuccess` and `DecodeFailsIffAllAttemptsFail` pin the rest of the cascade |
| `JsonCodec.DecodeIsFirstSuccess` | Sources/JSONValue.swift:13-49 | `init(from:)` returns the value of the first successful attempt, and otherwise throws the type mismatch with the decoder's coding path and "Unable to decode JSONValue" |
| `JsonCodec.DecodeTakesFirstSuccess` | Sources/JSONValue.swift:16-43 | if attempts 0..k-1 fail and attempt k succeeds, the result is attempt k's value and has the k-th kind of the cascade; earlier failures never stop the cascade |
| `JsonCodec.LaterAttemptsIgnored` | Sources/JSONValue.swift:16-43 | two containers that agree up to and including the first successful attempt decode to the same result, whatever their later attempts hold |
| `JsonCodec.DecodeFailsIffAllAttemptsFail` | Sources/JSONValue.swift:20-48 | decoding fails exactly when all seven attempts fail, and then with the fixed type-mismatch error |
| `JsonCodec.Encode` | Sources/JSONValue.swift:51-70 | one write per case, of that case's own tag; an array writes one element per value and an object one entry per key |
| `JsonCodec.RoundTrip` | Sources/JSONValue.swift:13-70 | decoding what was encoded yields the value back, except that each double whose text reads as an integer becomes that `Int` |
| `JsonCodec.CanonicalIdentity` | Sources/JSONValue.swift:24-31 | a value with no double that reads as an integer is left unchanged by that integer preference |
| `JsonCodec.RoundTripExact` | Sources/JSONValue.swift:13-70 | without such doubles the round trip returns the value itself |
| `JsonCodec.IntegralDoubleReadsBackAsInt` | Sources/JSONValue.swift:24-31 | the integer attempt precedes the double attempt: a double written as whole-number text comes back as `Int` |
| `JsonAccessors.StringView` | Sources/JSONValue.swift:75-78 | present iff the value is a string, and then the value is that string |
| `JsonAccessors.ObjectView` | Sources/JSONValue.swift:80-83 | present iff the value is an object, and then the value is that object |
| `JsonAccessors.ArrayView` | Sources/JSONValue.swift:85-88 | present iff the value is an array, and then the value is that array |
| `JsonAccessors.BoolView` | Sources/JSONValue.swift:90-93 | present iff the value is a boolean, and then the value is that boolean |
| `JsonAccessors.Int64View` | Sources/JSONValue.swift:95-106 | every `Int` is present as itself; a double or text goes through the exact conversion; present only for int, double or string |
| `JsonAccessors.DoubleValue` | Sources/JSONValue.swift:108-119 | every `Int` (widened) and every `Double` are present; text only when it parses; absent for every other case |
| `JsonAccessors.AsString` | Sources/JSONValue.swift:124 | equals `string` |
| `JsonAccessors.AsInt` | Sources/JSONValue.swift:126-137 | an `Int` is present as itself; a double or text goes through the exact conversion; present only for int, double or string |
| `JsonAccessors.AsDouble` | Sources/JSONValue.swift:139 | equals `doubleValue` |
| `JsonAccessors.AsBool` | Sources/JSONValue.swift:141 | equals `bool` |
| `JsonAccessors.AsArray` | Sources/JSONValue.swift:143 | equals `array` |
| `JsonAccessors.AsObject` | Sources/JSONValue.swift:145 | equals `object` |
| `JsonAccessors.IsNull` | Sources/JSONValue.swift:147-150 | always defined; true exactly for `null` |
| `JsonAccessors.Lookup` | Sources/JSONValue.swift:196-201 | present iff the value is an object holding the key, and then equals that entry |
| `JsonAccessors.At` | Sources/JSONValue.swift:203-208 | present iff the value is an array and the index is within bounds (not negative, below the count), and then equals that element |
| `JsonAccessors.LiteralsReadBack` | Sources/JSONValue.swift:153-193 | each literal initialiser builds the case its view reads back: string, integer, float, boolean, array and nil |
| `JsonAccessors.DictionaryLiteralLookup` | Sources/JSONValue.swift:183-201 | a dictionary literal answers each of its keys with the paired value and a key it does not name with absence |
| `JsonAccessors.ArrayLiteralAt` | Sources/JSONValue.swift:177-208 | indexing an array literal yields the element in bounds and absence on a negative or too large index |
| `JsonAccessors.ViewsFollowKind` | Sources/JSONValue.swift:74-151 | the presence of each direct view is decided by the case tag alone; the numeric views are absent for null, bool, array and object |
| `JsonAccessors.Int64ViewIsAsInt` | Sources/JSONValue.swift:95-137 | `int64` equals `asInt` on every value whenever the `Int64` and `Int` conversions of doubles and of text agree, since `Int` is 64 bits wide |
| `JsonAccessors.AsIntSurvivesRoundTrip` | Sources/JSONValue.swift:126-137 | when the wire reads doubles as integers the way `Int(exactly:)` does, `asInt` of the decoded value equals `asInt` of the encoded one |

## Left out

- Floating point: `Int64(exactly: Double)`, `Int(exactly: Double)`, `Double(Int)` (Sources/JSONValue.swift:100, 111, 131) are fields of `Conversions`, known only through their result types. So the boundary, fractional, NaN and infinity cases of the numeric views are not derived.
- Text parsing by `Int64(String)`, `Int(String)` and `Double(String)` (Sources/JSONValue.swift:102, 115, 133) is also a field of `Conversions`. These are standard-library parsers whose code is not part of this model.
- The concrete `Decoder`, `Encoder` and JSON tokenizer are foreign. The decoder is seen only through its attempt outcomes (`Container`). The encoder is seen only through the one `Write` it receives. `Reread` is an assumption about a JSON reader, used only by the round-trip lemmas.
- Encoder failures: the container's `encode` calls may throw, and `encode(to:)` passes that error on unchanged. The model has no sink that can fail, so `Encode` is total.
- Equality: the model uses Dafny's structural equality, which compares doubles by bit pattern. Swift's derived `Equatable` compares `Double` payloads by IEEE rules (NaN unequal to itself, +0 equal to -0), and compares strings by canonical Unicode equivalence. Neither difference is modelled.
- Lookup, KeysUnique, UniqueKeysWithValues, FromDictionaryLiteral and the `Object` payload compare keys as sequences of Unicode scalars, not by canonical equivalence as Swift's `String` and `Dictionary` do. So a dictionary literal with two canonically equivalent keys (precomposed and decomposed "é") is accepted where Swift traps, and `Lookup` with a canonically equivalent but differently encoded key is absent where Swift finds the entry.
- `Hashable` and `Sendable` are not modelled: hashing is library-derived, and `Sendable` is only a concurrency marker.
- `Int` is modelled at 64 bits. On a 32-bit platform `Int` is narrower, and `Int64(exactly:)` on an `Int` could not fail there either.
- `Package.swift` is not part of this model, since it is build metadata only.
