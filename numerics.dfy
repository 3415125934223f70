/**
 * The numeric types the JSON value uses, and the standard-library
 * conversions between them that the model does not look inside.
 */
module Numerics {
  import opened Wrappers

  /** Bounds of Swift's `Int` on the 64-bit platforms the model assumes. */
  const MinInt: int := -0x8000_0000_0000_0000
  const MaxInt: int := 0x7FFF_FFFF_FFFF_FFFF

  /** Bounds of Swift's `Int64`. */
  const MinInt64: int := -0x8000_0000_0000_0000
  const MaxInt64: int := 0x7FFF_FFFF_FFFF_FFFF

  /** Swift's native `Int`. */
  type SwiftInt = x: int | MinInt <= x <= MaxInt

  /** Swift's `Int64`. */
  type Int64 = x: int | MinInt64 <= x <= MaxInt64

  /** An IEEE-754 binary64 value, kept as its bit pattern and never interpreted. */
  type Float64 = bv64

  /**
   * The standard-library conversions the accessors call. Their bodies are
   * not part of the model; the result types say what is known of them: a
   * conversion that succeeds yields a value in the target type's range.
   */
  datatype Conversions = Conversions(
    int64FromDouble: Float64 -> Option<Int64>,  // Int64(exactly: Double)
    intFromDouble: Float64 -> Option<SwiftInt>, // Int(exactly: Double)
    doubleFromInt: SwiftInt -> Float64,         // Double(Int)
    int64FromText: string -> Option<Int64>,     // Int64(String)
    intFromText: string -> Option<SwiftInt>,    // Int(String)
    doubleFromText: string -> Option<Float64>)  // Double(String)

  /** `Int64(exactly:)` on an `Int`: present exactly when the value fits. */
  function Int64Exactly(n: int): (r: Option<Int64>)
    ensures r.Some? <==> MinInt64 <= n <= MaxInt64
    ensures r.Some? ==> r.value == n
  {
    if MinInt64 <= n <= MaxInt64 then Some(n) else None
  }
}
