/** Attribute values: the closed union of scalars a span, a metric or a
    batch can carry, the conversions that build them, and their untagged
    JSON form. */
module Attribute {
  import opened Common
  import opened Numeric
  import opened JsonTree

  datatype Value =
    | Int(i: i64)
    | UInt(u: u64)
    | Int128(wide: i128)
    | UInt128(uwide: u128)
    | Str(s: string)
    | Float(f: F64)
    | Bool(b: bool)

  /** The integer a value holds, whatever its width and signedness. */
  function IntegerOf(v: Value): Option<int> {
    match v
    case Int(x) => Some(x as int)
    case UInt(x) => Some(x as int)
    case Int128(x) => Some(x as int)
    case UInt128(x) => Some(x as int)
    case _ => None
  }

  function FromI128(x: i128): (v: Value)
    ensures v.Int128? && IntegerOf(v) == Some(x as int)
  {
    Int128(x)
  }

  function FromI64(x: i64): (v: Value)
    ensures v.Int? && IntegerOf(v) == Some(x as int)
  {
    Int(x)
  }

  /** A 32-bit signed integer is widened, not reinterpreted: it becomes the
      same `Int` that the 64-bit conversion gives for that number. */
  function FromI32(x: i32): (v: Value)
    ensures v == FromI64(x as int as i64)
    ensures IntegerOf(v) == Some(x as int)
  {
    Int(x as int as i64)
  }

  function FromU128(x: u128): (v: Value)
    ensures v.UInt128? && IntegerOf(v) == Some(x as int)
  {
    UInt128(x)
  }

  function FromU64(x: u64): (v: Value)
    ensures v.UInt? && IntegerOf(v) == Some(x as int)
  {
    UInt(x)
  }

  /** A 32-bit unsigned integer is widened to the 64-bit `UInt`. */
  function FromU32(x: u32): (v: Value)
    ensures v == FromU64(x as int as u64)
    ensures IntegerOf(v) == Some(x as int)
  {
    UInt(x as int as u64)
  }

  function FromStr(s: string): (v: Value)
    ensures v.Str? && ToJson(v) == JStr(s)
  {
    Str(s)
  }

  function FromBool(b: bool): (v: Value)
    ensures v.Bool? && ToJson(v) == JBool(b)
  {
    Bool(b)
  }

  /** Untagged serialization: each value is written as the bare JSON scalar
      it holds, with no marker of its variant. */
  function ToJson(v: Value): (j: Json)
    ensures IntegerOf(v).Some? ==> j == JNum(IntegerOf(v).value)
  {
    match v
    case Int(x) => JNum(x as int)
    case UInt(x) => JNum(x as int)
    case Int128(x) => JNum(x as int)
    case UInt128(x) => JNum(x as int)
    case Str(s) => JStr(s)
    case Float(f) => JFloat(f)
    case Bool(b) => JBool(b)
  }

  /** An attribute map as the JSON object of its serialized values. */
  function AttributesJson(m: map<string, Value>): (j: Json)
    ensures j.JObj? && j.fields.Keys == m.Keys
    ensures forall k :: k in m ==> j.fields[k] == ToJson(m[k])
  {
    JObj(map k | k in m :: ToJson(m[k]))
  }

  /** serde_json's `to_value` holds an integer only in the range of i64 or of
      u64: a 128-bit value outside both is refused, and so is any map that
      holds one. Every other value always converts. */
  predicate Fits64(v: Value) {
    IntegerOf(v).None? || -0x8000_0000_0000_0000 <= IntegerOf(v).value < 0x1_0000_0000_0000_0000
  }

  predicate AttributesFit(m: map<string, Value>) {
    forall k :: k in m ==> Fits64(m[k])
  }

  /** Which values `to_value` accepts: every value of the 64-bit variants
      and of the non-integer ones, and a 128-bit value exactly when its
      integer lies in the i64 or the u64 range. */
  lemma SerdeRange(x: i128, y: u128, v: Value)
    requires !v.Int128? && !v.UInt128?
    ensures Fits64(v)
    ensures Fits64(FromI128(x)) <==> -0x8000_0000_0000_0000 <= x as int < 0x1_0000_0000_0000_0000
    ensures Fits64(FromU128(y)) <==> y as int < 0x1_0000_0000_0000_0000
    ensures !Fits64(FromU128(0x40_0000_0000_0000_0000)) && !Fits64(FromI128(-0x40_0000_0000_0000_0000))
  {
  }

  /** Because the union is untagged, the wire cannot tell the integer
      variants apart: two integer values serialize alike exactly when they
      hold the same number. */
  lemma UntaggedIntegers(v: Value, w: Value)
    requires IntegerOf(v).Some? && IntegerOf(w).Some?
    ensures ToJson(v) == ToJson(w) <==> IntegerOf(v) == IntegerOf(w)
  {
  }

  /** The serializations the source's own examples show. */
  lemma ValueToJsonExamples()
    ensures ToJson(Int(-5)) == JNum(-5)
    ensures ToJson(UInt(5)) == JNum(5)
    ensures ToJson(Str("root")) == JStr("root")
    ensures ToJson(Bool(true)) == JBool(true)
    ensures ToJson(FromI32(-5)) == ToJson(FromI64(-5))
  {
  }
}
