/**
 * Little-endian integers, the opaque IEEE-754 values and the JavaScript
 * number kinds the decoder stores.
 */
module Bytes {

  newtype uint8 = x: int | 0 <= x < 256

  /** The unsigned value of a little-endian byte string. */
  function LeBytes(b: seq<uint8>): nat
  {
    if |b| == 0 then 0 else b[0] as nat + 0x100 * LeBytes(b[1..])
  }

  /** Two's complement readings of 16-, 32- and 64-bit unsigned values. */
  function Int16Of(u: int): int { if u < 0x8000 then u else u - 0x1_0000 }
  function Int32Of(u: int): int { if u < 0x8000_0000 then u else u - 0x1_0000_0000 }
  function Int64Of(u: int): int { if u < 0x8000_0000_0000_0000 then u else u - 0x1_0000_0000_0000_0000 }

  /** A 4-byte IEEE-754 single, kept as its bit pattern. */
  datatype Float32 = Float32(bits: nat) {
    function Sign(): nat { bits / 0x8000_0000 }
    function Exponent(): nat { (bits / 0x80_0000) % 0x100 }
    function Mantissa(): nat { bits % 0x80_0000 }
    predicate IsNaN() { Exponent() == 0xFF && Mantissa() != 0 }
    /** JavaScript `x === 0`: true for +0 and -0. */
    predicate IsZero() { Exponent() == 0 && Mantissa() == 0 }
    /** JavaScript `x > 0`: false for zeros, negatives and NaN. */
    predicate IsPositive() { Sign() == 0 && !IsZero() && !IsNaN() }
  }

  /** An 8-byte IEEE-754 double (also a Delphi TDateTime), kept as its bit pattern. */
  datatype Float64 = Float64(bits: nat) {
    function Sign(): nat { bits / 0x8000_0000_0000_0000 }
    function Exponent(): nat { (bits / 0x10_0000_0000_0000) % 0x800 }
    function Mantissa(): nat { bits % 0x10_0000_0000_0000 }
    predicate IsNaN() { Exponent() == 0x7FF && Mantissa() != 0 }
    predicate IsZero() { Exponent() == 0 && Mantissa() == 0 }
    predicate IsPositive() { Sign() == 0 && !IsZero() && !IsNaN() }
  }

  /**
   * A JavaScript number whose origin matters: an integer read or default,
   * or a float read from the stream.
   */
  datatype Num = Int(i: int) | F32(f: Float32) | F64(d: Float64) {
    /** JavaScript `x === 0`. */
    predicate IsZero() {
      match this
      case Int(i) => i == 0
      case F32(f) => f.IsZero()
      case F64(d) => d.IsZero()
    }
    /** JavaScript `x > 0`. */
    predicate IsPositive() {
      match this
      case Int(i) => i > 0
      case F32(f) => f.IsPositive()
      case F64(d) => d.IsPositive()
    }
  }
}
