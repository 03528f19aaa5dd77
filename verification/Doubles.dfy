/** What a 64-bit double pattern means (binary64 of IEEE 754), and the comparisons a policy is tested with. */
module Doubles {
  import opened BitXor
  import opened Words

  datatype Value = NaN | Infinite(negative: bool) | Finite(r: real)

  function Scaled(m: int, e: int): real {
    if e >= 0 then (m * Pow2(e)) as real else m as real / Pow2(-e) as real
  }

  function Decode(bits: u64): Value {
    var negative := bits >= 0x8000_0000_0000_0000;
    var exponent := (bits / 0x10_0000_0000_0000) % 2048;
    var fraction := bits % 0x10_0000_0000_0000;
    var sign := if negative then -1 else 1;
    if exponent == 2047 then (if fraction == 0 then Infinite(negative) else NaN)
    else if exponent == 0 then Finite(Scaled(sign * fraction, -1074))
    else Finite(Scaled(sign * (0x10_0000_0000_0000 + fraction), exponent - 1075))
  }

  /** x < y; false when either is not a number. */
  predicate Less(x: Value, y: Value) {
    match (x, y)
    case (Finite(a), Finite(b)) => a < b
    case (Infinite(n), Finite(_)) => n
    case (Finite(_), Infinite(n)) => !n
    case (Infinite(m), Infinite(n)) => m && !n
    case _ => false
  }

  predicate Outside(bits: u64) {
    Less(Decode(bits), Finite(0.0)) || Less(Finite(1.0), Decode(bits))
  }

  predicate AtLeast(a: u64, b: u64) {
    var x, y := Decode(a), Decode(b);
    !x.NaN? && !y.NaN? && !Less(x, y)
  }

  predicate IsFinite(bits: u64) { Decode(bits).Finite? }
}
