/** Bytes, powers and little-endian numbers. */
module Words {

  type Byte = b: int | 0 <= b < 256

  function Pow(b: nat, k: nat): (p: nat)
    requires b > 0
    ensures p > 0
  {
    if k == 0 then 1 else b * Pow(b, k - 1)
  }

  /** The number whose bytes are `s`, lowest first. */
  function Of(s: seq<Byte>): nat {
    if s == [] then 0 else s[0] + 256 * Of(s[1..])
  }
}
