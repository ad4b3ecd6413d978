/** Small datatypes shared by the models, and bytes with the bit operations the sources use. */
module Common {
  datatype Option<+T> = None | Some(value: T)

  datatype Result<+T, +E> = Ok(value: T) | Err(error: E)

  type byte = x: int | 0 <= x < 256

  /** Exclusive or of the lowest `bits` binary digits. */
  function XorBits(a: nat, b: nat, bits: nat): (x: nat)
    decreases bits
  {
    if bits == 0 then 0 else 2 * XorBits(a / 2, b / 2, bits - 1) + (if a % 2 == b % 2 then 0 else 1)
  }

  function Power2(bits: nat): nat {
    if bits == 0 then 1 else 2 * Power2(bits - 1)
  }

  lemma {:induction false} XorBelow(a: nat, b: nat, bits: nat)
    ensures XorBits(a, b, bits) < Power2(bits)
    decreases bits
  {
    if bits > 0 { XorBelow(a / 2, b / 2, bits - 1); }
  }

  lemma {:induction false} XorBitsTwice(a: nat, b: nat, bits: nat)
    requires a < Power2(bits)
    ensures XorBits(XorBits(a, b, bits), b, bits) == a
    decreases bits
  {
    if bits > 0 {
      var high, low := XorBits(a / 2, b / 2, bits - 1), if a % 2 == b % 2 then 0 else 1;
      assert (2 * high + low) / 2 == high && (2 * high + low) % 2 == low;
      XorBitsTwice(a / 2, b / 2, bits - 1);
    }
  }

  /** Binary digit k of n, counted from the lowest: the parity of n after k halvings. */
  function Digit(n: nat, k: nat): nat {
    if k == 0 then n % 2 else Digit(n / 2, k - 1)
  }

  lemma {:induction false} XorBitsDigit(a: nat, b: nat, bits: nat, k: nat)
    requires k < bits
    ensures Digit(XorBits(a, b, bits), k) == if Digit(a, k) != Digit(b, k) then 1 else 0
    decreases bits
  {
    var high, low := XorBits(a / 2, b / 2, bits - 1), if a % 2 == b % 2 then 0 else 1;
    assert (2 * high + low) / 2 == high && (2 * high + low) % 2 == low;
    if k > 0 { XorBitsDigit(a / 2, b / 2, bits - 1, k - 1); }
  }

  function Xor(a: byte, b: byte): byte {
    XorBelow(a, b, 8);
    assert Power2(4) == 16 && Power2(8) == 256;
    XorBits(a, b, 8)
  }

  /** A digit of the exclusive or is 1 exactly where the digits of the two bytes differ. */
  lemma XorDigits(a: byte, b: byte, k: nat)
    requires k < 8
    ensures Digit(Xor(a, b), k) == if Digit(a, k) != Digit(b, k) then 1 else 0
  {
    XorBitsDigit(a, b, 8, k);
  }

  lemma XorTwice(a: byte, b: byte)
    ensures Xor(Xor(a, b), b) == a
  {
    assert Power2(4) == 16 && Power2(8) == 256;
    XorBitsTwice(a, b, 8);
  }

  /** `x & (2^n - 1)` keeps the low bits of a byte. */
  function LowBits(x: byte, modulus: nat): byte
    requires 0 < modulus
  {
    x % modulus
  }

  function Min(a: int, b: int): int {
    if a < b then a else b
  }

  /** The parts of a sequence, one after the other. */
  function Concat<T>(parts: seq<seq<T>>): seq<T> {
    if parts == [] then [] else parts[0] + Concat(parts[1..])
  }
}
