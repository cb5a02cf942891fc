/** Bytes as eight bits, the C operators on them, and the numbers they stand for. */
module Bits {

  /** A byte, least significant bit first. */
  type Byte = s: seq<bool> | |s| == 8 witness [false, false, false, false, false, false, false, false]

  const ZERO: Byte := [false, false, false, false, false, false, false, false]
  const ONES: Byte := [true, true, true, true, true, true, true, true]

  /** `a & b` */
  function And(a: Byte, b: Byte): (c: Byte) {
    seq(8, k requires 0 <= k < 8 => a[k] && b[k])
  }

  /** `a | b` */
  function Or(a: Byte, b: Byte): (c: Byte) {
    seq(8, k requires 0 <= k < 8 => a[k] || b[k])
  }

  /** `~a`, cut back to a byte. */
  function Not(a: Byte): (c: Byte) {
    seq(8, k requires 0 <= k < 8 => !a[k])
  }

  /** `a << n`, cut back to a byte. */
  function Shl(a: Byte, n: nat): (c: Byte) {
    seq(8, k requires 0 <= k < 8 => n <= k && a[k - n])
  }

  /** `a >> n` for an unsigned byte. */
  function Shr(a: Byte, n: nat): (c: Byte) {
    seq(8, k requires 0 <= k < 8 => k + n < 8 && a[k + n])
  }

  /** The number that a sequence of binary digits, least significant first, stands for. */
  function Number(s: seq<bool>): nat {
    if s == [] then 0 else (if s[0] then 1 else 0) + 2 * Number(s[1..])
  }

  /** The low `w` binary digits of `n`. */
  function Digits(n: nat, w: nat): (s: seq<bool>)
    ensures |s| == w
  {
    if w == 0 then [] else [n % 2 == 1] + Digits(n / 2, w - 1)
  }

  function Pow2(w: nat): (p: nat)
    ensures 1 <= p
  {
    if w == 0 then 1 else 2 * Pow2(w - 1)
  }

  lemma {:induction false} NumberOfDigits(n: nat, w: nat)
    requires n < Pow2(w)
    ensures Number(Digits(n, w)) == n
  {
    if w == 0 {
    } else {
      NumberOfDigits(n / 2, w - 1);
      assert Digits(n, w)[1..] == Digits(n / 2, w - 1);
    }
  }

  lemma {:induction false} DigitsOfNumber(s: seq<bool>)
    ensures Number(s) < Pow2(|s|)
    ensures Digits(Number(s), |s|) == s
  {
    if s == [] {
    } else {
      DigitsOfNumber(s[1..]);
      assert Number(s) / 2 == Number(s[1..]);
      assert s == [s[0]] + s[1..];
    }
  }

  function Value(c: Byte): (n: nat)
    ensures n < 256
  {
    DigitsOfNumber(c);
    assert Pow2(8) == 256;
    Number(c)
  }

  /** The low byte of a number. */
  function ByteOf(n: nat): (c: Byte) {
    Digits(n % 256, 8)
  }

  lemma ValueOfByteOf(n: nat)
    ensures Value(ByteOf(n)) == n % 256
  {
    assert Pow2(8) == 256;
    NumberOfDigits(n % 256, 8);
  }

  /** Whether bit `i` of a packed bitmap is set. */
  predicate BitAt(s: seq<Byte>, i: nat)
    requires i < 8 * |s|
  {
    s[i / 8][i % 8]
  }
}
