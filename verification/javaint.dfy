/** Java's 32-bit `int` arithmetic, written out over Dafny's unbounded integers. */
module JavaInt {

  const IntMin: int := -0x8000_0000
  const IntMax: int := 0x7FFF_FFFF
  const Modulus: int := 0x1_0000_0000

  predicate IsInt(x: int) { IntMin <= x <= IntMax }

  /** `Math.abs` on values that are not `Integer.MIN_VALUE`. */
  function IntAbs(x: int): (r: nat)
    ensures r == x || r == -x
  {
    if x < 0 then -x else x
  }

  /** The `int` that Java's two's-complement arithmetic yields for the mathematical value `x`. */
  function Wrap(x: int): (r: int)
    ensures IsInt(r)
    ensures (x - r) % Modulus == 0
    ensures IsInt(x) ==> r == x
  {
    var m := x % Modulus;
    if m > IntMax then m - Modulus else m
  }

  /** Wrapping a value that lies in [0, 2^33), the range of a doubled or quadrupled array length. */
  lemma WrapOfSmall(x: nat)
    requires x < 2 * Modulus
    ensures x <= IntMax ==> Wrap(x) == x
    ensures IntMax < x < Modulus ==> Wrap(x) == x - Modulus && Wrap(x) < 0
    ensures Modulus <= x <= Modulus + IntMax ==> Wrap(x) == x - Modulus && Wrap(x) >= 0
    ensures Modulus + IntMax < x ==> Wrap(x) == x - 2 * Modulus && Wrap(x) < 0
  {
    if x >= Modulus {
      assert x % Modulus == x - Modulus;
    }
  }

  /** `n / 2` on `int`s: Java's division truncates toward zero, so a negative odd `n` rounds up. */
  function Half(n: int): (r: int)
    ensures n >= 0 ==> r == n / 2
    ensures n < 0 ==> n <= 2 * r <= 0 && 2 * r - n <= 1
  {
    if n >= 0 then n / 2 else -((-n) / 2)
  }
}
