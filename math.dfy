/** `modulo`: a true modulo built from Swift's `%`, which is a remainder that
    truncates toward zero (its sign follows the dividend). */
module Math {

  function Abs(x: int): (r: nat)
    ensures r == x || r == -x
  {
    if x < 0 then -x else x
  }

  /** Swift's `value % modulus` on `Int`: the remainder of division
      truncated toward zero; a zero modulus traps. */
  function Remainder(value: int, modulus: int): (r: int)
    requires modulus != 0
    ensures (value - r) % modulus == 0
    ensures 0 <= value ==> 0 <= r < Abs(modulus)
    ensures value < 0 ==> -(Abs(modulus) as int) < r <= 0
  {
    var n := Abs(modulus);
    var r := if 0 <= value then value % n else -((-value) % n);
    var q := if 0 <= value then value / n else -((-value) / n);
    assert value - r == q * n;
    var k := if 0 < modulus then q else -q;
    assert q * n == k * modulus;
    MultipleMod(k, modulus);
    r
  }

  /** `modulo(_:_:)`: a negative remainder has the modulus added to it. */
  function Modulo(value: int, modulus: int): (r: int)
    requires modulus != 0
    ensures (r - value) % modulus == 0
    ensures 0 < modulus ==> 0 <= r < modulus
  {
    var remainder := Remainder(value, modulus);
    NegateAndShift(value - remainder, modulus);
    assert remainder + modulus - value == modulus - (value - remainder);
    if remainder >= 0 then remainder else remainder + modulus
  }

  // ---------------------------------------------------------------------------
  // Properties

  /** For a positive modulus `modulo` is the Euclidean modulus (Dafny's own
      `%`), which is what the function is named for. */
  lemma ModuloIsEuclidean(value: int, modulus: int)
    requires 0 < modulus
    ensures Modulo(value, modulus) == value % modulus
  {
    var r, s := Modulo(value, modulus), value % modulus;
    var a, b := (r - value) / modulus, value / modulus;
    assert r - value == a * modulus;
    assert value - s == b * modulus;
    assert r - s == a * modulus + b * modulus == (a + b) * modulus;
    UniqueResidue(r, s, modulus, a + b);
  }

  /** Values a multiple of the modulus apart have the same `modulo`. */
  lemma ModuloPeriodic(value: int, k: int, modulus: int)
    requires 0 < modulus
    ensures Modulo(value + k * modulus, modulus) == Modulo(value, modulus)
  {
    ModuloIsEuclidean(value, modulus);
    ModuloIsEuclidean(value + k * modulus, modulus);
    ShiftResidue(value, k, modulus);
  }

  /** A non-negative value keeps Swift's remainder; only a negative
      remainder is changed. */
  lemma ModuloOfNonNegative(value: int, modulus: int)
    requires modulus != 0 && 0 <= value
    ensures Modulo(value, modulus) == Remainder(value, modulus)
  {
  }

  /** With a negative modulus a negative remainder is moved further from
      zero, into `(2 * modulus, modulus)`, so the result is not a residue in
      `[0, |modulus|)`. */
  lemma NegativeModulus(value: int, modulus: int)
    requires modulus < 0 && Remainder(value, modulus) < 0
    ensures 2 * modulus < Modulo(value, modulus) < modulus
  {
  }

  /** The cases the source documents: Swift's `-1 % 5` is `-1`, the true
      modulo is `4`; and `(146 - 76 - 139) % 146` is `-69` where `77` is
      wanted. */
  lemma DocumentedExamples()
    ensures Remainder(-1, 5) == -1 && Modulo(-1, 5) == 4
    ensures Remainder(146 - 76 - 139, 146) == -69 && Modulo(146 - 76 - 139, 146) == 77
  {
  }

  // ---------------------------------------------------------------------------
  // Arithmetic helpers

  /** A non-zero multiple is at least as far from zero as the modulus. */
  lemma NonZeroMultiple(d: int, m: int)
    ensures 1 <= d && 0 < m ==> m <= d * m
    ensures d <= -1 && 0 < m ==> d * m <= -m
    ensures 1 <= d && m < 0 ==> d * m <= m
    ensures d <= -1 && m < 0 ==> -m <= d * m
  {
    if 1 <= d {
      assert d * m - m == (d - 1) * m;
    } else if d <= -1 {
      assert d * m + m == (d + 1) * m;
    }
  }

  /** A multiple of `m` leaves no remainder. */
  lemma MultipleMod(q: int, m: int)
    requires m != 0
    ensures (q * m) % m == 0
  {
    var k, r := (q * m) / m, (q * m) % m;
    assert q * m == k * m + r;
    assert r == (q - k) * m;
    NonZeroMultiple(q - k, m);
  }

  /** Negating a multiple, or subtracting it from the modulus, gives a
      multiple. */
  lemma NegateAndShift(x: int, m: int)
    requires m != 0 && x % m == 0
    ensures (-x) % m == 0 && (m - x) % m == 0
  {
    var q := x / m;
    assert x == q * m;
    assert -x == (-q) * m;
    MultipleMod(-q, m);
    assert m - x == (1 - q) * m;
    MultipleMod(1 - q, m);
  }

  /** Adding a multiple of `m` keeps the Euclidean residue. */
  lemma ShiftResidue(value: int, k: int, m: int)
    requires 0 < m
    ensures (value + k * m) % m == value % m
  {
    var v := value + k * m;
    var a, b := v / m, value / m;
    var r, s := v % m, value % m;
    assert v == a * m + r;
    assert value == b * m + s;
    Distribute(k, a, b, m);
    UniqueResidue(r, s, m, k - a + b);
  }

  lemma Distribute(x: int, y: int, z: int, m: int)
    ensures x * m - y * m + z * m == (x - y + z) * m
  {
  }

  /** Two residues in `[0, m)` that differ by a multiple of `m` are equal. */
  lemma UniqueResidue(r: int, s: int, m: int, d: int)
    requires 0 < m && 0 <= r < m && 0 <= s < m && r - s == d * m
    ensures r == s
  {
    NonZeroMultiple(d, m);
  }
}
