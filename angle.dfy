/**
 * Bearing wrap arithmetic of the BR24 plugin: MOD_ROTATION and MOD_ROTATION2048.
 *
 * The macros add two full rotations to a raw spoke index and take C's `%`,
 * which truncates toward zero (Dafny's `%` is Euclidean). The arithmetic is
 * done in a 32-bit `int`, where signed overflow is undefined behaviour.
 */
module AngleMath {

  /** Raw spokes per rotation the radar can generate (SPOKES). */
  const Spokes: int := 4096
  /** Lines per rotation used in practice (LINES_PER_ROTATION). */
  const LinesPerRotation: int := 2048
  /** Return values per spoke (RETURNS_PER_LINE). */
  const ReturnsPerLine: int := 512

  const IntMin: int := -0x8000_0000
  const IntMax: int := 0x7FFF_FFFF

  /** A C `int` on the plugin's platforms. */
  type Int32 = x: int | IntMin <= x <= IntMax

  /** C's `/` on a positive divisor: the quotient truncated toward zero. */
  function CDiv(a: int, n: int): (q: int)
    requires n > 0
    ensures a >= 0 ==> 0 <= q * n <= a
    ensures a <= 0 ==> a <= q * n <= 0
  {
    if a >= 0 then a / n else -((-a) / n)
  }

  /**
   * C's `%` on a positive divisor: the remainder takes the sign of the
   * dividend, and C's identity (a/n)*n + a%n == a holds.
   */
  function CRem(a: int, n: int): (r: int)
    requires n > 0
    ensures -n < r < n
    ensures CDiv(a, n) * n + r == a
    ensures a >= 0 ==> r >= 0
    ensures a <= 0 ==> r <= 0
  {
    if a >= 0 then a % n else -((-a) % n)
  }

  /** The two rotation sizes the header wraps bearings into. */
  predicate IsRotation(n: int)
  {
    n == Spokes || n == LinesPerRotation
  }

  /**
   * ((raw) + 2 * n) % n evaluated in C `int` arithmetic. The caller must keep
   * `raw + 2 * n` within `int`: beyond that C's behaviour is undefined.
   * The result is always congruent to `raw`; it lies in [0, n) whenever
   * `raw >= -2 * n`, and below that bound it is zero or negative.
   */
  function ModRotationN(raw: Int32, n: int): (r: Int32)
    requires IsRotation(n)
    requires raw + 2 * n <= IntMax
    ensures (r - raw) % n == 0
    ensures raw >= -2 * n ==> 0 <= r < n
    ensures raw < -2 * n ==> -n < r <= 0
  {
    CRem(raw + 2 * n, n)
  }

  /** MOD_ROTATION: wrap into [0, SPOKES). */
  function ModRotation(raw: Int32): (r: Int32)
    requires raw + 2 * Spokes <= IntMax
    ensures (r - raw) % Spokes == 0
    ensures raw >= -2 * Spokes ==> 0 <= r < Spokes
    ensures raw < -2 * Spokes ==> r <= 0
  {
    ModRotationN(raw, Spokes)
  }

  /** MOD_ROTATION2048: wrap into [0, LINES_PER_ROTATION). */
  function ModRotation2048(raw: Int32): (r: Int32)
    requires raw + 2 * LinesPerRotation <= IntMax
    ensures (r - raw) % LinesPerRotation == 0
    ensures raw >= -2 * LinesPerRotation ==> 0 <= r < LinesPerRotation
    ensures raw < -2 * LinesPerRotation ==> r <= 0
  {
    ModRotationN(raw, LinesPerRotation)
  }

  /** Within the safe range the wrap is the mathematical residue. */
  lemma ModRotationIsResidue(raw: Int32, n: int)
    requires IsRotation(n)
    requires -2 * n <= raw && raw + 2 * n <= IntMax
    ensures ModRotationN(raw, n) == raw % n
  {
  }

  /** Wrapping an already wrapped bearing changes nothing. */
  lemma ModRotationIdempotent(raw: Int32, n: int)
    requires IsRotation(n)
    requires -2 * n <= raw && raw + 2 * n <= IntMax
    ensures ModRotationN(ModRotationN(raw, n), n) == ModRotationN(raw, n)
  {
  }

  /** Two raw bearings a whole number of rotations apart wrap to the same line. */
  lemma ModRotationCongruent(a: Int32, b: Int32, n: int)
    requires IsRotation(n)
    requires -2 * n <= a && a + 2 * n <= IntMax
    requires -2 * n <= b && b + 2 * n <= IntMax
    requires (a - b) % n == 0
    ensures ModRotationN(a, n) == ModRotationN(b, n)
  {
    ModRotationIsResidue(a, n);
    ModRotationIsResidue(b, n);
  }

  /** The boundary cases named by the header's constants. */
  lemma ModRotationExamples()
    ensures ModRotation(Spokes) == 0
    ensures ModRotation(-1) == Spokes - 1
    ensures ModRotation(-2 * Spokes) == 0
    ensures ModRotation2048(LinesPerRotation) == 0
    ensures ModRotation2048(-1) == LinesPerRotation - 1
    ensures ModRotation2048(Spokes) == 0
  {
  }

  /**
   * Below -2 * n the macro can leave the rotation: C's truncating `%` yields a
   * negative index, so `raw >= -2 * n` is a real precondition of its callers.
   * A whole multiple of the rotation still wraps to 0.
   */
  lemma ModRotationNegativeBelowBound()
    ensures ModRotation(-2 * Spokes - 1) == -1
    ensures ModRotation2048(-2 * LinesPerRotation - 1) == -1
    ensures ModRotation(-3 * Spokes) == 0
    ensures ModRotation2048(-3 * LinesPerRotation) == 0
  {
  }
}
