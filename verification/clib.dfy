/** The C library behaviour both programs rely on: the range of rand() and
    the `%` operator on int, whose quotient truncates toward zero. */
module CLib {

  /** RAND_MAX of the C library the programs are built against (glibc). */
  const RAND_MAX: int := 2147483647

  /** One value returned by rand(). */
  predicate IsDraw(r: int) {
    0 <= r <= RAND_MAX
  }

  function IntAbs(n: int): nat { if n < 0 then -n else n }

  /** C's `a % b`: the remainder of the division truncated toward zero. It
      differs from `a` by a multiple of `b`, is smaller than `b` in magnitude,
      and takes the sign of `a` (three facts that determine it). */
  function CRem(a: int, b: int): (r: int)
    requires b != 0
    ensures (a - r) % IntAbs(b) == 0
    ensures IntAbs(r) < IntAbs(b)
    ensures a >= 0 ==> r >= 0
    ensures a <= 0 ==> r <= 0
  {
    var m := IntAbs(b);
    if a >= 0 then
      MultipleMod(a / m, m);
      assert a - a % m == (a / m) * m;
      a % m
    else
      MultipleMod(-((-a) / m), m);
      assert a + (-a) % m == (-((-a) / m)) * m;
      -((-a) % m)
  }

  /** A multiple of m leaves no Euclidean remainder. */
  lemma MultipleMod(k: int, m: int)
    requires m > 0
    ensures (k * m) % m == 0
  {
    var q, r := (k * m) / m, (k * m) % m;
    assert k * m == q * m + r && 0 <= r < m;
    assert r == (k - q) * m;
    MulBounds(k - q, m);
  }

  /** Euclidean division is unique: a remainder in [0, n) is the remainder. */
  lemma DivModUnique(a: int, n: int, q: int, r: int)
    requires n > 0 && 0 <= r < n && a == q * n + r
    ensures a % n == r
  {
    var q', r' := a / n, a % n;
    assert q' * n + r' == q * n + r;
    assert (q' - q) * n == r - r';
    MulBounds(q' - q, n);
  }

  lemma MulBounds(d: int, m: int)
    requires m > 0
    ensures d >= 1 ==> d * m >= m
    ensures d <= -1 ==> d * m <= -m
  {
  }

  /** On a non-negative dividend and a positive divisor, C's `%` and Dafny's
      Euclidean `%` agree. */
  lemma CRemNonNegative(a: int, b: int)
    requires a >= 0 && b > 0
    ensures CRem(a, b) == a % b
  {
  }
}
