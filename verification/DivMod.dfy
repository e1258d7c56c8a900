/** Division with a variable divisor, in the small steps the solver can take. */
module DivMod {

  lemma MulAtLeast(k: nat, d: int)
    requires d >= 1
    ensures k * d >= k
  {
    assert k * d == k * (d - 1) + k;
    assert k * (d - 1) >= 0;
  }

  lemma QuotientUnique(k: nat, q: int, r: int, q': int, r': int)
    requires 0 <= r < k && 0 <= r' < k && k * q + r == k * q' + r'
    ensures q == q' && r == r'
  {
    if q < q' {
      assert k * (q' - q) == k * q' - k * q;
      MulAtLeast(k, q' - q);
    } else if q' < q {
      assert k * (q - q') == k * q - k * q';
      MulAtLeast(k, q - q');
    }
  }

  lemma DivModOf(x: int, k: nat, q: int, r: int)
    requires 0 <= r < k && x == k * q + r
    ensures x / k == q && x % k == r
  {
    QuotientUnique(k, q, r, x / k, x % k);
  }

  /** Rounding up to the next multiple. */
  lemma RoundUp(k: nat, n: nat)
    requires n >= 1 && k % n != 0
    ensures (k + (n - k % n)) % n == 0
  {
    var q, r := k / n, k % n;
    assert n * (q + 1) == n * q + n;
    DivModOf(k + (n - r), n, q + 1, 0);
  }

  lemma NoMultipleBetween(k: nat, n: nat, m: nat)
    requires n >= 1 && k % n != 0 && m % n == 0 && m >= k
    ensures m >= k + (n - k % n)
  {
    var q, p := k / n, m / n;
    if p <= q {
      MulMonotone(n, p, q);
    } else {
      MulMonotone(n, q + 1, p);
      assert n * (q + 1) == n * q + n;
    }
  }

  lemma MulMonotone(n: nat, a: int, b: int)
    requires a <= b
    ensures n * a <= n * b
  {
    assert n * (b - a) == n * b - n * a;
  }

  /** Taking q whole multiples off a number takes q off its quotient. */
  lemma DivShift(x: int, k: nat, q: int)
    requires k > 0
    ensures (x - k * q) / k == x / k - q
  {
    assert k * (x / k - q) == k * (x / k) - k * q;
    DivModOf(x - k * q, k, x / k - q, x % k);
  }

  lemma DivMonotone(x: int, y: int, k: nat)
    requires k > 0 && x <= y
    ensures x / k <= y / k
  {
    assert k * (y / k + 1) == k * (y / k) + k;
    if y / k < x / k {
      MulMonotone(k, y / k + 1, x / k);
    }
  }
}
