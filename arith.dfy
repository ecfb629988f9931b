/** Facts about natural-number multiplication and floor division used by the sharding proofs. */
module NatArith {

  /** Python's `n // d` on natural numbers (Dafny's `/` agrees with it there). */
  function FloorDiv(n: nat, d: nat): nat
    requires 0 < d
  {
    n / d
  }

  lemma MulMono(a: nat, b: nat, c: nat)
    requires a <= b
    ensures a * c <= b * c
  {
  }

  lemma MulStrict(a: nat, b: nat, c: nat)
    requires a < b && 0 < c
    ensures a * c < b * c
  {
    MulMono(a + 1, b, c);
  }

  lemma MulSucc(m: nat, b: nat)
    ensures (m + 1) * b == m * b + b
  {
  }

  /** `n` divided exactly by `d` is recovered by multiplying back. */
  lemma DivExact(n: nat, d: nat)
    requires 0 < d && n % d == 0
    ensures d * (n / d) == n
  {
  }

  /** `x / b` is the one `r` whose block `[r*b, (r+1)*b)` holds `x`. */
  lemma DivOwner(x: nat, b: nat, r: nat)
    requires 0 < b
    ensures r * b <= x < (r + 1) * b <==> r == x / b
  {
    var q := x / b;
    assert q * b <= x < (q + 1) * b;
    if r * b <= x < (r + 1) * b && r != q {
      if r < q {
        MulMono(r + 1, q, b);
      } else {
        MulMono(q + 1, r, b);
      }
    }
  }

  /** A multiple of `d`, divided by `d`, gives back its factor. */
  lemma DivOfMultiple(d: nat, j: nat)
    requires 0 < d
    ensures (d * j) / d == j && (d * j) % d == 0
  {
    assert j * d <= d * j < (j + 1) * d;
    DivOwner(d * j, d, j);
  }

  /** A multiple of `d` times anything is still a multiple of `d`. */
  lemma MulKeepsMultiple(n: nat, m: nat, d: nat)
    requires 0 < d && n % d == 0
    ensures (n * m) % d == 0 && (n * m) / d == (n / d) * m
  {
    var k := n / d;
    DivExact(n, d);
    assert n * m == d * (k * m);
    DivOfMultiple(d, k * m);
  }

  /**
   * When `n` is not a multiple of `d` but `n * h` is, dividing the product
   * differs from multiplying the rounded-down quotient back.
   */
  lemma DivOfProductLosesRemainder(n: nat, h: nat, d: nat)
    requires 0 < d && 0 < h && n % d != 0 && (n * h) % d == 0
    ensures (n * h) / d != (n / d) * h
  {
    var q, rem := n / d, n % d;
    assert n == d * q + rem;
    assert n * h == d * (q * h) + rem * h by {
      assert n * h == (d * q + rem) * h;
    }
    assert 0 < rem * h by {
      MulMono(1, rem, h);
    }
    DivExact(n * h, d);
  }
}
