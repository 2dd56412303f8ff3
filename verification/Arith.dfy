/** Division, remainder and rounding facts that the tiling, swizzling and
    alignment proofs share.  All integers are unbounded. */
module Arith {

  function Min(a: int, b: int): (r: int)
    ensures r <= a && r <= b && (r == a || r == b)
  {
    if a < b then a else b
  }

  function Max(a: int, b: int): (r: int)
    ensures r >= a && r >= b && (r == a || r == b)
  {
    if a > b then a else b
  }

  /** Ceiling division, written the way the sources write it. */
  function CeilDiv(a: nat, b: nat): nat
    requires b > 0
  {
    (a + b - 1) / b
  }

  lemma MulMono(a: int, b: int, c: int)
    requires a <= b && c >= 0
    ensures a * c <= b * c
  {
  }

  /** Quotient and remainder are determined by any decomposition of the right shape. */
  lemma DivModUnique(a: int, b: int, q: int, r: int)
    requires b > 0 && 0 <= r < b && a == q * b + r
    ensures a / b == q && a % b == r
  {
    var d, m := a / b, a % b;
    assert a == b * d + m;
    assert b * (d - q) == r - m;
    if d > q {
      MulMono(1, d - q, b);
    } else if d < q {
      MulMono(1, q - d, b);
    }
  }

  /** `CeilDiv(a, b)` is the least number of blocks of size `b` that cover `a`. */
  lemma CeilDivBounds(a: nat, b: nat)
    requires b > 0
    ensures CeilDiv(a, b) * b >= a
    ensures a > 0 ==> CeilDiv(a, b) >= 1 && (CeilDiv(a, b) - 1) * b < a
    ensures a == 0 ==> CeilDiv(a, b) == 0
  {
    var t := a + b - 1;
    var q, r := t / b, t % b;
    assert t == b * q + r;
    assert (q - 1) * b == q * b - b;
    if a == 0 {
      DivModUnique(t, b, 0, b - 1);
    }
  }

  /** More blocks are no larger. */
  lemma CeilDivFalls(a: nat, b: nat, c: nat)
    requires 1 <= b <= c
    ensures CeilDiv(a, c) <= CeilDiv(a, b)
  {
    CeilDivBounds(a, b);
    CeilDivBounds(a, c);
    var x, y := CeilDiv(a, b), CeilDiv(a, c);
    if y > x {
      MulMono(x, y - 1, c);
      MulMono(b, c, x);
    }
  }

  /** A position below `a` lies in one of the `CeilDiv(a, b)` blocks. */
  lemma BlockOf(i: nat, a: nat, b: nat)
    requires b > 0 && i < a
    ensures i / b < CeilDiv(a, b)
    ensures (i / b) * b <= i < (i / b) * b + b
  {
    var q, c := i / b, CeilDiv(a, b);
    assert i == q * b + i % b;
    assert c * b >= a by { CeilDivBounds(a, b); }
    if q >= c {
      MulMono(c, q, b);
    }
  }

  lemma Regroup(r: int, n: int, u: int, t: int)
    ensures r * (n * u + t) == u * (r * n) + t * r
  {
    assert r * (n * u + t) == r * (n * u) + r * t;
    assert r * (n * u) == u * (r * n);
  }

  /** Reading a number in mixed radix `(r, n)` is the same as reading it modulo `r * n`. */
  lemma ModOfPair(p: int, r: int, n: int)
    requires r > 0 && n > 0
    ensures r * n > 0
    ensures 0 <= ((p / r) % n) * r + p % r < r * n
    ensures p % (r * n) == ((p / r) % n) * r + p % r
  {
    var q, s := p / r, p % r;
    var u, t := q / n, q % n;
    assert p == r * q + s && q == n * u + t;
    assert t * r <= (n - 1) * r by { MulMono(t, n - 1, r); }
    assert (n - 1) * r == r * n - r;
    assert r * n > 0 by { MulMono(1, n, r); }
    Regroup(r, n, u, t);
    DivModUnique(p, r * n, u, t * r + s);
  }

  /** Two numbers of one window of length `len` with the same residue are equal. */
  lemma SameResidueInWindow(p: int, p': int, base: int, len: int)
    requires len > 0
    requires base <= p < base + len && base <= p' < base + len
    requires p % len == p' % len
    ensures p == p'
  {
    var q, q' := p / len, p' / len;
    assert p == len * q + p % len && p' == len * q' + p' % len;
    assert p - p' == len * (q - q');
    if q > q' {
      MulMono(1, q - q', len);
    } else if q < q' {
      MulMono(1, q' - q, len);
    }
  }

  /** The member of the window starting at `base` that has residue `c`. */
  lemma WindowMember(base: int, c: int, len: int)
    requires 0 <= c < len
    ensures base <= base + (c - base) % len < base + len
    ensures (base + (c - base) % len) % len == c
  {
    var d := (c - base) / len;
    assert c - base == len * d + (c - base) % len;
    assert base + (c - base) % len == (-d) * len + c;
    DivModUnique(base + (c - base) % len, len, -d, c);
  }

  /** `n` times `x`, as a repeated sum. */
  function Times(n: nat, x: real): real {
    if n == 0 then 0.0 else Times(n - 1, x) + x
  }

  lemma {:induction false} TimesIsProduct(n: nat, x: real)
    ensures Times(n, x) == n as real * x
  {
    if n > 0 {
      TimesIsProduct(n - 1, x);
      var r := (n - 1) as real;
      assert n as real == r + 1.0;
      assert (r + 1.0) * x == r * x + x;
    }
  }

  lemma {:induction false} TimesOfSum(n: nat, x: real, y: real)
    ensures Times(n, x + y) == Times(n, x) + Times(n, y)
  {
    if n > 0 {
      TimesOfSum(n - 1, x, y);
    }
  }

  lemma {:induction false} SumOfTimes(a: nat, b: nat, x: real)
    ensures Times(a + b, x) == Times(a, x) + Times(b, x)
  {
    if b > 0 {
      SumOfTimes(a, b - 1, x);
    }
  }
}
