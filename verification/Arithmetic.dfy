/** Division with remainder for arbitrary moduli, and fixed-size byte strings. */
module Arithmetic {
  import opened Wrappers

  lemma {:induction false} SmallMultiple(k: int, n: int)
    requires -n < k * n < n
    ensures k == 0
  {
    assert k >= 1 ==> (k - 1) * n >= 0;
    assert k <= -1 ==> (-k - 1) * n >= 0;
  }

  /** Quotient and remainder are determined by the number. */
  lemma {:induction false} QuotientUnique(a: int, q: int, r: int, n: int)
    requires a == q * n + r && 0 <= r < n
    ensures a / n == q && a % n == r
  {
    var q', r' := a / n, a % n;
    assert (q - q') * n == r' - r by {
      assert a == q' * n + r';
      assert (q - q') * n == q * n - q' * n;
    }
    SmallMultiple(q - q', n);
  }

  function Repeat(b: byte, n: nat): (r: Bytes)
    ensures |r| == n && forall i :: 0 <= i < n ==> r[i] == b
  {
    seq(n, _ => b)
  }

  function Zeros(n: nat): Bytes {
    Repeat(0, n)
  }

  /** Copying into a zeroed buffer of `n` bytes. */
  function Fit(b: Bytes, n: nat): (r: Bytes)
    ensures |r| == n
    ensures |b| == n ==> r == b
  {
    if |b| >= n then b[..n] else b + Zeros(n - |b|)
  }

  /** The number that bytes stand for, most significant byte first. */
  function FromBig(b: Bytes): nat {
    if |b| == 0 then 0 else 256 * FromBig(b[..|b| - 1]) + b[|b| - 1] as int
  }

  lemma {:induction false} FromBigAppend(b: Bytes, last: byte)
    ensures FromBig(b + [last]) == 256 * FromBig(b) + last
  {
    assert (b + [last])[..|b|] == b;
  }

  lemma {:induction false} FromBigTwo(hi: byte, lo: byte)
    ensures FromBig([hi, lo]) == (hi as int) * 256 + lo as int
  {
    FromBigAppend([], hi);
    FromBigAppend([hi], lo);
    assert [] + [hi] == [hi] && [hi] + [lo] == [hi, lo];
  }

  lemma {:induction false} DivideTwice(a: nat, n: nat)
    requires n > 0
    ensures a / n / 0x100 == a / (n * 0x100)
  {
    var q, v := a / n, a % n;
    var p, u := q / 0x100, q % 0x100;
    DividedTwice(p, u, v, n);
    QuotientUnique(a, p, u * n + v, n * 0x100);
  }

  lemma {:induction false} DividedTwice(p: nat, u: nat, v: nat, n: nat)
    requires u < 0x100 && v < n
    ensures (p * 0x100 + u) * n + v == p * (n * 0x100) + (u * n + v)
    ensures 0 <= u * n + v < n * 0x100
  {
    assert (0xff - u) * n >= 0;
    assert (0xff - u) * n == 0xff * n - u * n;
  }
}
