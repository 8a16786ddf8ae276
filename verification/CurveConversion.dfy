/** Edwards-to-Montgomery conversion of public keys: u = (1 + y) / (1 - y) modulo 2^255 - 19. */
module CurveConversion {
  import opened Wrappers
  import opened Arithmetic

  const P: int := 57896044618658097711785492504343953926634992332820282019728792003956564819949
  const TWO_255: int := 0x8000_0000_0000_0000_0000_0000_0000_0000_0000_0000_0000_0000_0000_0000_0000_0000

  // ---------- numbers as byte strings ----------

  function FromLittle(b: Bytes): nat {
    if |b| == 0 then 0 else (b[0] as int) + 256 * FromLittle(b[1..])
  }

  /** The shortest big-endian form. */
  function ToBig(n: nat): Bytes {
    if n == 0 then [] else ToBig(n / 256) + [n % 256]
  }

  function Reverse(b: Bytes): (r: Bytes)
    ensures |r| == |b| && forall i :: 0 <= i < |b| ==> r[i] == b[|b| - 1 - i]
  {
    seq(|b|, i requires 0 <= i < |b| => b[|b| - 1 - i])
  }

  function Power256(k: nat): (r: int)
    ensures r > 0
  {
    if k == 0 then 1 else 256 * Power256(k - 1)
  }

  lemma {:induction false} LittleOfReverse(b: Bytes)
    ensures FromLittle(Reverse(b)) == FromBig(b)
  {
    if |b| > 0 {
      LittleOfReverse(b[..|b| - 1]);
      assert Reverse(b)[1..] == Reverse(b[..|b| - 1]);
    }
  }

  lemma {:induction false} LittleOfZeros(n: nat)
    ensures FromLittle(Zeros(n)) == 0
  {
    if n > 0 {
      LittleOfZeros(n - 1);
      assert Zeros(n)[1..] == Zeros(n - 1);
    }
  }

  lemma {:induction false} LittleOfConcat(a: Bytes, b: Bytes)
    ensures FromLittle(a + b) == FromLittle(a) + Power256(|a|) * FromLittle(b)
  {
    if |a| == 0 {
      assert a + b == b;
    } else {
      LittleOfConcat(a[1..], b);
      assert (a + b)[1..] == a[1..] + b;
      var x, k := FromLittle(b), Power256(|a| - 1);
      assert 256 * (k * x) == (256 * k) * x;
    }
  }

  lemma {:induction false} LittleBelow(b: Bytes)
    ensures FromLittle(b) < Power256(|b|)
  {
    if |b| > 0 {
      LittleBelow(b[1..]);
    }
  }

  /** Byte strings of one length are told apart by the numbers they stand for. */
  lemma {:induction false} LittleInjective(a: Bytes, b: Bytes)
    requires |a| == |b| && FromLittle(a) == FromLittle(b)
    ensures a == b
  {
    if |a| > 0 {
      LittleInjective(a[1..], b[1..]);
      assert a == [a[0]] + a[1..] && b == [b[0]] + b[1..];
    }
  }

  lemma {:induction false} BigOfToBig(n: nat, k: nat)
    requires n < Power256(k)
    ensures FromBig(ToBig(n)) == n && |ToBig(n)| <= k
  {
    if n > 0 {
      BigOfToBig(n / 256, k - 1);
      assert ToBig(n)[..|ToBig(n)| - 1] == ToBig(n / 256);
    }
  }

  lemma {:induction false} Powers()
    ensures Power256(31) * 128 == TWO_255 && Power256(32) == 2 * TWO_255
  {
    assert Power256(8) == 0x1_0000_0000_0000_0000;
    assert Power256(16) == 0x1_0000_0000_0000_0000_0000_0000_0000_0000;
    assert Power256(24) == 0x1_0000_0000_0000_0000_0000_0000_0000_0000_0000_0000_0000_0000;
  }

  // ---------- arithmetic modulo n ----------

  /** `a` and `b` differ by `k` times `n`. */
  ghost predicate Apart(a: int, b: int, k: int, n: int) {
    a == b + k * n
  }

  ghost predicate Congruent(a: int, b: int, n: int) {
    exists k: int :: Apart(a, b, k, n)
  }

  ghost predicate Invertible(a: int, n: int) {
    exists x: int :: Congruent(a * x, 1, n)
  }

  lemma {:induction false} CongruentFromMultiple(a: int, b: int, k: int, n: int)
    requires a == b + k * n
    ensures Congruent(a, b, n)
  {
    assert Apart(a, b, k, n);
  }

  lemma {:induction false} MultipleFromCongruent(a: int, b: int, n: int) returns (k: int)
    requires Congruent(a, b, n)
    ensures a == b + k * n
  {
    k :| Apart(a, b, k, n);
  }

  lemma {:induction false} CongruentTimes(a: int, b: int, c: int, n: int)
    requires Congruent(a, b, n)
    ensures Congruent(a * c, b * c, n)
  {
    hide Congruent;
    var k := MultipleFromCongruent(a, b, n);
    assert a * c == b * c + (k * c) * n by {
      assert (b + k * n) * c == b * c + (k * n) * c;
      assert (k * n) * c == (k * c) * n;
    }
    CongruentFromMultiple(a * c, b * c, k * c, n);
  }

  lemma {:induction false} CongruentBack(a: int, b: int, n: int)
    requires Congruent(a, b, n)
    ensures Congruent(b, a, n)
  {
    hide Congruent;
    var k := MultipleFromCongruent(a, b, n);
    assert (-k) * n == -(k * n);
    CongruentFromMultiple(b, a, -k, n);
  }

  lemma {:induction false} CongruentThrough(a: int, b: int, c: int, n: int)
    requires Congruent(a, b, n) && Congruent(b, c, n)
    ensures Congruent(a, c, n)
  {
    hide Congruent;
    var k := MultipleFromCongruent(a, b, n);
    var l := MultipleFromCongruent(b, c, n);
    assert (k + l) * n == k * n + l * n;
    CongruentFromMultiple(a, c, k + l, n);
  }

  lemma {:induction false} RemainderIsCongruent(a: int, n: int)
    requires n > 0
    ensures Congruent(a % n, a, n)
  {
    hide Congruent;
    assert a == (a / n) * n + a % n;
    assert (-(a / n)) * n == -((a / n) * n);
    CongruentFromMultiple(a % n, a, -(a / n), n);
  }

  lemma {:induction false} SmallCongruent(u: int, v: int, n: int)
    requires 0 <= u < n && 0 <= v < n && Congruent(u, v, n)
    ensures u == v
  {
    var k := MultipleFromCongruent(u, v, n);
    SmallMultiple(k, n);
  }

  // ---------- modular inverse ----------

  /** A greatest common divisor d = a * s + b * t with the cofactors a = d * ca and b = d * cb. */
  datatype Bezout = Bezout(d: int, s: int, t: int, ca: int, cb: int) {
    predicate For(a: int, b: int) {
      d > 0 && a == d * ca && b == d * cb && d == a * s + b * t
    }
  }

  function Euclid(a: nat, b: nat): (r: Bezout)
    requires a > 0 || b > 0
    ensures r.For(a, b)
    decreases b
  {
    if b == 0 then Bezout(a, 1, 0, 1, 0)
    else
      var e := Euclid(b, a % b);
      var q := a / b;
      EuclidStep(a, b, q, a % b, e);
      Bezout(e.d, e.t, e.s - q * e.t, q * e.ca + e.cb, e.ca)
  }

  lemma {:induction false} EuclidStep(a: int, b: int, q: int, r: int, e: Bezout)
    requires a == q * b + r && e.For(b, r)
    ensures Bezout(e.d, e.t, e.s - q * e.t, q * e.ca + e.cb, e.ca).For(a, b)
  {
    assert e.d * (q * e.ca + e.cb) == q * (e.d * e.ca) + e.d * e.cb;
    assert a * e.t == (q * b) * e.t + r * e.t by { assert (q * b + r) * e.t == (q * b) * e.t + r * e.t; }
    assert b * (e.s - q * e.t) == b * e.s - (q * b) * e.t by { assert b * (q * e.t) == (q * b) * e.t; }
  }

  function ModInverse(g: int, n: nat): (x: Option<nat>)
    requires n > 1
  {
    var e := Euclid(g % n, n);
    if e.d == 1 then Some(e.s % n) else None
  }

  /** The inverse is found whenever there is one. */
  lemma {:induction false} ModInverseIs(g: int, n: nat)
    requires n > 1
    ensures ModInverse(g, n).Some? <==> Invertible(g, n)
    ensures ModInverse(g, n).Some? ==> ModInverse(g, n).value < n && Congruent(g * ModInverse(g, n).value, 1, n)
  {
    var e, q := Euclid(g % n, n), g / n;
    if e.d == 1 {
      InverseWorks(g, n, q, e);
    } else if x: int :| Congruent(g * x, 1, n) {
      var k := MultipleFromCongruent(g * x, 1, n);
      NoInverse(g, n, q, e, x, k);
    }
  }

  lemma {:induction false} InverseWorks(g: int, n: nat, q: int, e: Bezout)
    requires n > 1 && e.d == 1 && e.For(g - q * n, n)
    ensures Congruent(g * (e.s % n), 1, n)
  {
    var c, x := e.s / n, e.s % n;
    Shifted(g, q, n, e.s);
    Split(g, c, n, x);
    Gathered(q * e.s, e.t, g * c, n);
    CongruentFromMultiple(g * x, 1, q * e.s - e.t - g * c, n);
  }

  lemma {:induction false} Shifted(g: int, q: int, n: int, s: int)
    ensures (g - q * n) * s == g * s - (q * s) * n
  {
  }

  lemma {:induction false} Split(g: int, c: int, n: int, x: int)
    ensures g * (c * n + x) == (g * c) * n + g * x
  {
  }

  lemma {:induction false} Gathered(a: int, b: int, c: int, n: int)
    ensures (a - b - c) * n == a * n - n * b - c * n
  {
  }

  lemma {:induction false} NoInverse(g: int, n: nat, q: int, e: Bezout, x: int, k: int)
    requires e.For(g - q * n, n) && g * x == 1 + k * n
    ensures e.d == 1
  {
    var d, m := e.d, e.ca * x + (q * x) * e.cb - k * e.cb;
    assert d * m == 1 by {
      assert d * m == (d * e.ca) * x + (q * x) * (d * e.cb) - k * (d * e.cb) by {
        assert d * (e.ca * x) == (d * e.ca) * x;
        assert d * ((q * x) * e.cb) == (q * x) * (d * e.cb);
        assert d * (k * e.cb) == k * (d * e.cb);
        assert d * m == d * (e.ca * x) + d * ((q * x) * e.cb) - d * (k * e.cb);
      }
      assert (g - q * n) * x == g * x - (q * x) * n;
    }
    ProductIsOne(d, m);
  }

  lemma {:induction false} ProductIsOne(d: int, m: int)
    requires d > 0 && d * m == 1
    ensures d == 1
  {
    assert m > 0;
    assert (d - 1) * m == 1 - m && (d - 1) * m >= 0;
  }

  // ---------- the conversion ----------

  /** The y-coordinate in an Ed25519 key: little-endian, without the sign bit of x. */
  function YOf(pk: Bytes): nat {
    FromLittle(pk) % TWO_255
  }

  function Remainder(a: int, n: int): (r: nat)
    requires n > 0
    ensures r < n
  {
    a % n
  }

  /** `u` is the Montgomery coordinate for `y`: the quotient where there is one. */
  ghost predicate IsMontgomery(y: int, u: int) {
    && 0 <= u < P
    && if Invertible(1 - y, P) then Congruent(u * (1 - y), 1 + y, P) else Congruent(u, (1 + y) * (1 - y), P)
  }

  /** Reads the y-coordinate through a big-endian buffer; a key over 32 bytes indexes out of range. */
  method ReadY(pk: Bytes) returns (r: Result<nat>)
    ensures r == if |pk| > 32 then Err(IndexPanic) else Ok(YOf(pk))
  {
    hide FromLittle, FromBig, YOf;
    var bigEndianY := new byte[32](_ => 0);
    for i := 0 to |pk|
      invariant i <= 32
      invariant forall j :: 32 - i <= j < 32 ==> bigEndianY[j] == pk[31 - j]
      invariant forall j :: 0 <= j < 32 - i ==> bigEndianY[j] == 0
    {
      if i >= 32 {
        return Err(IndexPanic);
      }
      bigEndianY[31 - i] := pk[i];
    }
    ghost var plain := bigEndianY[..];
    bigEndianY[0] := bigEndianY[0] % 128;
    assert bigEndianY[..] == [plain[0] % 128] + plain[1..];
    MaskedIsY(pk, plain);
    r := Ok(FromBig(bigEndianY[..]));
  }

  /** Writes a number into 32 little-endian bytes. */
  method WriteU(u: nat) returns (bytes: Bytes)
    requires u < P
    ensures |bytes| == 32 && FromLittle(bytes) == u
  {
    hide FromLittle, FromBig, ToBig;
    var out := new byte[32](_ => 0);
    var uBytes := ToBig(u);
    Powers();
    BigOfToBig(u, 32);
    for i := 0 to |uBytes|
      invariant forall j :: |uBytes| - i <= j < |uBytes| ==> out[j] == uBytes[|uBytes| - 1 - j]
      invariant forall j :: |uBytes| <= j < 32 ==> out[j] == 0
    {
      out[|uBytes| - i - 1] := uBytes[i];
    }
    bytes := out[..];
    assert bytes == Reverse(uBytes) + Zeros(32 - |uBytes|);
    LittleOfPadded(Reverse(uBytes), 32 - |uBytes|);
    LittleOfReverse(uBytes);
  }

  /**
   * Keys of at most 32 bytes are converted; a longer one indexes out of range.
   * Without an inverse the library leaves its operand 1 - y in place.
   */
  method PublicKeyToCurve25519(pk: Bytes) returns (r: Result<Bytes>)
    ensures |pk| > 32 ==> r == Err(IndexPanic)
    ensures |pk| <= 32 ==> r.Ok? && |r.value| == 32 && IsMontgomery(YOf(pk), FromLittle(r.value))
  {
    hide FromLittle, YOf, ModInverse, IsMontgomery;
    var y := ReadY(pk);
    if y.Err? {
      return Err(IndexPanic);
    }
    var v: int := y.value;
    var inverse := ModInverse(1 - v, P);
    var denom := if inverse.Some? then inverse.value else 1 - v;
    var u := Remainder((v + 1) * denom, P);
    QuotientIsMontgomery(v, u);
    var out := WriteU(u);
    r := Ok(out);
  }

  lemma {:induction false} LittleOfPadded(b: Bytes, n: nat)
    ensures FromLittle(b + Zeros(n)) == FromLittle(b)
  {
    LittleOfConcat(b, Zeros(n));
    LittleOfZeros(n);
  }

  /** Clearing the top bit of the big-endian buffer leaves the y-coordinate. */
  lemma {:induction false} MaskedIsY(pk: Bytes, big: Bytes)
    requires |pk| <= 32 && |big| == 32
    requires forall j :: 0 <= j < 32 ==> big[j] == if 31 - j < |pk| then pk[31 - j] else 0
    ensures FromBig([big[0] % 128] + big[1..]) == YOf(pk)
  {
    hide FromLittle, FromBig;
    var low, top := Reverse(big[1..]), big[0];
    var masked := [top % 128] + big[1..];
    assert pk + Zeros(32 - |pk|) == low + [top];
    LittleOfPadded(pk, 32 - |pk|);
    assert Reverse(masked) == low + [top % 128];
    LittleOfReverse(masked);
    LittleOfConcat(low, [top]);
    LittleOfConcat(low, [top % 128]);
    LittleOfByte(top);
    LittleOfByte(top % 128);
    LittleBelow(low);
    Powers();
    DropTopBit(FromLittle(low), top, Power256(31));
  }

  lemma {:induction false} Spread(k: int, q: int, r: int)
    requires k > 0 && 0 <= r < 128
    ensures k * (128 * q + r) == q * (k * 128) + k * r && 0 <= k * r <= k * 127
  {
    assert k * (127 - r) >= 0;
  }

  lemma {:induction false} DropTopBit(low: int, top: int, k: int)
    requires 0 <= low < k && 0 <= top
    ensures (low + k * top) % (k * 128) == low + k * (top % 128)
  {
    var q, r := top / 128, top % 128;
    Spread(k, q, r);
    assert top == 128 * q + r;
    QuotientUnique(low + k * top, q, low + k * r, k * 128);
  }

  lemma {:induction false} LittleOfByte(b: byte)
    ensures FromLittle([b]) == b
  {
    assert [b][1..] == [];
  }

  lemma {:induction false} QuotientIsMontgomery(y: int, u: int)
    requires var x := ModInverse(1 - y, P); u == Remainder((y + 1) * (if x.Some? then x.value else 1 - y), P)
    ensures IsMontgomery(y, u)
  {
    hide Congruent, Invertible, ModInverse;
    ModInverseIs(1 - y, P);
    if Invertible(1 - y, P) {
      DivideByInverse(1 - y, 1 + y, ModInverse(1 - y, P).value, P);
    } else {
      RemainderIsCongruent((1 + y) * (1 - y), P);
    }
  }

  lemma {:induction false} DivideByInverse(a: int, b: int, x: int, n: int)
    requires n > 0 && Congruent(a * x, 1, n)
    ensures Congruent(Remainder(b * x, n) * a, b, n)
  {
    hide Congruent;
    RemainderIsCongruent(b * x, n);
    CongruentTimes((b * x) % n, b * x, a, n);
    CongruentTimes(a * x, 1, b, n);
    assert (b * x) * a == (a * x) * b;
    CongruentThrough(((b * x) % n) * a, (b * x) * a, b, n);
  }

  // ---------- what the conversion promises ----------

  /** There is one Montgomery coordinate for every y. */
  lemma {:induction false} MontgomeryUnique(y: int, u: int, v: int)
    requires IsMontgomery(y, u) && IsMontgomery(y, v)
    ensures u == v
  {
    hide Congruent;
    if Invertible(1 - y, P) {
      var x: int :| Congruent((1 - y) * x, 1, P);
      CongruentBack(v * (1 - y), 1 + y, P);
      CongruentThrough(u * (1 - y), 1 + y, v * (1 - y), P);
      CancelTimes(1 - y, x, u, v, P);
    } else {
      CongruentBack(v, (1 + y) * (1 - y), P);
      CongruentThrough(u, (1 + y) * (1 - y), v, P);
    }
    SmallCongruent(u, v, P);
  }

  lemma {:induction false} CancelTimes(a: int, x: int, u: int, v: int, n: int)
    requires Congruent(a * x, 1, n) && Congruent(u * a, v * a, n)
    ensures Congruent(u, v, n)
  {
    hide Congruent;
    CongruentTimes(u * a, v * a, x, n);
    CongruentTimes(a * x, 1, u, n);
    CongruentTimes(a * x, 1, v, n);
    assert (u * a) * x == (a * x) * u && (v * a) * x == (a * x) * v;
    CongruentBack((u * a) * x, u, n);
    CongruentThrough(u, (u * a) * x, (v * a) * x, n);
    CongruentThrough(u, (v * a) * x, v, n);
  }

  /** The quotient (1 + y) / (1 - y) determines y modulo any odd number. */
  lemma {:induction false} QuotientInjective(y: int, z: int, u: int, n: int)
    requires n > 0 && n % 2 == 1
    requires Congruent(u * (1 - y), 1 + y, n) && Congruent(u * (1 - z), 1 + z, n)
    ensures Congruent(y, z, n)
  {
    hide Congruent;
    CongruentTimes(u * (1 - y), 1 + y, 1 - z, n);
    CongruentTimes(u * (1 - z), 1 + z, 1 - y, n);
    assert (u * (1 - y)) * (1 - z) == (u * (1 - z)) * (1 - y);
    CongruentBack((u * (1 - y)) * (1 - z), (1 + y) * (1 - z), n);
    CongruentThrough((1 + y) * (1 - z), (u * (1 - y)) * (1 - z), (1 + z) * (1 - y), n);
    var k := MultipleFromCongruent((1 + y) * (1 - z), (1 + z) * (1 - y), n);
    assert (1 + y) * (1 - z) == 1 + y - z - y * z;
    assert (1 + z) * (1 - y) == 1 + z - y - y * z;
    assert 2 * (y - z) == k * n;
    var h := n / 2;
    assert k * n == 2 * (k * h) + k by { assert k * (2 * h + 1) == 2 * (k * h) + k; }
    assert k == 2 * (y - z - k * h);
    assert 2 * (y - z) == 2 * ((y - z - k * h) * n) by {
      assert (2 * (y - z - k * h)) * n == 2 * ((y - z - k * h) * n);
    }
    CongruentFromMultiple(y, z, y - z - k * h, n);
  }

  lemma {:induction false} QuotientOfCongruent(y: int, z: int, u: int, n: int)
    requires n > 0 && Congruent(y, z, n) && Congruent(u * (1 - y), 1 + y, n)
    ensures Congruent(u * (1 - z), 1 + z, n)
  {
    hide Congruent;
    var k := MultipleFromCongruent(y, z, n);
    CongruentFromMultiple(1 - z, 1 - y, k, n);
    CongruentTimes(1 - z, 1 - y, u, n);
    CongruentFromMultiple(1 + y, 1 + z, k, n);
    CongruentThrough((1 - z) * u, (1 - y) * u, 1 + y, n);
    CongruentThrough((1 - z) * u, 1 + y, 1 + z, n);
  }

  /** Two convertible keys have equal outputs if and only if their y-coordinates are congruent. */
  lemma {:induction false} EqualOutputsIff(pk: Bytes, pk': Bytes, out: Bytes, out': Bytes)
    requires |out| == 32 && IsMontgomery(YOf(pk), FromLittle(out)) && Invertible(1 - YOf(pk), P)
    requires |out'| == 32 && IsMontgomery(YOf(pk'), FromLittle(out')) && Invertible(1 - YOf(pk'), P)
    ensures out == out' <==> Congruent(YOf(pk), YOf(pk'), P)
  {
    hide FromLittle, YOf, Congruent, Invertible;
    var y, z, u := YOf(pk), YOf(pk'), FromLittle(out);
    if out == out' {
      QuotientInjective(y, z, u, P);
    }
    if Congruent(y, z, P) {
      QuotientOfCongruent(y, z, u, P);
      MontgomeryUnique(z, u, FromLittle(out'));
      LittleInjective(out, out');
    }
  }

  /** The two encodings of y = 1 have no quotient and are converted to zero. */
  lemma {:induction false} OneGoesToZero(pk: Bytes, u: int)
    requires IsMontgomery(YOf(pk), u)
    ensures Congruent(YOf(pk), 1, P) <==> YOf(pk) == 1 || YOf(pk) == P + 1
    ensures Congruent(YOf(pk), 1, P) ==> !Invertible(1 - YOf(pk), P) && u == 0
  {
    hide FromLittle, Invertible, Congruent;
    var y := YOf(pk);
    if Congruent(y, 1, P) {
      var k := MultipleFromCongruent(y, 1, P);
      NotInvertible(y, k);
      assert (1 + y) * (1 - y) == 0 + ((1 + y) * (-k)) * P by { assert (1 + y) * ((-k) * P) == ((1 + y) * (-k)) * P; }
      CongruentFromMultiple((1 + y) * (1 - y), 0, (1 + y) * (-k), P);
      CongruentThrough(u, (1 + y) * (1 - y), 0, P);
      SmallCongruent(u, 0, P);
    }
    if y == 1 || y == P + 1 {
      CongruentFromMultiple(y, 1, if y == 1 then 0 else 1, P);
    }
  }

  lemma {:induction false} NotInvertible(y: int, k: int)
    requires y == 1 + k * P
    ensures !Invertible(1 - y, P)
  {
    hide Congruent;
    if Invertible(1 - y, P) {
      var x: int :| Congruent((1 - y) * x, 1, P);
      var l := MultipleFromCongruent((1 - y) * x, 1, P);
      NeverOne(1 - y, -k, x, l, P);
    }
  }

  /** A multiple of a multiple of `n` is not one more than a multiple of `n`. */
  lemma {:induction false} NeverOne(a: int, k: int, x: int, l: int, n: int)
    requires n > 1 && a == k * n
    ensures a * x != 1 + l * n
  {
    assert a * x == (k * x) * n;
    assert (k * x) * n - l * n == (k * x - l) * n;
    NotOne(k * x - l, n);
  }

  lemma {:induction false} NotOne(m: int, n: int)
    requires n > 1
    ensures m * n != 1
  {
    assert m >= 1 ==> m * n >= n;
    assert m <= 0 ==> m * n <= 0;
  }
}
