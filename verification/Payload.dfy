/** Authenticated encryption of a plaintext: PKCS#7, CBC over a block permutation, a MAC over the associated data. */
module Payload {
  import opened Wrappers
  import opened Pkcs7

  const BLOCK: nat := 16
  const MAC_LEN: nat := 32

  /** The key, authentication key and initial vector derived from a message key. */
  datatype Params = Params(encKey: Bytes, authKey: Bytes, iv: Bytes)

  /** The primitives: a block cipher with its inverse, a keyed MAC and the derivation of the parameters. */
  datatype Suite = Suite(enc: (Bytes, Bytes) -> Bytes, dec: (Bytes, Bytes) -> Bytes,
                         mac: (Bytes, Bytes) -> Bytes, derive: Bytes -> Params)
  {
    ghost predicate Valid() {
      && (forall k, b {:trigger enc(k, b)} :: |b| == BLOCK ==> |enc(k, b)| == BLOCK && dec(k, enc(k, b)) == b)
      && (forall k, b {:trigger dec(k, b)} :: |b| == BLOCK ==> |dec(k, b)| == BLOCK && enc(k, dec(k, b)) == b)
      && (forall k, d {:trigger mac(k, d)} :: |mac(k, d)| == MAC_LEN)
      && (forall k {:trigger derive(k)} :: |derive(k).iv| == BLOCK)
    }
  }

  function Pow2(n: nat): nat {
    if n == 0 then 1 else 2 * Pow2(n - 1)
  }

  /** Exclusive or of the `n` lowest bits. */
  function XorBits(a: nat, b: nat, n: nat): (r: nat)
    ensures r < Pow2(n)
  {
    if n == 0 then 0 else (a % 2 + b % 2) % 2 + 2 * XorBits(a / 2, b / 2, n - 1)
  }

  lemma {:induction false} XorBitsCancels(a: nat, b: nat, n: nat)
    requires a < Pow2(n)
    ensures XorBits(XorBits(a, b, n), b, n) == a
  {
    if n > 0 {
      var low, high := (a % 2 + b % 2) % 2, XorBits(a / 2, b / 2, n - 1);
      assert XorBits(a, b, n) == low + 2 * high;
      LowAndHigh(low, high);
      XorBitsCancels(a / 2, b / 2, n - 1);
      FlipTwice(a % 2, b % 2);
    }
  }

  lemma {:induction false} LowAndHigh(low: nat, high: nat)
    requires low < 2
    ensures (low + 2 * high) % 2 == low && (low + 2 * high) / 2 == high
  {
  }

  lemma {:induction false} FlipTwice(a: nat, b: nat)
    requires a < 2 && b < 2
    ensures ((a + b) % 2 + b) % 2 == a
  {
  }

  function XorByte(a: byte, b: byte): byte {
    assert Pow2(8) == 256;
    XorBits(a, b, 8)
  }

  lemma {:induction false} XorByteCancels(a: byte, b: byte)
    ensures XorByte(XorByte(a, b), b) == a
  {
    assert Pow2(8) == 256;
    XorBitsCancels(a, b, 8);
  }

  /** Bit `i` of a number, the lowest one first. */
  function Bit(a: nat, i: nat): nat {
    if i == 0 then a % 2 else Bit(a / 2, i - 1)
  }

  lemma {:induction false} XorBitsBit(a: nat, b: nat, n: nat, i: nat)
    requires i < n
    ensures Bit(XorBits(a, b, n), i) == (Bit(a, i) + Bit(b, i)) % 2
  {
    LowAndHigh((a % 2 + b % 2) % 2, XorBits(a / 2, b / 2, n - 1));
    if i > 0 {
      XorBitsBit(a / 2, b / 2, n - 1, i - 1);
    }
  }

  lemma {:induction false} BitIsBit(a: nat, i: nat)
    ensures Bit(a, i) < 2
  {
    if i > 0 {
      BitIsBit(a / 2, i - 1);
    }
  }

  /** A bit is flipped exactly where the other byte has a one. */
  lemma {:induction false} XorByteFlips(a: byte, b: byte, i: nat)
    requires i < 8
    ensures Bit(XorByte(a, b), i) != Bit(a, i) <==> Bit(b, i) == 1
  {
    XorBitsBit(a, b, 8, i);
    BitIsBit(a, i);
    BitIsBit(b, i);
  }

  lemma {:induction false} XorBitsCommutes(a: nat, b: nat, n: nat)
    ensures XorBits(a, b, n) == XorBits(b, a, n)
  {
    if n > 0 {
      XorBitsCommutes(a / 2, b / 2, n - 1);
    }
  }

  lemma {:induction false} XorByteCommutes(a: byte, b: byte)
    ensures XorByte(a, b) == XorByte(b, a)
  {
    XorBitsCommutes(a, b, 8);
  }

  function Xor(a: Bytes, b: Bytes): (r: Bytes)
    requires |a| == |b|
    ensures |r| == |a|
  {
    seq(|a|, i requires 0 <= i < |a| => XorByte(a[i], b[i]))
  }

  lemma {:induction false} XorCancels(a: Bytes, b: Bytes)
    requires |a| == |b|
    ensures Xor(Xor(a, b), b) == a
  {
    forall i | 0 <= i < |a|
      ensures Xor(Xor(a, b), b)[i] == a[i]
    {
      XorByteCancels(a[i], b[i]);
    }
  }

  /** Blocks that differ stay different when the same block is mixed in. */
  lemma {:induction false} XorInjective(a: Bytes, b: Bytes, c: Bytes)
    requires |a| == |b| == |c|
    ensures Xor(a, b) == Xor(a, c) <==> b == c
  {
    if Xor(a, b) == Xor(a, c) {
      forall i | 0 <= i < |a|
        ensures b[i] == c[i]
      {
        assert Xor(a, b)[i] == Xor(a, c)[i];
        XorByteCommutes(a[i], b[i]);
        XorByteCommutes(a[i], c[i]);
        XorByteCancels(b[i], a[i]);
        XorByteCancels(c[i], a[i]);
      }
    }
  }

  /** CBC encryption: each block is mixed with the ciphertext block before it. */
  ghost function CbcEncrypt(p: Suite, key: Bytes, iv: Bytes, data: Bytes): (r: Bytes)
    requires p.Valid() && |iv| == BLOCK && |data| % BLOCK == 0
    ensures |r| == |data|
    decreases |data|
  {
    if |data| == 0 then []
    else
      var c := p.enc(key, Xor(data[..BLOCK], iv));
      c + CbcEncrypt(p, key, c, data[BLOCK..])
  }

  ghost function CbcDecrypt(p: Suite, key: Bytes, iv: Bytes, data: Bytes): (r: Bytes)
    requires p.Valid() && |iv| == BLOCK && |data| % BLOCK == 0
    ensures |r| == |data|
    decreases |data|
  {
    if |data| == 0 then []
    else Xor(p.dec(key, data[..BLOCK]), iv) + CbcDecrypt(p, key, data[..BLOCK], data[BLOCK..])
  }

  lemma {:induction false} CbcInverts(p: Suite, key: Bytes, iv: Bytes, data: Bytes)
    requires p.Valid() && |iv| == BLOCK && |data| % BLOCK == 0
    ensures CbcDecrypt(p, key, iv, CbcEncrypt(p, key, iv, data)) == data
    ensures CbcEncrypt(p, key, iv, CbcDecrypt(p, key, iv, data)) == data
    decreases |data|
  {
    if |data| > 0 {
      var b, rest := data[..BLOCK], data[BLOCK..];
      assert data == b + rest;
      var c := p.enc(key, Xor(b, iv));
      CbcInverts(p, key, c, rest);
      XorCancels(b, iv);
      var e := c + CbcEncrypt(p, key, c, rest);
      assert e[..BLOCK] == c && e[BLOCK..] == CbcEncrypt(p, key, c, rest);
      CbcInverts(p, key, b, rest);
      XorCancels(p.dec(key, b), iv);
      var d := Xor(p.dec(key, b), iv) + CbcDecrypt(p, key, b, rest);
      assert d[..BLOCK] == Xor(p.dec(key, b), iv) && d[BLOCK..] == CbcDecrypt(p, key, b, rest);
    }
  }

  function Block(data: Bytes, i: nat): (b: Bytes)
    requires BLOCK * i + BLOCK <= |data|
    ensures |b| == BLOCK
  {
    data[BLOCK * i..BLOCK * i + BLOCK]
  }

  /** What is mixed into block `i`: the ciphertext block before it, or the initial vector. */
  function Before(iv: Bytes, data: Bytes, i: nat): (b: Bytes)
    requires |iv| == BLOCK && BLOCK * i + BLOCK <= |data|
    ensures |b| == BLOCK
  {
    if i == 0 then iv else Block(data, i - 1)
  }

  lemma {:induction false} BlockBehind(first: Bytes, rest: Bytes, i: nat)
    requires |first| == BLOCK && BLOCK * i + BLOCK <= |rest|
    ensures Block(first + rest, i + 1) == Block(rest, i)
  {
  }

  /** Every block of the ciphertext, from the plaintext block and the ciphertext block before it. */
  lemma {:induction false} CbcBlock(p: Suite, key: Bytes, iv: Bytes, data: Bytes, i: nat)
    requires p.Valid() && |iv| == BLOCK && |data| % BLOCK == 0 && BLOCK * i + BLOCK <= |data|
    ensures var c := CbcEncrypt(p, key, iv, data); Block(c, i) == p.enc(key, Xor(Block(data, i), Before(iv, c, i)))
    decreases i
  {
    hide Xor;
    var first := p.enc(key, Xor(data[..BLOCK], iv));
    var rest := CbcEncrypt(p, key, first, data[BLOCK..]);
    assert CbcEncrypt(p, key, iv, data) == first + rest;
    if i == 0 {
      assert Block(first + rest, 0) == first;
    } else {
      CbcBlock(p, key, first, data[BLOCK..], i - 1);
      BlockBehind(first, rest, i - 1);
      assert data == data[..BLOCK] + data[BLOCK..];
      BlockBehind(data[..BLOCK], data[BLOCK..], i - 1);
      if i == 1 {
        assert Block(first + rest, 0) == first;
      } else {
        BlockBehind(first, rest, i - 2);
      }
    }
  }

  lemma {:induction false} EncInjective(p: Suite, key: Bytes, a: Bytes, b: Bytes)
    requires p.Valid() && |a| == |b| == BLOCK
    ensures p.enc(key, a) == p.enc(key, b) <==> a == b
  {
  }

  /** Two ciphertext blocks are equal exactly if what was mixed is equal, however equal the plaintext blocks are. */
  lemma {:induction false} BlocksEqualIff(p: Suite, key: Bytes, iv: Bytes, data: Bytes, i: nat, j: nat)
    requires p.Valid() && |iv| == BLOCK && |data| % BLOCK == 0
    requires BLOCK * i + BLOCK <= |data| && BLOCK * j + BLOCK <= |data|
    ensures var c := CbcEncrypt(p, key, iv, data);
            Block(c, i) == Block(c, j) <==>
            Xor(Block(data, i), Before(iv, c, i)) == Xor(Block(data, j), Before(iv, c, j))
  {
    hide CbcEncrypt, Xor;
    CbcBlock(p, key, iv, data, i);
    CbcBlock(p, key, iv, data, j);
    var c := CbcEncrypt(p, key, iv, data);
    EncInjective(p, key, Xor(Block(data, i), Before(iv, c, i)), Xor(Block(data, j), Before(iv, c, j)));
  }

  /** The initial vector reaches the ciphertext of any data at all. */
  lemma {:induction false} InitialVectorsDiffer(p: Suite, key: Bytes, iv: Bytes, iv': Bytes, data: Bytes)
    requires p.Valid() && |iv| == |iv'| == BLOCK && |data| % BLOCK == 0 && |data| > 0
    ensures CbcEncrypt(p, key, iv, data) == CbcEncrypt(p, key, iv', data) <==> iv == iv'
  {
    hide Xor;
    CbcBlock(p, key, iv, data, 0);
    CbcBlock(p, key, iv', data, 0);
    EncInjective(p, key, Xor(Block(data, 0), iv), Xor(Block(data, 0), iv'));
    XorInjective(Block(data, 0), iv, iv');
  }

  ghost function Encrypt(p: Suite, msgKey: Bytes, plaintext: Bytes, ad: Bytes): Result<Bytes>
    requires p.Valid()
  {
    if |msgKey| != 32 then Err(NoChainKey)
    else
      UnpadOfPad(plaintext, BLOCK);
      var k := p.derive(msgKey);
      Ok(CbcEncrypt(p, k.encKey, k.iv, Pad(plaintext, BLOCK).value) + p.mac(k.authKey, ad))
  }

  ghost function Decrypt(p: Suite, msgKey: Bytes, ciphertext: Bytes, ad: Bytes): Result<Bytes>
    requires p.Valid()
  {
    if |msgKey| != 32 then Err(NoChainKey)
    else if |ciphertext| < MAC_LEN then Err(ShortCiphertext)
    else
      var k, body := p.derive(msgKey), ciphertext[..|ciphertext| - MAC_LEN];
      if |body| % BLOCK != 0 then Err(NotAligned)
      else
        var plaintext := Unpad(CbcDecrypt(p, k.encKey, k.iv, body), BLOCK);
        if plaintext.Err? then plaintext
        else if ciphertext[|body|..] != p.mac(k.authKey, ad) then Err(OpenFailed)
        else plaintext
  }

  lemma {:induction false} DecryptOfEncrypt(p: Suite, msgKey: Bytes, plaintext: Bytes, ad: Bytes)
    requires p.Valid() && |msgKey| == 32
    ensures Encrypt(p, msgKey, plaintext, ad).Ok?
    ensures Decrypt(p, msgKey, Encrypt(p, msgKey, plaintext, ad).value, ad) == Ok(plaintext)
  {
    hide CbcEncrypt, CbcDecrypt, Pad, Unpad;
    UnpadOfPad(plaintext, BLOCK);
    var k, padded := p.derive(msgKey), Pad(plaintext, BLOCK).value;
    var body, tag := CbcEncrypt(p, k.encKey, k.iv, padded), p.mac(k.authKey, ad);
    var c := body + tag;
    assert c[..|c| - MAC_LEN] == body && c[|body|..] == tag;
    CbcInverts(p, k.encKey, k.iv, padded);
  }

  lemma {:induction false} EncryptOfDecrypt(p: Suite, msgKey: Bytes, ciphertext: Bytes, ad: Bytes)
    requires p.Valid() && Decrypt(p, msgKey, ciphertext, ad).Ok?
    ensures Encrypt(p, msgKey, Decrypt(p, msgKey, ciphertext, ad).value, ad) == Ok(ciphertext)
  {
    hide CbcEncrypt, CbcDecrypt, Pad, Unpad;
    var k, body := p.derive(msgKey), ciphertext[..|ciphertext| - MAC_LEN];
    PadOfUnpad(CbcDecrypt(p, k.encKey, k.iv, body), BLOCK);
    CbcInverts(p, k.encKey, k.iv, body);
    assert ciphertext == body + ciphertext[|body|..];
  }

  /** Decryption accepts exactly the encryptions, each with the plaintext it was made from. */
  lemma {:induction false} DecryptInvertsEncrypt(
    p: Suite, msgKey: Bytes, ciphertext: Bytes, plaintext: Bytes, ad: Bytes)
    requires p.Valid()
    ensures Decrypt(p, msgKey, ciphertext, ad) == Ok(plaintext) <==> Encrypt(p, msgKey, plaintext, ad) == Ok(ciphertext)
  {
    hide CbcEncrypt, CbcDecrypt, Pad, Unpad;
    if |msgKey| == 32 {
      DecryptOfEncrypt(p, msgKey, plaintext, ad);
      if Decrypt(p, msgKey, ciphertext, ad).Ok? {
        EncryptOfDecrypt(p, msgKey, ciphertext, ad);
      }
    }
  }

  /**
   What a ciphertext consists of: the blocks of the padded plaintext, each mixed with the one before
   it and enciphered, and behind them the MAC over the associated data.
   */
  lemma {:induction false} CiphertextIs(p: Suite, msgKey: Bytes, plaintext: Bytes, ad: Bytes, i: nat)
    requires p.Valid() && |msgKey| == 32 && BLOCK * i <= |plaintext|
    ensures var k, padded, r := p.derive(msgKey), Pad(plaintext, BLOCK), Encrypt(p, msgKey, plaintext, ad);
            && padded.Ok? && r.Ok? && |r.value| == |padded.value| + MAC_LEN
            && r.value[|padded.value|..] == p.mac(k.authKey, ad)
            && BLOCK * i + BLOCK <= |padded.value|
            && p.dec(k.encKey, Block(r.value, i)) == Xor(Block(padded.value, i), Before(k.iv, r.value, i))
  {
    hide CbcEncrypt, Pad, Unpad, Xor;
    PadIs(plaintext, BLOCK);
    UnpadOfPad(plaintext, BLOCK);
    var k, padded := p.derive(msgKey), Pad(plaintext, BLOCK).value;
    var body := CbcEncrypt(p, k.encKey, k.iv, padded);
    var c := Encrypt(p, msgKey, plaintext, ad).value;
    assert c == body + p.mac(k.authKey, ad);
    CbcBlock(p, k.encKey, k.iv, padded, i);
    assert Block(c, i) == Block(body, i) && (i > 0 ==> Block(c, i - 1) == Block(body, i - 1));
  }

  /** A ciphertext opens under other associated data only if their MACs are equal. */
  lemma {:induction false} OpensUnderIff(p: Suite, msgKey: Bytes, plaintext: Bytes, ad: Bytes, ad': Bytes)
    requires p.Valid() && |msgKey| == 32
    ensures Encrypt(p, msgKey, plaintext, ad).Ok?
    ensures var k, r := p.derive(msgKey), Decrypt(p, msgKey, Encrypt(p, msgKey, plaintext, ad).value, ad');
            && (r == Ok(plaintext) <==> p.mac(k.authKey, ad) == p.mac(k.authKey, ad'))
            && (r != Ok(plaintext) ==> r == Err(OpenFailed))
  {
    hide CbcEncrypt, CbcDecrypt, Pad, Unpad;
    UnpadOfPad(plaintext, BLOCK);
    var k, padded := p.derive(msgKey), Pad(plaintext, BLOCK).value;
    var body, tag := CbcEncrypt(p, k.encKey, k.iv, padded), p.mac(k.authKey, ad);
    var c := body + tag;
    assert c[..|c| - MAC_LEN] == body && c[|body|..] == tag;
    CbcInverts(p, k.encKey, k.iv, padded);
  }
}
