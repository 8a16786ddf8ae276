/** PKCS#7 padding, section 6.3 of RFC 5652. */
module Pkcs7 {
  import opened Wrappers
  import opened Arithmetic

  function Pad(data: Bytes, blockSize: int): Result<Bytes> {
    if blockSize <= 0 || blockSize > 255 then Err(BadBlockSize)
    else
      var padLen := blockSize - |data| % blockSize;
      Ok(data + Repeat(padLen, padLen))
  }

  function Unpad(padded: Bytes, blockSize: int): Result<Bytes> {
    if blockSize <= 0 || blockSize > 255 then Err(BadBlockSize)
    else if |padded| % blockSize != 0 || |padded| == 0 then Err(NotAligned)
    else
      var padLen := padded[|padded| - 1];
      if padLen == 0 || padLen > blockSize then Err(BadPadLength)
      else if padLen > |padded| then Err(IndexPanic)
      else if padded[|padded| - padLen..] != Repeat(padLen, padLen) then Err(BadPadSuffix)
      else Ok(padded[..|padded| - padLen])
  }

  lemma {:induction false} AlignedIsLong(n: nat, blockSize: nat)
    requires blockSize > 0 && n % blockSize == 0 && n > 0
    ensures n >= blockSize
  {
  }

  lemma {:induction false} PadAligns(n: nat, blockSize: nat)
    requires blockSize > 0
    ensures (n + (blockSize - n % blockSize)) % blockSize == 0
  {
    var q := n / blockSize;
    assert n + (blockSize - n % blockSize) == (q + 1) * blockSize by {
      assert n == q * blockSize + n % blockSize;
    }
    QuotientUnique((q + 1) * blockSize, q + 1, 0, blockSize);
  }

  /**
   Padding adds between one byte and a whole block, as few as align the data, and every byte that is
   added tells how many there are; only block sizes from 1 to 255 can be padded to.
   */
  lemma {:induction false} PadIs(data: Bytes, blockSize: int)
    ensures Pad(data, blockSize).Ok? <==> 0 < blockSize <= 255
    ensures Pad(data, blockSize).Ok? ==>
              var padded := Pad(data, blockSize).value;
              var added := |padded| - |data|;
              && |padded| % blockSize == 0 && 1 <= added <= blockSize
              && padded[..|data|] == data
              && forall i :: |data| <= i < |padded| ==> padded[i] == added
  {
    if 0 < blockSize <= 255 {
      PadAligns(|data|, blockSize);
    }
  }

  /** For the block sizes that the padding allows, unpadding gives back what was padded. */
  lemma {:induction false} UnpadOfPad(data: Bytes, blockSize: int)
    requires 0 < blockSize <= 255
    ensures Pad(data, blockSize).Ok?
    ensures |Pad(data, blockSize).value| % blockSize == 0
    ensures Unpad(Pad(data, blockSize).value, blockSize) == Ok(data)
  {
    var padLen := blockSize - |data| % blockSize;
    var padded := data + Repeat(padLen, padLen);
    PadAligns(|data|, blockSize);
    assert padded[|padded| - padLen..] == Repeat(padLen, padLen);
    assert padded[..|padded| - padLen] == data;
  }

  lemma {:induction false} PadLenOf(n: nat, padLen: nat, blockSize: nat)
    requires 0 < padLen <= blockSize <= n && n % blockSize == 0
    ensures blockSize - (n - padLen) % blockSize == padLen
  {
    var q := n / blockSize;
    assert n == q * blockSize;
    assert q * blockSize == (q - 1) * blockSize + blockSize;
    if padLen < blockSize {
      QuotientUnique(n - padLen, q - 1, blockSize - padLen, blockSize);
    } else {
      QuotientUnique(n - padLen, q - 1, 0, blockSize);
    }
  }

  /** Whatever can be unpadded is the padding of the result, and slicing never leaves the data. */
  lemma {:induction false} PadOfUnpad(padded: Bytes, blockSize: int)
    ensures Unpad(padded, blockSize) != Err(IndexPanic)
    ensures Unpad(padded, blockSize).Ok? ==> Pad(Unpad(padded, blockSize).value, blockSize) == Ok(padded)
  {
    if 0 < blockSize <= 255 && |padded| % blockSize == 0 && |padded| > 0 {
      AlignedIsLong(|padded|, blockSize);
      var padLen := padded[|padded| - 1];
      if Unpad(padded, blockSize).Ok? {
        PadLenOf(|padded|, padLen, blockSize);
        assert padded == Unpad(padded, blockSize).value + Repeat(padLen, padLen);
      }
    }
  }
}
