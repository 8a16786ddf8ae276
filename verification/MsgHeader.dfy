/** The 36-byte header in front of every ciphertext. */
module MsgHeader {
  import opened Wrappers
  import opened Arithmetic

  const HEADER_LEN: nat := 36

  datatype Header = Header(dhPub: Bytes, prevNo: nat, msgNo: nat)

  function Marshal(h: Header): Result<Bytes> {
    if h.prevNo >= 0x1_0000 || h.msgNo >= 0x1_0000 then Err(HeaderNumber)
    else Ok(Fit(h.dhPub, 32) + [h.prevNo / 256, h.prevNo % 256] + [h.msgNo / 256, h.msgNo % 256])
  }

  function Parse(data: Bytes): Result<Header> {
    if |data| < HEADER_LEN then Err(ShortCiphertext)
    else Ok(Header(data[..32], (data[32] as int) * 256 + data[33] as int, (data[34] as int) * 256 + data[35] as int))
  }

  /** A header survives the wire if and only if it has a 32-byte key and 16-bit numbers. */
  lemma {:induction false} ParseOfMarshal(h: Header, rest: Bytes)
    ensures Marshal(h).Ok? <==> h.prevNo < 0x1_0000 && h.msgNo < 0x1_0000
    ensures Marshal(h).Ok? ==>
              && |Marshal(h).value| == HEADER_LEN
              && (Parse(Marshal(h).value + rest) == Ok(h) <==> |h.dhPub| == 32)
  {
    if Marshal(h).Ok? {
      var data := Marshal(h).value + rest;
      assert data[..32] == Fit(h.dhPub, 32);
      assert data[32] == h.prevNo / 256 && data[33] == h.prevNo % 256;
      assert data[34] == h.msgNo / 256 && data[35] == h.msgNo % 256;
    }
  }

  /** Every 36 bytes are the header that they parse to. */
  lemma {:induction false} MarshalOfParse(data: Bytes)
    requires |data| == HEADER_LEN
    ensures Parse(data).Ok? && Marshal(Parse(data).value) == Ok(data)
  {
    var h := Parse(data).value;
    assert h.prevNo / 256 == data[32] && h.prevNo % 256 == data[33];
    assert h.msgNo / 256 == data[34] && h.msgNo % 256 == data[35];
    assert data == data[..32] + [data[32], data[33]] + [data[34], data[35]];
  }

  /** On the wire: 32 bytes of key, then the previous length and the number, most significant byte first. */
  lemma {:induction false} MarshalIs(h: Header)
    ensures Marshal(h).Ok? ==>
              var data := Marshal(h).value;
              && |data| == HEADER_LEN && data[..32] == Fit(h.dhPub, 32)
              && FromBig(data[32..34]) == h.prevNo && FromBig(data[34..36]) == h.msgNo
  {
    if Marshal(h).Ok? {
      var data := Marshal(h).value;
      FromBigTwo(h.prevNo / 256, h.prevNo % 256);
      FromBigTwo(h.msgNo / 256, h.msgNo % 256);
      assert data[32..34] == [h.prevNo / 256, h.prevNo % 256] && data[34..36] == [h.msgNo / 256, h.msgNo % 256];
      assert data[..32] == Fit(h.dhPub, 32);
    }
  }

  /** Parsing reads the same places, of data that may go on behind the header. */
  lemma {:induction false} ParseIs(data: Bytes)
    ensures Parse(data).Ok? <==> |data| >= HEADER_LEN
    ensures Parse(data).Ok? ==>
              Parse(data).value == Header(data[..32], FromBig(data[32..34]), FromBig(data[34..36]))
  {
    if |data| >= HEADER_LEN {
      FromBigTwo(data[32], data[33]);
      FromBigTwo(data[34], data[35]);
      assert data[32..34] == [data[32], data[33]] && data[34..36] == [data[34], data[35]];
    }
  }
}
