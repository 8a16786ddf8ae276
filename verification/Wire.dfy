/** The text envelope of messages: prefix, type digit, base64url payload, suffix. */
module Wire {
  import opened Wrappers
  import opened Arithmetic
  import opened Base64

  // "!RAT!" and "!CHT!"
  const PREFIX: Bytes := [33, 82, 65, 84, 33]
  const SUFFIX: Bytes := [33, 67, 72, 84, 33]

  datatype Message =
    | Offer(idKey: Bytes, spKey: Bytes, spSig: Bytes, uuid: Bytes, nick: Bytes)
    | Ack(idKey: Bytes, eKey: Bytes, uuid: Bytes, cipher: Bytes)
    | Data(uuid: Bytes, payload: Bytes)
    | Close(uuid: Bytes, payload: Bytes)
    | Sealed(data: Bytes)

  /** The sizes that the senders of the system use. */
  predicate WellSized(m: Message) {
    match m
    case Offer(idKey, spKey, spSig, uuid, nick) => |idKey| == 32 && |spKey| == 32 && |spSig| == 64 && |uuid| == 16
    case Ack(idKey, eKey, uuid, cipher) => |idKey| == 32 && |eKey| == 32 && |uuid| == 16 && |cipher| > 0
    case Data(uuid, payload) => |uuid| == 16 && |payload| > 0
    case Close(uuid, payload) => |uuid| == 16 && payload == [0xff]
    case Sealed(data) => |data| > 1
  }

  function TypeOf(m: Message): (t: byte)
    ensures 1 <= t <= 5
  {
    match m
    case Offer(_, _, _, _, _) => 1
    case Ack(_, _, _, _) => 2
    case Data(_, _) => 3
    case Close(_, _) => 4
    case Sealed(_) => 5
  }

  function MarshalBinary(m: Message): Bytes {
    match m
    case Offer(idKey, spKey, spSig, uuid, nick) =>
      Fit(idKey, 32) + Fit(spKey, 32) + Fit(spSig, 64) + Fit(uuid, 16) + nick
    case Ack(idKey, eKey, uuid, cipher) => Fit(idKey, 32) + Fit(eKey, 32) + Fit(uuid, 16) + cipher
    case Data(uuid, payload) => Fit(uuid, 16) + payload
    case Close(uuid, payload) => Fit(uuid, 16) + payload
    case Sealed(data) => data
  }

  function UnmarshalBinary(t: byte, data: Bytes): Result<Message>
    requires 1 <= t <= 5
  {
    if t == 1 then
      if |data| < 144 then Err(BadPayload)
      else Ok(Offer(data[..32], data[32..64], data[64..128], data[128..144], data[144..]))
    else if t == 2 then
      if |data| <= 80 then Err(BadPayload) else Ok(Ack(data[..32], data[32..64], data[64..80], data[80..]))
    else if t == 3 then
      if |data| <= 16 then Err(BadPayload) else Ok(Data(data[..16], data[16..]))
    else if t == 4 then
      if |data| <= 16 || data[16..] != [0xff] then Err(BadPayload) else Ok(Close(data[..16], data[16..]))
    else
      if |data| <= 1 then Err(BadPayload) else Ok(Sealed(data))
  }

  function Marshal(m: Message): Bytes {
    PREFIX + [48 + TypeOf(m)] + Encode(MarshalBinary(m)) + SUFFIX
  }

  predicate HasPrefix(text: Bytes) {
    |text| >= 5 && text[..5] == PREFIX
  }

  predicate HasSuffix(text: Bytes) {
    |text| >= 5 && text[|text| - 5..] == SUFFIX
  }

  /** Byte subtraction wraps around; an index or slice out of range is a run-time panic. */
  function Unmarshal(text: Bytes): Result<Message> {
    if !HasPrefix(text) || !HasSuffix(text) then Err(BadEnvelope)
    else if |text| <= 5 then Err(IndexPanic)
    else
      var t: byte := ((text[5] as int) + 256 - 48) % 256;
      if !(1 <= t <= 5) then Err(BadType)
      else if |text| - 5 < 6 then Err(IndexPanic)
      else
        match Decode(text[6..|text| - 5])
        case Err(e) => Err(e)
        case Ok(data) => UnmarshalBinary(t, data)
  }

  lemma {:induction false} UnmarshalBinaryOfMarshal(m: Message)
    requires WellSized(m)
    ensures UnmarshalBinary(TypeOf(m), MarshalBinary(m)) == Ok(m)
  {
    var d := MarshalBinary(m);
    match m
    case Offer(idKey, spKey, spSig, uuid, nick) =>
      assert d[..32] == idKey && d[32..64] == spKey && d[64..128] == spSig && d[128..144] == uuid && d[144..] == nick;
    case Ack(idKey, eKey, uuid, cipher) =>
      assert d[..32] == idKey && d[32..64] == eKey && d[64..80] == uuid && d[80..] == cipher;
    case Data(uuid, payload) =>
      assert d[..16] == uuid && d[16..] == payload;
    case Close(uuid, payload) =>
      assert d[..16] == uuid && d[16..] == payload;
    case Sealed(_) =>
  }

  /** The digit of each type of message. */
  predicate DigitOf(m: Message, digit: byte) {
    match m
    case Offer(_, _, _, _, _) => digit as char == '1'
    case Ack(_, _, _, _) => digit as char == '2'
    case Data(_, _) => digit as char == '3'
    case Close(_, _) => digit as char == '4'
    case Sealed(_) => digit as char == '5'
  }

  /** The places of the fields in the binary form of a well-sized message. */
  predicate Places(m: Message, data: Bytes) {
    match m
    case Offer(idKey, spKey, spSig, uuid, nick) =>
      && |data| >= 144 && data[..32] == idKey && data[32..64] == spKey && data[64..128] == spSig
      && data[128..144] == uuid && data[144..] == nick
    case Ack(idKey, eKey, uuid, cipher) =>
      |data| >= 80 && data[..32] == idKey && data[32..64] == eKey && data[64..80] == uuid && data[80..] == cipher
    case Data(uuid, payload) => |data| >= 16 && data[..16] == uuid && data[16..] == payload
    case Close(uuid, payload) => |data| >= 16 && data[..16] == uuid && data[16..] == payload
    case Sealed(sealed) => data == sealed
  }

  predicate Reads(bytes: Bytes, letters: string) {
    |bytes| == |letters| && forall i :: 0 <= i < |bytes| ==> bytes[i] as char == letters[i]
  }

  /** The marks at both ends, the digit of the type, and the encoded fields between them. */
  predicate Spells(m: Message, text: Bytes) {
    && |text| >= 11
    && Reads(text[..5], "!RAT!") && Reads(text[|text| - 5..], "!CHT!")
    && DigitOf(m, text[5])
    && Decode(text[6..|text| - 5]).Ok? && Places(m, Decode(text[6..|text| - 5]).value)
  }

  lemma {:induction false} TextIs(m: Message)
    requires WellSized(m)
    ensures Spells(m, Marshal(m))
  {
    hide Encode, Decode, MarshalBinary;
    var text := Marshal(m);
    assert text[6..|text| - 5] == Encode(MarshalBinary(m));
    assert text[5] == 48 + TypeOf(m) && text[..5] == PREFIX && text[|text| - 5..] == SUFFIX;
    MarksAre(text);
    DecodeOfEncode(MarshalBinary(m));
    PlacesOf(m);
  }

  /** A text is parsed as a message if and only if it spells it out and the fields have their sizes. */
  lemma {:induction false} ParsedIff(text: Bytes, m: Message)
    ensures Unmarshal(text) == Ok(m) <==> WellSized(m) && Spells(m, text)
  {
    hide Decode, Places, WellSized, UnmarshalBinary;
    UnmarshalIsTotal(text);
    if |text| >= 11 {
      MarksAre(text);
    }
    if |text| >= 11 && HasPrefix(text) && HasSuffix(text) {
      var body := Decode(text[6..|text| - 5]);
      if body.Ok? {
        var t: byte := ((text[5] as int) + 256 - 48) % 256;
        assert DigitOf(m, text[5]) <==> t == TypeOf(m);
        if t == TypeOf(m) {
          BinaryIff(t, body.value, m);
        } else if 1 <= t <= 5 {
          TypeIs(t, body.value);
        }
      }
    }
  }

  lemma {:induction false} MarksAre(text: Bytes)
    requires |text| >= 5
    ensures HasPrefix(text) <==> Reads(text[..5], "!RAT!")
    ensures HasSuffix(text) <==> Reads(text[|text| - 5..], "!CHT!")
  {
    MarkIs(text[..5]);
    MarkIs(text[|text| - 5..]);
  }

  lemma {:induction false} MarkIs(mark: Bytes)
    ensures mark == PREFIX <==> Reads(mark, "!RAT!")
    ensures mark == SUFFIX <==> Reads(mark, "!CHT!")
  {
    assert Reads(PREFIX, "!RAT!") && Reads(SUFFIX, "!CHT!");
  }

  lemma {:induction false} TypeIs(t: byte, data: Bytes)
    requires 1 <= t <= 5
    ensures UnmarshalBinary(t, data).Ok? ==> TypeOf(UnmarshalBinary(t, data).value) == t
  {
  }

  lemma {:induction false} BinaryIff(t: byte, data: Bytes, m: Message)
    requires t == TypeOf(m)
    ensures UnmarshalBinary(t, data) == Ok(m) <==> WellSized(m) && Places(m, data)
  {
    if WellSized(m) && Places(m, data) {
      match m
      case Offer(_, _, _, _, _) =>
      case Ack(_, _, _, _) =>
      case Data(_, _) =>
      case Close(_, _) =>
      case Sealed(_) =>
    }
  }

  lemma {:induction false} PlacesOf(m: Message)
    requires WellSized(m)
    ensures Places(m, MarshalBinary(m))
  {
    var d := MarshalBinary(m);
    match m
    case Offer(idKey, spKey, spSig, uuid, nick) =>
      assert d == idKey + spKey + spSig + uuid + nick;
    case Ack(idKey, eKey, uuid, cipher) =>
      assert d == idKey + eKey + uuid + cipher;
    case Data(_, _) =>
    case Close(_, _) =>
    case Sealed(_) =>
  }

  /** A message of any type comes back from its text if and only if it is well-sized. */
  lemma {:induction false} UnmarshalOfMarshal(m: Message)
    ensures Unmarshal(Marshal(m)) == Ok(m) <==> WellSized(m)
  {
    hide Encode, Decode, MarshalBinary, UnmarshalBinary, WellSized;
    if WellSized(m) {
      var text := Marshal(m);
      assert text[..5] == PREFIX && text[|text| - 5..] == SUFFIX && text[5] == 48 + TypeOf(m);
      assert text[6..|text| - 5] == Encode(MarshalBinary(m));
      DecodeOfEncode(MarshalBinary(m));
      UnmarshalBinaryOfMarshal(m);
    } else {
      UnmarshalIsTotal(Marshal(m));
    }
  }

  /** The text of a box: the type digit and the binary form; a box is never put into a box. */
  function Seal(m: Message): Result<Bytes> {
    if m.Sealed? then Err(BadType) else Ok([48 + TypeOf(m)] + MarshalBinary(m))
  }

  /** What is made of the opened text of a box. */
  function Unseal(text: Bytes): Result<Message> {
    if |text| == 0 then Err(IndexPanic)
    else
      var t: byte := ((text[0] as int) + 256 - 48) % 256;
      if !(1 <= t <= 5) then Err(BadType) else UnmarshalBinary(t, text[1..])
  }

  /** Unsealing inverts sealing, and only the empty text makes it read out of range. */
  lemma {:induction false} UnsealOfSeal(m: Message)
    ensures Seal(m).Ok? <==> !m.Sealed?
    ensures Seal(m).Ok? ==> (Unseal(Seal(m).value) == Ok(m) <==> WellSized(m))
    ensures forall text :: Unseal(text) == Err(IndexPanic) <==> text == []
  {
    if Seal(m).Ok? {
      assert Seal(m).value[1..] == MarshalBinary(m);
      if WellSized(m) {
        UnmarshalBinaryOfMarshal(m);
      }
    }
  }

  /** A boxed text is the digit of the type and the fields. */
  lemma {:induction false} SealedIs(m: Message)
    requires WellSized(m) && !m.Sealed?
    ensures Seal(m).Ok? && |Seal(m).value| >= 1
    ensures DigitOf(m, Seal(m).value[0]) && Places(m, Seal(m).value[1..])
  {
    PlacesOf(m);
    assert Seal(m).value[1..] == MarshalBinary(m);
  }

  /** No text at all makes parsing read out of range, and what is parsed is well-sized. */
  lemma {:induction false} UnmarshalIsTotal(text: Bytes)
    ensures Unmarshal(text) != Err(IndexPanic)
    ensures Unmarshal(text).Ok? ==> WellSized(Unmarshal(text).value) && |text| >= 11
  {
    if HasPrefix(text) && HasSuffix(text) {
      assert text[0] == text[..5][0] && text[1] == text[..5][1] && text[4] == text[..5][4];
      assert forall i :: 0 <= i < 5 ==> text[|text| - 5 + i] == SUFFIX[i];
      assert |text| != 5;
      if |text| < 11 {
        assert text[5] == SUFFIX[10 - |text|];
      } else {
        DecodeErrors(text[6..|text| - 5]);
      }
    }
  }

  lemma {:induction false} DecodeErrors(text: Bytes)
    ensures Decode(text) != Err(IndexPanic)
  {
    ValuesErrors(text);
    match Values(text)
    case Ok(vs) => JoinErrors(vs);
    case Err(_) =>
  }

  lemma {:induction false} ValuesErrors(text: Bytes)
    ensures Values(text) != Err(IndexPanic)
  {
    if |text| > 0 {
      ValuesErrors(text[1..]);
    }
  }

  lemma {:induction false} JoinErrors(vs: seq<Sextet>)
    ensures Join(vs) != Err(IndexPanic)
  {
    if |vs| >= 4 {
      JoinErrors(vs[4..]);
    }
  }
}
