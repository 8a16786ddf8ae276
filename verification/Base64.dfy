/** Unpadded base64url, section 5 of RFC 4648, as the wire format uses it. */
module Base64 {
  import opened Wrappers

  type Sextet = v: int | 0 <= v < 64

  function Char(v: Sextet): byte {
    if v < 26 then 65 + v else if v < 52 then 71 + v else if v < 62 then v - 4 else if v == 62 then 45 else 95
  }

  function Value(c: byte): Option<Sextet> {
    if 65 <= c <= 90 then Some(c - 65)
    else if 97 <= c <= 122 then Some(c - 71)
    else if 48 <= c <= 57 then Some(c + 4)
    else if c == 45 then Some(62)
    else if c == 95 then Some(63)
    else None
  }

  /** The sextets of a byte string; the last one is filled up with zero bits. */
  function Split(data: Bytes): seq<Sextet> {
    if |data| == 0 then []
    else if |data| == 1 then [data[0] / 4, data[0] % 4 * 16]
    else if |data| == 2 then [data[0] / 4, data[0] % 4 * 16 + data[1] / 16, data[1] % 16 * 4]
    else
      [data[0] / 4, data[0] % 4 * 16 + data[1] / 16, data[1] % 16 * 4 + data[2] / 64, data[2] % 64]
      + Split(data[3..])
  }

  /** The bytes of a sextet string; a single left-over sextet is an error, left-over bits are not. */
  function Join(vs: seq<Sextet>): Result<Bytes> {
    if |vs| == 0 then Ok([])
    else if |vs| == 1 then Err(BadBase64)
    else if |vs| == 2 then Ok([(vs[0] as int) * 4 + (vs[1] as int) / 16])
    else if |vs| == 3 then Ok([(vs[0] as int) * 4 + (vs[1] as int) / 16, (vs[1] as int) % 16 * 16 + (vs[2] as int) / 4])
    else
      match Join(vs[4..])
      case Err(e) => Err(e)
      case Ok(rest) =>
        Ok([(vs[0] as int) * 4 + (vs[1] as int) / 16,
            (vs[1] as int) % 16 * 16 + (vs[2] as int) / 4,
            (vs[2] as int) % 4 * 64 + vs[3]] + rest)
  }

  function Chars(vs: seq<Sextet>): (r: Bytes)
    ensures |r| == |vs| && forall i :: 0 <= i < |vs| ==> r[i] == Char(vs[i])
  {
    seq(|vs|, i requires 0 <= i < |vs| => Char(vs[i]))
  }

  /** Line breaks are skipped; any other byte outside the alphabet is an error. */
  function Values(text: Bytes): Result<seq<Sextet>> {
    if |text| == 0 then Ok([])
    else
      var rest := Values(text[1..]);
      if rest.Err? || text[0] == 10 || text[0] == 13 then rest
      else if Value(text[0]).None? then Err(BadBase64)
      else Ok([Value(text[0]).value] + rest.value)
  }

  function Encode(data: Bytes): Bytes {
    Chars(Split(data))
  }

  function Decode(text: Bytes): Result<Bytes> {
    match Values(text)
    case Err(e) => Err(e)
    case Ok(vs) => Join(vs)
  }

  lemma {:induction false} JoinOfSplit(data: Bytes)
    ensures Join(Split(data)) == Ok(data)
  {
    if |data| >= 3 {
      JoinOfSplit(data[3..]);
      var vs := Split(data);
      assert vs[4..] == Split(data[3..]);
      assert data == [data[0], data[1], data[2]] + data[3..];
    } else if |data| == 2 {
      assert data == [data[0], data[1]];
    } else if |data| == 1 {
      assert data == [data[0]];
    }
  }

  lemma {:induction false} ValuesOfChars(vs: seq<Sextet>)
    ensures Values(Chars(vs)) == Ok(vs)
  {
    if |vs| > 0 {
      ValuesOfChars(vs[1..]);
      assert Chars(vs)[1..] == Chars(vs[1..]);
      assert vs == [vs[0]] + vs[1..];
    }
  }

  lemma {:induction false} DecodeOfEncode(data: Bytes)
    ensures Decode(Encode(data)) == Ok(data)
  {
    JoinOfSplit(data);
    ValuesOfChars(Split(data));
  }

  // ---------- What the text looks like ----------

  // The URL-safe alphabet.
  const UPPER: string := "ABCDEFGHIJKLMNOPQRSTUVWXYZ"
  const LOWER: string := "abcdefghijklmnopqrstuvwxyz"
  const OTHER: string := "0123456789-_"

  lemma {:induction false} CharIs(v: Sextet)
    ensures |UPPER| == 26 && |LOWER| == 26 && |OTHER| == 12
    ensures Char(v) as char == (UPPER + LOWER + OTHER)[v]
  {
    if v < 26 {
      assert Char(v) as char == UPPER[v];
    } else if v < 52 {
      assert Char(v) as char == LOWER[v - 26];
    } else {
      assert Char(v) as char == OTHER[v - 52];
    }
  }

  function Number(bytes: Bytes, i: nat): nat {
    if i < |bytes| then bytes[i] else 0
  }

  function Digit(vs: seq<Sextet>, i: nat): nat {
    if i < |vs| then vs[i] else 0
  }

  /** The `g`-th three bytes as a 24-bit number; missing ones count as zero. */
  function ThreeBytes(data: Bytes, g: nat): nat {
    (Number(data, 3 * g) * 0x100 + Number(data, 3 * g + 1)) * 0x100 + Number(data, 3 * g + 2)
  }

  /** The `g`-th four sextets as a 24-bit number; missing ones count as zero. */
  function FourSextets(vs: seq<Sextet>, g: nat): nat {
    ((Digit(vs, 4 * g) * 0x40 + Digit(vs, 4 * g + 1)) * 0x40 + Digit(vs, 4 * g + 2)) * 0x40 + Digit(vs, 4 * g + 3)
  }

  /** Each group of three bytes and its four sextets are the same number. */
  lemma {:induction false} GroupsAgree(data: Bytes, g: nat)
    ensures FourSextets(Split(data), g) == ThreeBytes(data, g)
  {
    hide Split, ThreeBytes, FourSextets;
    if g == 0 {
      FirstGroup(data);
    } else if |data| <= 3 {
      NothingLeft(data, g);
    } else {
      GroupsAgree(data[3..], g - 1);
      SplitTail(data);
      NextBytes(data, g - 1);
      NextSextets(Split(data), g - 1);
    }
  }

  lemma {:induction false} SplitTail(data: Bytes)
    requires |data| >= 3
    ensures |Split(data)| >= 4 && Split(data)[4..] == Split(data[3..])
  {
  }

  lemma {:induction false} NothingLeft(data: Bytes, g: nat)
    requires |data| <= 3 && g > 0
    ensures FourSextets(Split(data), g) == ThreeBytes(data, g)
  {
    assert |data| == 3 ==> Split(data[3..]) == [];
  }

  lemma {:induction false} NextBytes(data: Bytes, g: nat)
    requires |data| >= 3
    ensures ThreeBytes(data, g + 1) == ThreeBytes(data[3..], g)
  {
  }

  lemma {:induction false} NextSextets(vs: seq<Sextet>, g: nat)
    requires |vs| >= 4
    ensures FourSextets(vs, g + 1) == FourSextets(vs[4..], g)
  {
  }

  /** There are no more sextets than the bits need. */
  lemma {:induction false} SplitLength(data: Bytes)
    ensures |Split(data)| == (8 * |data| + 5) / 6
  {
    if |data| >= 3 {
      SplitLength(data[3..]);
    }
  }

  lemma {:induction false} FirstGroup(data: Bytes)
    ensures FourSextets(Split(data), 0) == ThreeBytes(data, 0)
  {
    if |data| >= 3 {
      assert Split(data)[..4] == [data[0] / 4, data[0] % 4 * 16 + data[1] / 16,
                                  data[1] % 16 * 4 + data[2] / 64, data[2] % 64];
    }
  }

  /** Decoding goes the same way back; of a last group that is not full, the bits left over are dropped. */
  lemma {:induction false} GroupsComeBack(vs: seq<Sextet>, g: nat)
    requires Join(vs).Ok?
    ensures var n := FourSextets(vs, g);
            ThreeBytes(Join(vs).value, g)
            == n - n % (if 4 * g + 2 == |vs| then 0x10000 else if 4 * g + 3 == |vs| then 0x100 else 1)
  {
    hide Join, ThreeBytes, FourSextets;
    if g == 0 {
      FirstGroupBack(vs);
    } else if |vs| <= 4 {
      NothingJoined(vs, g);
    } else {
      JoinTail(vs);
      GroupsComeBack(vs[4..], g - 1);
      NextBytes(Join(vs).value, g - 1);
      NextSextets(vs, g - 1);
    }
  }

  lemma {:induction false} JoinTail(vs: seq<Sextet>)
    requires |vs| >= 4 && Join(vs).Ok?
    ensures Join(vs[4..]).Ok? && |Join(vs).value| >= 3 && Join(vs).value[3..] == Join(vs[4..]).value
  {
  }

  lemma {:induction false} NothingJoined(vs: seq<Sextet>, g: nat)
    requires |vs| <= 4 && g > 0 && Join(vs).Ok?
    ensures FourSextets(vs, g) == ThreeBytes(Join(vs).value, g) == 0
  {
    assert |vs| == 4 ==> vs[4..] == [];
  }

  lemma {:induction false} FirstGroupBack(vs: seq<Sextet>)
    requires Join(vs).Ok?
    ensures var n := FourSextets(vs, 0);
            ThreeBytes(Join(vs).value, 0)
            == n - n % (if |vs| == 2 then 0x10000 else if |vs| == 3 then 0x100 else 1)
  {
    if |vs| >= 4 {
      assert Join(vs).value[0] == (vs[0] as int) * 4 + (vs[1] as int) / 16;
    } else if |vs| == 3 {
      assert FourSextets(vs, 0) % 0x100 == (vs[2] as int) % 4 * 0x40;
    } else if |vs| == 2 {
      assert FourSextets(vs, 0) % 0x10000 == (vs[1] as int) % 16 * 0x1000;
    }
  }

  /** A byte that ends a line. */
  predicate Skipped(c: byte) {
    c == 10 || c == 13
  }

  /** The number of letters in a text that are not line breaks. */
  function Letters(text: Bytes): nat {
    if |text| == 0 then 0 else Letters(text[1..]) + if Skipped(text[0]) then 0 else 1
  }

  lemma {:induction false} ValuesOkIff(text: Bytes)
    ensures Values(text).Ok? <==> forall i :: 0 <= i < |text| ==> Skipped(text[i]) || Value(text[i]).Some?
    ensures Values(text).Ok? ==> |Values(text).value| == Letters(text)
  {
    if |text| > 0 {
      ValuesOkIff(text[1..]);
      assert text == [text[0]] + text[1..];
    }
  }

  lemma {:induction false} JoinOkIff(vs: seq<Sextet>)
    ensures Join(vs).Ok? <==> |vs| % 4 != 1
    ensures Join(vs).Ok? ==> |Join(vs).value| == 6 * |vs| / 8
  {
    if |vs| >= 4 {
      JoinOkIff(vs[4..]);
    }
  }

  /** A text decodes if and only if its letters are in the alphabet and do not leave a single one over. */
  lemma {:induction false} DecodeOkIff(text: Bytes)
    ensures Decode(text).Ok? <==>
              && (forall i :: 0 <= i < |text| ==> Skipped(text[i]) || Value(text[i]).Some?)
              && Letters(text) % 4 != 1
    ensures Decode(text).Ok? ==> |Decode(text).value| == 6 * Letters(text) / 8
  {
    ValuesOkIff(text);
    if Values(text).Ok? {
      JoinOkIff(Values(text).value);
    }
  }
}
