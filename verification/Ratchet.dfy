/** One party's Double Ratchet as a value: what Encrypt and Decrypt do to it. */
module Ratchets {
  import opened Wrappers
  import opened Keys
  import opened SkippedKeys
  import opened DhRatchets

  /** Header numbers are sent as 16-bit unsigned integers. */
  const NUMBER_LIMIT: nat := 0x1_0000
  type Number = n: nat | n < NUMBER_LIMIT

  datatype Header = Header(dhPub: Pub, prevNo: Number, msgNo: Number)

  /** The concatenated public identity keys. */
  type AssociatedData = seq<KeyId>

  /**
   The part behind the header.  A `Box` was made with a message key; because the HMAC key is
   derived from the message key, only the same key opens it.  `Garbage` opens with no key.
   */
  datatype Body = Box(key: Key, ad: AssociatedData, plaintext: Bytes) | Garbage

  /** What a party may be asked to decrypt: anything at all. */
  datatype Ciphertext = Short | Packet(header: Header, body: Body)

  function OpenBody(msgKey: Key, body: Body, ad: AssociatedData): Result<Bytes> {
    if body.Box? && body.key == msgKey && body.ad == ad then Ok(body.plaintext) else Err(OpenFailed)
  }

  datatype Outcome<T> = Outcome(state: Ratchet, result: Result<T>)

  /** The fields of a Double Ratchet. */
  datatype Ratchet = Ratchet(
    ad: AssociatedData, dhr: DhState, peer: Option<Pub>, send: Option<Key>, recv: Option<Key>,
    sendNo: nat, recvNo: nat, prevSendNo: nat, buffer: seq<Chain>)
  {
    /** A receiving chain always belongs to a peer key, and the cache is a well-formed FIFO. */
    ghost predicate Valid() {
      && (recv.Some? ==> peer.Some?)
      && WellFormed(buffer)
    }

    function DhStep(draw: KeyId): Outcome<()> {
      var s := dhr.Step(peer, draw);
      Outcome(this.(prevSendNo := sendNo, sendNo := 0, recvNo := 0, dhr := s.state, send := s.send, recv := s.recv),
              if s.err.Some? then Err(s.err.value) else Ok(()))
    }

    function Encrypt(plaintext: Bytes, draw: KeyId): Outcome<Ciphertext> {
      if send.Some? then Seal(plaintext)
      else
        var stepped := DhStep(draw);
        if stepped.result.Err? then Outcome(stepped.state, Err(stepped.result.error))
        else stepped.state.Seal(plaintext)
    }

    /** Encrypts on the current sending chain.  The chain moves on even if the header does not fit. */
    function Seal(plaintext: Bytes): Outcome<Ciphertext> {
      if send.None? then Outcome(this, Err(NoChainKey))
      else
        var moved := this.(send := Some(NextOf(send.value)), sendNo := sendNo + 1);
        if prevSendNo >= NUMBER_LIMIT || sendNo >= NUMBER_LIMIT then Outcome(moved, Err(HeaderNumber))
        else Outcome(moved, Ok(Packet(Header(dhr.pub, prevSendNo, sendNo), Box(MessageOf(send.value), ad, plaintext))))
    }

    /** Caches the message keys from `recvNo` up to, not including, `until`. */
    function SkipTo(until: nat): (r: Ratchet)
      requires recv.Some? && peer.Some?
      ensures r.recv.Some?
      decreases until - recvNo
    {
      if recvNo >= until then this
      else
        this.(recv := Some(NextOf(recv.value)),
              recvNo := recvNo + 1,
              buffer := Insert(buffer, peer.value, recvNo, MessageOf(recv.value))).SkipTo(until)
    }

    function Skip(until: nat): (r: Outcome<()>)
      requires recv.Some? ==> peer.Some?
      ensures r.result.Ok? <==> until <= recvNo + MAX_SKIP_ELEMENTS
    {
      if recvNo + MAX_SKIP_ELEMENTS < until then Outcome(this, Err(TooManySkipped))
      else if recv.None? then Outcome(this, Ok(()))
      else Outcome(SkipTo(until), Ok(()))
    }

    /** Follows the peer to the next sending chain it announced. */
    function Rekey(header: Header, draw: KeyId): Outcome<()>
      requires recv.Some? ==> peer.Some?
    {
      var skipped := Skip(header.prevNo);
      if skipped.result.Err? then skipped
      else skipped.state.(peer := Some(header.dhPub)).DhStep(draw)
    }

    /** The message key for a number of the current receiving chain. */
    function Take(header: Header): Outcome<Key>
      requires recv.Some? ==> peer.Some?
    {
      if header.msgNo < recvNo then Outcome(this, Find(buffer, header.dhPub, header.msgNo))
      else
        var skipped := if header.msgNo > recvNo then Skip(header.msgNo) else Outcome(this, Ok(()));
        if skipped.result.Err? then Outcome(skipped.state, Err(skipped.result.error))
        else if skipped.state.recv.None? then Outcome(skipped.state, Err(NoChainKey))
        else
          var chain := skipped.state.recv.value;
          Outcome(skipped.state.(recv := Some(NextOf(chain)), recvNo := skipped.state.recvNo + 1), Ok(MessageOf(chain)))
    }

    /** Decrypts a message whose header announces the current peer key. */
    function Receive(header: Header, body: Body): Outcome<Bytes>
      requires recv.Some? ==> peer.Some?
    {
      var taken := Take(header);
      if taken.result.Err? then Outcome(taken.state, Err(taken.result.error))
      else Outcome(taken.state, OpenBody(taken.result.value, body, ad))
    }

    function Decrypt(ciphertext: Ciphertext, draw: KeyId): Outcome<Bytes>
      requires recv.Some? ==> peer.Some?
    {
      if ciphertext.Short? then Outcome(this, Err(ShortCiphertext))
      else if peer == Some(ciphertext.header.dhPub) then Receive(ciphertext.header, ciphertext.body)
      else
        var moved := Rekey(ciphertext.header, draw);
        if moved.result.Err? then Outcome(moved.state, Err(moved.result.error))
        else moved.state.Receive(ciphertext.header, ciphertext.body)
    }
  }

  function CreateActive(sessKey: Key, ad: AssociatedData, peerDhPub: Pub, draw: KeyId): Ratchet {
    Ratchet(ad, Active(sessKey, peerDhPub, draw), Some(peerDhPub), None, None, 0, 0, 0, [])
  }

  function CreatePassive(sessKey: Key, ad: AssociatedData, dhPub: Pub, dhPriv: KeyId): Ratchet {
    Ratchet(ad, Passive(sessKey, dhPub, dhPriv), None, None, None, 0, 0, 0, [])
  }

  // ---------- Skipping in closed form ----------

  /** The inserts that skipping performs, in order. */
  function SkipInserts(buffer: seq<Chain>, peer: Pub, chain: Key, from: nat, until: nat): seq<Chain>
    decreases until - from
  {
    if from >= until then buffer
    else SkipInserts(Insert(buffer, peer, from, MessageOf(chain)), peer, NextOf(chain), from + 1, until)
  }

  lemma {:induction false} AdvanceFront(chain: Key, n: nat)
    ensures Advance(NextOf(chain), n) == Advance(chain, n + 1)
  {
    AdvanceAdds(chain, 1, n);
    assert Advance(chain, 1) == NextOf(Advance(chain, 0));
  }

  /** One round of the skipping loop. */
  lemma {:induction false} SkipToStep(p: Ratchet, until: nat)
    requires p.recv.Some? && p.peer.Some? && p.recvNo < until
    ensures p.SkipTo(until)
            == p.(recv := Some(NextOf(p.recv.value)), recvNo := p.recvNo + 1,
                  buffer := Insert(p.buffer, p.peer.value, p.recvNo, MessageOf(p.recv.value))).SkipTo(until)
  {
  }

  lemma {:induction false} SkipToDone(p: Ratchet, until: nat)
    requires p.recv.Some? && p.peer.Some? && p.recvNo >= until
    ensures p.SkipTo(until) == p
  {
  }

  lemma {:induction false} SkipToIs(p: Ratchet, until: nat)
    requires p.recv.Some? && p.peer.Some?
    requires p.recvNo <= until
    ensures p.SkipTo(until) == p.(recv := Some(Advance(p.recv.value, until - p.recvNo)), recvNo := until,
                                  buffer := SkipInserts(p.buffer, p.peer.value, p.recv.value, p.recvNo, until))
    decreases until - p.recvNo
  {
    if p.recvNo < until {
      var q := p.(recv := Some(NextOf(p.recv.value)), recvNo := p.recvNo + 1,
                  buffer := Insert(p.buffer, p.peer.value, p.recvNo, MessageOf(p.recv.value)));
      SkipToIs(q, until);
      AdvanceFront(p.recv.value, until - q.recvNo);
    }
  }

  lemma {:induction false} SkipInsertsWellFormed(buffer: seq<Chain>, peer: Pub, chain: Key, from: nat, until: nat)
    requires WellFormed(buffer)
    ensures WellFormed(SkipInserts(buffer, peer, chain, from, until))
    decreases until - from
  {
    if from < until {
      InsertWellFormed(buffer, peer, from, MessageOf(chain));
      SkipInsertsWellFormed(Insert(buffer, peer, from, MessageOf(chain)), peer, NextOf(chain), from + 1, until);
    }
  }

  /** Skipping caches exactly the skipped numbers of the current chain and keeps what was cached of it. */
  lemma {:induction false} SkipInsertsFind(buffer: seq<Chain>, peer: Pub, chain: Key, from: nat, until: nat, n: nat)
    requires from <= until
    ensures var found := Find(SkipInserts(buffer, peer, chain, from, until), peer, n);
            && (from <= n < until ==> found == Ok(MessageOf(Advance(chain, n - from))))
            && (!(from <= n < until) && Find(buffer, peer, n).Ok? ==> found == Find(buffer, peer, n))
            && (!(from <= n < until) && Find(buffer, peer, n).Err? ==> found.Err?)
    decreases until - from
  {
    if from < until {
      var next := Insert(buffer, peer, from, MessageOf(chain));
      FindAfterInsert(buffer, peer, from, MessageOf(chain), n);
      SkipInsertsFind(next, peer, NextOf(chain), from + 1, until, n);
      if from < n < until {
        AdvanceFront(chain, n - from - 1);
      }
    }
  }

  lemma SkipValid(p: Ratchet, until: nat)
    requires p.Valid()
    ensures p.Skip(until).state.Valid()
    ensures var q := p.Skip(until).state;
            q == p.(recv := q.recv, recvNo := q.recvNo, buffer := q.buffer) && (q.recv.Some? <==> p.recv.Some?)
  {
    if p.recv.Some? && p.recvNo <= until {
      SkipToIs(p, until);
      SkipInsertsWellFormed(p.buffer, p.peer.value, p.recv.value, p.recvNo, until);
    }
  }

  /** Every operation keeps a ratchet valid, whatever it is given. */
  lemma {:induction false} OperationsKeepValid(p: Ratchet, plaintext: Bytes, ciphertext: Ciphertext, draw: KeyId)
    requires p.Valid()
    ensures p.Encrypt(plaintext, draw).state.Valid()
    ensures p.Decrypt(ciphertext, draw).state.Valid()
  {
    if ciphertext.Packet? {
      var h := ciphertext.header;
      SkipValid(p, h.prevNo);
      var q := if p.peer == Some(h.dhPub) then p else p.Rekey(h, draw).state;
      SkipValid(q, h.msgNo);
    }
  }
}
