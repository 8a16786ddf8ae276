/** Whom a party believes: which offers and acknowledgements are accepted, and what the others leave behind. */
module Trust {
  import opened Wrappers
  import opened Keys
  import opened SkippedKeys
  import opened Ratchets
  import opened X3dh
  import opened Sync
  import opened Sessions

  /** What both parties of a handshake derive from the offering and the accepting party's keys. */
  function HandshakeKey(offerer: KeyId, accepter: KeyId, spk: KeyId, ek: KeyId): Key {
    Derived([ZeroBlock, ZeroBlock, ZeroBlock, ZeroBlock, Agree(accepter, spk), Agree(ek, offerer), Agree(ek, spk)])
  }

  lemma {:induction false} OpeningKeyIs(identity: KeyId, peer: KeyId, spk: KeyId, sig: Signature, ek: KeyId)
    ensures var r := InitialMessage(identity, peer, Point(spk), sig, ek);
            r.Ok? ==> r.value == Opening(HandshakeKey(peer, identity, spk, ek), [identity, peer], Point(ek))
  {
    OpeningMaterial(identity, peer, Point(spk), sig, ek);
    var r := InitialMessage(identity, peer, Point(spk), sig, ek);
    if r.Ok? {
      var k := HandshakeKey(peer, identity, spk, ek);
      MaterialDecides(k, r.value.sessKey, Agree(identity, spk), Agree(ek, peer), Agree(ek, spk),
                      Agree(identity, spk), Agree(ek, peer), Agree(ek, spk));
    }
  }

  // ---------- Offers ----------

  /** The offer comes from the identity key that the peer is known by, and this key signed its prekey. */
  predicate Believed(offer: Message, peerKey: KeyId)
    requires offer.Offer?
  {
    offer.idKey == peerKey && offer.spSig == Signature(offer.idKey, offer.spKey) && offer.spKey.Point?
  }

  /** A fresh active ratchet always seals its first message. */
  lemma {:induction false} FirstSeals(seed: Key, ad: AssociatedData, peer: KeyId, own: KeyId, plaintext: Bytes)
    ensures var o := CreateActive(seed, ad, Point(peer), own).Encrypt(plaintext, own);
            && o.result == Ok(Packet(Header(Point(own), 0, 0),
                                     Box(MessageOf(ChainOf(seed, Agree(own, peer))), ad, plaintext)))
            && o.state.dhr.pub == Point(own)
  {
  }

  /**
   An offer is accepted if and only if the peer's own identity key made it and the identity key is
   still there to answer; an offer that is refused leaves the session as it was.
   */
  lemma {:induction false} OfferAcceptedIff(s: SessionState, offer: Message, ek: KeyId, own: KeyId, noise: Bytes)
    requires offer.Offer?
    ensures var t := s.ReceiveOffer(offer, ek, own, noise);
            && (t.result.Ok? <==> Believed(offer, s.peerKey) && s.identity.Some?)
            && (t.result.Err? ==> t.state == s)
            && (offer.idKey != s.peerKey ==> t.result == Err(PeerRefused))
            && (t.result.Ok? ==>
                  && t.state == s.(remote := offer.uuid, identity := None, ratchet := t.state.ratchet)
                  && t.state.ratchet.Some?
                  && t.result.value.Ack? && t.result.value.uuid == offer.uuid
                  && t.result.value.idKey == s.identity.value && t.result.value.eKey == Point(ek)
                  && var seed := HandshakeKey(offer.idKey, s.identity.value, offer.spKey.id, ek);
                     t.result.value.cipher ==
                       Packet(Header(Point(own), 0, 0), Box(MessageOf(ChainOf(seed, Agree(own, offer.spKey.id))),
                                                            [s.identity.value, offer.idKey], s.local + noise)))
  {
    hide Ratchet.Encrypt;
    if s.identity.Some? {
      OpeningIsSigned(s.identity.value, offer.idKey, offer.spKey, offer.spSig, ek);
      if offer.spKey.Point? {
        match InitialMessage(s.identity.value, offer.idKey, offer.spKey, offer.spSig, ek)
        case Ok(o) =>
          OpeningKeyIs(s.identity.value, offer.idKey, offer.spKey.id, offer.spSig, ek);
          FirstSeals(o.sessKey, o.ad, offer.spKey.id, own, s.local + noise);
        case Err(_) =>
      }
    }
  }

  // ---------- Acknowledgements ----------

  /** Exactly which first message a fresh passive ratchet opens. */
  lemma {:induction false} FirstOpensIff(
    seed: Key, ad: AssociatedData, pub: Pub, priv: KeyId, c: Ciphertext, draw: KeyId)
    ensures var r := CreatePassive(seed, ad, pub, priv).Decrypt(c, draw).result;
            && (r.Ok? <==>
                  && c.Packet? && c.header.dhPub.Point?
                  && c.header.prevNo <= MAX_SKIP_ELEMENTS && c.header.msgNo <= MAX_SKIP_ELEMENTS
                  && c.body.Box? && c.body.ad == ad
                  && c.body.key == MessageOf(Advance(ChainOf(seed, Agree(priv, c.header.dhPub.id)), c.header.msgNo)))
            && (r.Ok? ==> r.value == c.body.plaintext)
  {
    hide Ratchet.SkipTo, Ratchet.Take;
    if c.Packet? {
      var moved := CreatePassive(seed, ad, pub, priv).Rekey(c.header, draw);
      if moved.result.Ok? {
        TakeFromStart(moved.state, c.header);
        TakeKeepsAd(moved.state, c.header);
      }
    }
  }

  lemma {:induction false} TakeKeepsAd(p: Ratchet, h: Header)
    requires p.Valid()
    ensures p.Take(h).state.ad == p.ad
  {
    SkipValid(p, h.msgNo);
  }

  /** The acknowledgement names the peer's identity key, and the session has offered and is waiting for it. */
  predicate Awaited(s: SessionState, ack: Message)
    requires ack.Ack?
  {
    && s.ratchet.None? && ack.idKey == s.peerKey && ack.eKey.Point?
    && s.identity.Some? && s.spkPub.Some? && s.spkPriv.Some?
  }

  /** The first message was sealed under the key that both parties derive, and holds an identifier. */
  predicate OpensFirst(s: SessionState, ack: Message)
    requires ack.Ack? && Awaited(s, ack)
  {
    var seed, c := HandshakeKey(s.identity.value, ack.idKey, s.spkPriv.value, ack.eKey.id), ack.cipher;
    && c.Packet? && c.header.dhPub.Point? && c.body.Box?
    && c.header.prevNo <= MAX_SKIP_ELEMENTS && c.header.msgNo <= MAX_SKIP_ELEMENTS
    && c.body.ad == [ack.idKey, s.identity.value] && |c.body.plaintext| >= 16
    && c.body.key == MessageOf(Advance(ChainOf(seed, Agree(s.spkPriv.value, c.header.dhPub.id)), c.header.msgNo))
  }

  lemma {:induction false} ReceivedKeyIs(identity: KeyId, peer: KeyId, spk: KeyId, ek: KeyId)
    ensures ReceivedMessage(identity, peer, Some(spk), Point(ek))
            == Ok(Secured(HandshakeKey(identity, peer, spk, ek), [peer, identity]))
  {
    ReceivedMaterial(identity, peer, Some(spk), Point(ek));
    AgreeCommutes(spk, peer);
    AgreeCommutes(identity, ek);
    AgreeCommutes(spk, ek);
    var k := HandshakeKey(identity, peer, spk, ek);
    MaterialDecides(k, ReceivedMessage(identity, peer, Some(spk), Point(ek)).value.sessKey,
                    Agree(peer, spk), Agree(ek, identity), Agree(ek, spk),
                    Agree(peer, spk), Agree(ek, identity), Agree(ek, spk));
  }

  /**
   An acknowledgement is accepted if and only if it is awaited and its first message opens.  One by
   another identity key, or for a session that has a ratchet already, leaves the session as it was.
   */
  lemma {:induction false} AckAcceptedIff(s: SessionState, ack: Message, draw: KeyId)
    requires ack.Ack?
    ensures var t := s.ReceiveAck(ack, draw);
            && (t.result.Ok? <==> Awaited(s, ack) && OpensFirst(s, ack))
            && (!Awaited(s, ack) ==> t.state == s)
            && (ack.idKey != s.peerKey && s.ratchet.None? ==> t.result == Err(PeerRefused))
            && (t.result.Ok? ==>
                  && t.state.ratchet.Some?
                  && t.state == s.(spkPub := None, spkPriv := None, ratchet := t.state.ratchet, identity := None,
                                   remote := ack.cipher.body.plaintext[..16]))
  {
    hide Ratchet.Decrypt;
    if s.identity.Some? {
      ReceivedMaterial(s.identity.value, ack.idKey, s.spkPriv, ack.eKey);
    }
    if Awaited(s, ack) {
      var seed := HandshakeKey(s.identity.value, ack.idKey, s.spkPriv.value, ack.eKey.id);
      ReceivedKeyIs(s.identity.value, ack.idKey, s.spkPriv.value, ack.eKey.id);
      FirstOpensIff(seed, [ack.idKey, s.identity.value], s.spkPub.value, s.spkPriv.value, ack.cipher, draw);
    }
  }

  /**
   A session in memory that was given an awaited acknowledgement which does not open takes no other one
   any more; a client does not store that, so its session goes on waiting.
   */
  lemma {:induction false} FailedAckSticksIff(s: SessionState, ack: Message, next: Message, draw: KeyId, later: KeyId)
    requires ack.Ack? && next.Ack? && s.ReceiveAck(ack, draw).result.Err? && Awaited(s, next) && OpensFirst(s, next)
    ensures s.ReceiveAck(ack, draw).state.ReceiveAck(next, later).result.Ok? <==> !Awaited(s, ack)
    ensures Awaited(s, ack) ==> s.ReceiveAck(ack, draw).state.ReceiveAck(next, later).result == Err(WrongState)
  {
    hide Ratchet.Decrypt, SessionState.ReceiveAck;
    AckAcceptedIff(s, ack, draw);
    AckAcceptedIff(s.ReceiveAck(ack, draw).state, next, later);
    if Awaited(s, ack) {
      AwaitedIsUsedUp(s, ack, draw);
      OnlyOneRatchet(s.ReceiveAck(ack, draw).state, next, later);
    }
  }

  lemma {:induction false} AwaitedIsUsedUp(s: SessionState, ack: Message, draw: KeyId)
    requires ack.Ack? && Awaited(s, ack)
    ensures s.ReceiveAck(ack, draw).state.ratchet.Some?
  {
    hide Ratchet.Decrypt;
    ReceivedMaterial(s.identity.value, ack.idKey, s.spkPriv, ack.eKey);
  }

  lemma {:induction false} OnlyOneRatchet(s: SessionState, ack: Message, draw: KeyId)
    requires ack.Ack? && s.ratchet.Some?
    ensures s.ReceiveAck(ack, draw) == Turn(s, Err(WrongState))
  {
  }

  // ---------- After a close ----------

  /**
   A closed session refuses data and acknowledgements and sends nothing.  It can be used again, for an
   offer of its own or of the peer, if and only if the identity key is still there.
   */
  lemma {:induction false} ReusableIff(
    s: SessionState, plaintext: Bytes, payload: Ciphertext, offer: Message, ack: Message, k: KeyId, own: KeyId,
    now: nat)
    requires offer.Offer? && ack.Ack?
    ensures var t := s.Shut().state;
            && t.Send(plaintext, k, now) == Turn(t, Err(WrongState))
            && t.ReceiveData(payload, k) == Turn(t, Err(WrongState))
            && t.ReceiveAck(ack, k).result.Err? && t.ReceiveAck(ack, k).state == t
            && (t.CreateOffer(k).result.Ok? <==> s.identity.Some?)
            && (t.ReceiveOffer(offer, k, own, plaintext).result.Ok? <==> s.identity.Some? && Believed(offer, s.peerKey))
  {
    hide SessionState.ReceiveAck, SessionState.ReceiveOffer;
    AckAcceptedIff(s.Shut().state, ack, k);
    OfferAcceptedIff(s.Shut().state, offer, k, own, plaintext);
  }

  /** A session that was established has no identity key, so after a close it can never be offered again. */
  lemma {:induction false} EstablishedIsSpent(
    s: SessionState, msg: Message, draws: (KeyId, KeyId), noise: Bytes, spk: KeyId)
    requires s.Valid() && s.Receive(msg, draws, noise).result.Ok?
    requires s.Receive(msg, draws, noise).result.value.Established?
    ensures s.Receive(msg, draws, noise).state.identity == None
    ensures s.Receive(msg, draws, noise).state.Shut().state.CreateOffer(spk).result == Err(NoIdentityKey)
  {
    hide SessionState.ReceiveAck, SessionState.ReceiveOffer, SessionState.ReceiveData;
    match msg
    case Offer(_, _, _, _, _) => OfferAcceptedIff(s, msg, draws.0, draws.1, noise);
    case Ack(_, _, _, _) => AckAcceptedIff(s, msg, draws.0);
    case Data(_, _) =>
    case Close(_) =>
  }
}
