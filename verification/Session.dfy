/** A session between two parties: offer, acknowledge, exchange data, close. */
module Sessions {
  import opened Wrappers
  import opened Arithmetic
  import opened Keys
  import opened Ratchets
  import opened Persistence
  import opened KeyBuffers
  import opened DoubleRatchets
  import opened X3dh

  /** A ULID: six bytes of time, ten bytes of entropy. */
  type Uuid = u: Bytes | |u| == 16 witness [0, 0, 0, 0, 0, 0, 0, 0, 0, 0, 0, 0, 0, 0, 0, 0]

  datatype Message =
    | Offer(idKey: KeyId, spKey: Pub, spSig: Signature, uuid: Uuid, nick: Bytes)
    | Ack(idKey: KeyId, eKey: Pub, uuid: Uuid, cipher: Ciphertext)
    | Data(uuid: Uuid, payload: Ciphertext)
    | Close(uuid: Uuid)

  /** What an incoming message meant: an established session (with the answer to send), a plaintext, a close. */
  datatype Received = Established(answer: Option<Message>) | Plaintext(plaintext: Bytes) | Closed

  /** The 48-bit big-endian time stamp of a ULID. */
  function Stamp(now: nat): Bytes {
    [now / 0x100_0000_0000 % 256, now / 0x1_0000_0000 % 256, now / 0x100_0000 % 256,
     now / 0x1_0000 % 256, now / 0x100 % 256, now % 256]
  }

  function Entropy(id: Uuid): (e: Bytes)
    ensures |e| == 10
  {
    id[6..]
  }

  /** A new time stamp; a time beyond 48 bits is ignored. */
  function EncTime(id: Bytes, now: nat): (u: Uuid)
    ensures Entropy(u) == Entropy(Fit(id, 16))
  {
    var u := Fit(id, 16);
    if now >= 0x1_0000_0000_0000 then u else Stamp(now) + u[6..]
  }

  /** The time is read back from the first six bytes, most significant first; a time that does not fit is dropped. */
  lemma {:induction false} EncTimeIsBigEndian(id: Bytes, now: nat)
    ensures EncTime(id, now)[6..] == Fit(id, 16)[6..]
    ensures now < 0x1_0000_0000_0000 ==> FromBig(EncTime(id, now)[..6]) == now
    ensures now >= 0x1_0000_0000_0000 ==> EncTime(id, now) == Fit(id, 16)
  {
    if now < 0x1_0000_0000_0000 {
      StampIsBigEndian(now);
      assert EncTime(id, now)[..6] == Stamp(now);
    }
  }

  lemma {:induction false} LastByte(b: Bytes, now: nat)
    requires FromBig(b) == now / 0x100
    ensures FromBig(b + [now % 0x100]) == now
  {
    FromBigAppend(b, now % 0x100);
  }

  lemma {:induction false} StampIsBigEndian(now: nat)
    requires now < 0x1_0000_0000_0000
    ensures FromBig(Stamp(now)) == now
  {
    var a, b, c := now / 0x100, now / 0x1_0000, now / 0x100_0000;
    var d, e := now / 0x1_0000_0000, now / 0x100_0000_0000;
    DivideTwice(now, 0x100);
    DivideTwice(now, 0x1_0000);
    DivideTwice(now, 0x100_0000);
    DivideTwice(now, 0x1_0000_0000);
    assert e / 0x100 == 0;
    LastByte([], e);
    assert [] + [e % 256] == [e % 256];
    LastByte([e % 256], d);
    assert [e % 256] + [d % 256] == [e % 256, d % 256];
    LastByte([e % 256, d % 256], c);
    assert [e % 256, d % 256] + [c % 256] == [e % 256, d % 256, c % 256];
    LastByte([e % 256, d % 256, c % 256], b);
    assert [e % 256, d % 256, c % 256] + [b % 256] == [e % 256, d % 256, c % 256, b % 256];
    LastByte([e % 256, d % 256, c % 256, b % 256], a);
    assert [e % 256, d % 256, c % 256, b % 256] + [a % 256] == [e % 256, d % 256, c % 256, b % 256, a % 256];
    LastByte([e % 256, d % 256, c % 256, b % 256, a % 256], now);
    assert [e % 256, d % 256, c % 256, b % 256, a % 256] + [now % 256] == Stamp(now);
  }

  datatype Turn<T> = Turn(state: SessionState, result: Result<T>)

  datatype SessionState = SessionState(
    local: Uuid, remote: Bytes, me: Bytes, identity: Option<KeyId>, peerKey: KeyId,
    spkPub: Option<Pub>, spkPriv: Option<KeyId>, ratchet: Option<Ratchet>)
  {
    ghost predicate Valid() {
      ratchet.Some? ==> ratchet.value.Valid()
    }

    function CreateOffer(spk: KeyId): Turn<Message> {
      if identity.None? then Turn(this, Err(NoIdentityKey))
      else
        Turn(this.(spkPub := Some(Point(spk)), spkPriv := Some(spk)),
             Ok(Offer(identity.value, Point(spk), Signature(identity.value, Point(spk)), local, me)))
    }

    function ReceiveOffer(offer: Message, ek: KeyId, own: KeyId, noise: Bytes): Turn<Message>
      requires offer.Offer?
    {
      if offer.idKey != peerKey then Turn(this, Err(PeerRefused))
      else if !Verify(offer.idKey, offer.spKey, offer.spSig) then Turn(this, Err(BadSignature))
      else if identity.None? then Turn(this, Err(NoIdentityKey))
      else
        match InitialMessage(identity.value, offer.idKey, offer.spKey, offer.spSig, ek)
        case Err(e) => Turn(this, Err(e))
        case Ok(opening) =>
          var sealing := CreateActive(opening.sessKey, opening.ad, offer.spKey, own).Encrypt(local + noise, own);
          var named := this.(remote := offer.uuid, ratchet := Some(sealing.state));
          if sealing.result.Err? then Turn(named, Err(sealing.result.error))
          else Turn(named.(identity := None), Ok(Ack(identity.value, opening.ekPub, offer.uuid, sealing.result.value)))
    }

    function ReceiveAck(ack: Message, draw: KeyId): Turn<()>
      requires ack.Ack?
    {
      if ratchet.Some? then Turn(this, Err(WrongState))
      else if ack.idKey != peerKey then Turn(this, Err(PeerRefused))
      else if identity.None? then Turn(this, Err(NoIdentityKey))
      else
        match ReceivedMessage(identity.value, ack.idKey, spkPriv, ack.eKey)
        case Err(e) => Turn(this, Err(e))
        case Ok(secured) =>
          if spkPub.None? || spkPriv.None? then Turn(this, Err(NoPrivateKey))
          else
            var passive := CreatePassive(secured.sessKey, secured.ad, spkPub.value, spkPriv.value);
            var opening := passive.Decrypt(ack.cipher, draw);
            var cleared := this.(spkPub := None, spkPriv := None, ratchet := Some(opening.state));
            if opening.result.Err? then Turn(cleared, Err(opening.result.error))
            else if |opening.result.value| < 16 then Turn(cleared, Err(IndexPanic))
            else Turn(cleared.(remote := opening.result.value[..16], identity := None), Ok(()))
    }

    function ReceiveData(payload: Ciphertext, draw: KeyId): Turn<Bytes>
      requires ratchet.Some? ==> (ratchet.value.recv.Some? ==> ratchet.value.peer.Some?)
    {
      if ratchet.None? then Turn(this, Err(WrongState))
      else
        var o := ratchet.value.Decrypt(payload, draw);
        Turn(this.(ratchet := Some(o.state)), o.result)
    }

    /** `draws` are the key pairs that may be drawn, `noise` the seven random bytes of an answer. */
    function Receive(msg: Message, draws: (KeyId, KeyId), noise: Bytes): Turn<Received>
      requires ratchet.Some? ==> (ratchet.value.recv.Some? ==> ratchet.value.peer.Some?)
    {
      match msg
      case Offer(_, _, _, _, _) =>
        var t := ReceiveOffer(msg, draws.0, draws.1, noise);
        Turn(t.state, if t.result.Ok? then Ok(Established(Some(t.result.value))) else Err(t.result.error))
      case Ack(_, _, _, _) =>
        var t := ReceiveAck(msg, draws.0);
        Turn(t.state, if t.result.Ok? then Ok(Established(None)) else Err(t.result.error))
      case Data(_, payload) =>
        var t := ReceiveData(payload, draws.0);
        Turn(t.state, if t.result.Ok? then Ok(Plaintext(t.result.value)) else Err(t.result.error))
      case Close(_) => Turn(this, Ok(Closed))
    }

    function Send(plaintext: Bytes, draw: KeyId, now: nat): Turn<Message> {
      if ratchet.None? then Turn(this, Err(WrongState))
      else
        var o := ratchet.value.Encrypt(plaintext, draw);
        Turn(this.(ratchet := Some(o.state)),
             if o.result.Ok? then Ok(Data(EncTime(remote, now), o.result.value)) else Err(o.result.error))
    }

    function Shut(): Turn<Message> {
      Turn(this.(spkPub := None, spkPriv := None, ratchet := None), Ok(Close(Fit(remote, 16))))
    }
  }

  /** A data message names the peer's session and tells when it was sent; sending moves the ratchet and nothing else. */
  lemma {:induction false} SentIs(s: SessionState, plaintext: Bytes, draw: KeyId, now: nat)
    ensures var t := s.Send(plaintext, draw, now);
            && (t.result.Ok? <==> s.ratchet.Some? && s.ratchet.value.Encrypt(plaintext, draw).result.Ok?)
            && (s.ratchet.None? ==> t == Turn(s, Err(WrongState)))
            && (s.ratchet.Some? ==> t.state == s.(ratchet := Some(s.ratchet.value.Encrypt(plaintext, draw).state)))
            && (t.result.Ok? ==>
                  && t.result.value.Data?
                  && Ok(t.result.value.payload) == s.ratchet.value.Encrypt(plaintext, draw).result
                  && Entropy(t.result.value.uuid) == Entropy(Fit(s.remote, 16))
                  && (now < 0x1_0000_0000_0000 ==> FromBig(t.result.value.uuid[..6]) == now))
  {
    hide Ratchet.Encrypt, EncTime;
    EncTimeIsBigEndian(s.remote, now);
  }

  /** The encoded fields of a session; the identity key is not among them. */
  datatype SavedSession = SavedSession(
    local: Uuid, remote: Bytes, me: Bytes, spkPub: Option<Pub>, spkPriv: Option<KeyId>, ratchet: Option<Saved>)

  function SaveSession(s: SessionState): SavedSession {
    SavedSession(s.local, s.remote, s.me, s.spkPub, s.spkPriv,
                 if s.ratchet.None? then None else Some(Save(s.ratchet.value)))
  }

  /** A loaded session gets the identity key back only while it is not active. */
  function RestoreSession(saved: SavedSession, peerKey: KeyId, key: KeyId): SessionState {
    SessionState(saved.local, saved.remote, saved.me, if saved.ratchet.None? then Some(key) else None, peerKey,
                 saved.spkPub, saved.spkPriv,
                 if saved.ratchet.None? then None else Some(Restore(saved.ratchet.value)))
  }

  /**
   A session comes back from storage exactly if it holds the identity key as long as it has no ratchet
   and no longer, and if nothing of its ratchet is lost; all other fields always come back.
   */
  lemma {:induction false} SessionReloadIsExactIff(s: SessionState, key: KeyId)
    ensures var t := RestoreSession(SaveSession(s), s.peerKey, key);
            && t == s.(identity := t.identity, ratchet := t.ratchet)
            && (t.identity == if s.ratchet.None? then Some(key) else None)
            && (t.ratchet.Some? <==> s.ratchet.Some?)
            && (s.ratchet.Some? ==>
                  t.ratchet.value == s.ratchet.value.(prevSendNo := 0, buffer := t.ratchet.value.buffer))
            && (t == s <==>
                  && s.identity == (if s.ratchet.None? then Some(key) else None)
                  && (s.ratchet.Some? ==> s.ratchet.value.prevSendNo == 0 && |s.ratchet.value.buffer| <= 1))
  {
    if s.ratchet.Some? {
      ReloadIsExactIff(s.ratchet.value);
    }
  }

  ghost predicate Loadable(saved: SavedSession) {
    saved.ratchet.Some? ==> Restore(saved.ratchet.value).Valid()
  }

  lemma {:induction false} SavedIsLoadable(s: SessionState)
    requires s.Valid()
    ensures Loadable(SaveSession(s))
  {
    if s.ratchet.Some? {
      ReloadIsExactIff(s.ratchet.value);
    }
  }

  lemma {:induction false} ReceiveKeepsValid(s: SessionState, msg: Message, draws: (KeyId, KeyId), noise: Bytes)
    requires s.Valid()
    ensures s.Receive(msg, draws, noise).state.Valid()
  {
    match msg
    case Offer(idKey, spKey, sig, _, _) =>
      if s.identity.Some? {
        match InitialMessage(s.identity.value, idKey, spKey, sig, draws.0)
        case Ok(o) =>
          OperationsKeepValid(CreateActive(o.sessKey, o.ad, spKey, draws.1), s.local + noise, Short, draws.1);
        case Err(_) =>
      }
    case Ack(idKey, eKey, _, cipher) =>
      if s.identity.Some? && s.spkPub.Some? && s.spkPriv.Some? {
        match ReceivedMessage(s.identity.value, idKey, s.spkPriv, eKey)
        case Ok(o) =>
          var passive := CreatePassive(o.sessKey, o.ad, s.spkPub.value, s.spkPriv.value);
          OperationsKeepValid(passive, [], cipher, draws.0);
        case Err(_) =>
      }
    case Data(_, payload) =>
      if s.ratchet.Some? {
        OperationsKeepValid(s.ratchet.value, [], payload, draws.0);
      }
    case Close(_) =>
  }

  /** The ratchet of a session has opened or made its first message, and so has a sending chain. */
  ghost predicate Ready(s: SessionState) {
    s.ratchet.Some? ==> s.ratchet.value.send.Some?
  }

  /** A session is never stored with a ratchet that has no sending chain; without a ratchet it refuses data as it is. */
  lemma {:induction false} ReceiveKeepsReady(s: SessionState, msg: Message, draws: (KeyId, KeyId), noise: Bytes)
    requires s.Valid() && Ready(s)
    ensures s.Receive(msg, draws, noise).result.Ok? ==> Ready(s.Receive(msg, draws, noise).state)
    ensures msg.Data? && s.ratchet.None? ==> s.Receive(msg, draws, noise) == Turn(s, Err(WrongState))
  {
    match msg
    case Offer(_, spKey, _, _, _) =>
    case Ack(idKey, eKey, _, cipher) =>
      if s.identity.Some? && s.spkPub.Some? && s.spkPriv.Some? {
        match ReceivedMessage(s.identity.value, idKey, s.spkPriv, eKey)
        case Ok(o) => OpensReady(CreatePassive(o.sessKey, o.ad, s.spkPub.value, s.spkPriv.value), cipher, draws.0);
        case Err(_) =>
      }
    case Data(_, payload) =>
      if s.ratchet.Some? {
        OpensReady(s.ratchet.value, payload, draws.0);
      }
    case Close(_) =>
  }

  lemma {:induction false} OpensReady(p: Ratchet, c: Ciphertext, draw: KeyId)
    requires p.Valid() && (p.send.Some? || p.peer.None?)
    ensures p.Decrypt(c, draw).result.Ok? ==> p.Decrypt(c, draw).state.send.Some?
  {
    if c.Packet? {
      var h := c.header;
      if p.peer == Some(h.dhPub) {
        SkipValid(p, h.msgNo);
      } else {
        SkipValid(p, h.prevNo);
        var moved := p.Rekey(h, draw);
        if moved.result.Ok? {
          RekeyReady(p, h, draw);
          SkipValid(moved.state, h.msgNo);
        }
      }
    }
  }

  lemma {:induction false} RekeyReady(p: Ratchet, h: Header, draw: KeyId)
    requires p.Valid()
    ensures p.Rekey(h, draw).result.Ok? ==> p.Rekey(h, draw).state.send.Some? && p.Rekey(h, draw).state.Valid()
  {
    hide Ratchet.SkipTo;
    SkipValid(p, h.prevNo);
  }

  /** The session object. */
  class Session {
    const localUuid: Uuid
    var remoteUuid: Bytes
    const me: Bytes
    var identityKey: Option<KeyId>
    const peerKey: KeyId
    var spkPub: Option<Pub>
    var spkPriv: Option<KeyId>
    var doubleRatchet: DoubleRatchet?

    ghost function Footprint(): set<object>
      reads this, doubleRatchet
    {
      if doubleRatchet == null then {} else doubleRatchet.Footprint()
    }

    ghost predicate Valid()
      reads this, doubleRatchet, Footprint()
    {
      doubleRatchet != null ==> doubleRatchet.Valid()
    }

    ghost predicate Readable()
      reads this, doubleRatchet, Footprint()
    {
      doubleRatchet != null ==> doubleRatchet.Readable()
    }

    ghost function Value(): SessionState
      requires Readable()
      reads this, doubleRatchet, Footprint()
    {
      SessionState(localUuid, remoteUuid, me, identityKey, peerKey, spkPub, spkPriv,
                   if doubleRatchet == null then None else Some(doubleRatchet.Value()))
    }

    constructor (local: Uuid, nick: Bytes, identity: KeyId, peer: KeyId)
      ensures Valid() && doubleRatchet == null
      ensures Value() == SessionState(local, [], nick, Some(identity), peer, None, None, None)
    {
      localUuid, remoteUuid, me := local, [], nick;
      identityKey, peerKey := Some(identity), peer;
      spkPub, spkPriv, doubleRatchet := None, None, null;
    }

    constructor Load(saved: SavedSession, peer: KeyId, key: KeyId)
      ensures Readable() && (doubleRatchet != null ==> fresh(doubleRatchet) && fresh(Footprint()))
      ensures Value() == RestoreSession(saved, peer, key)
      ensures Valid() <==> Loadable(saved)
    {
      localUuid, remoteUuid, me := saved.local, saved.remote, saved.me;
      spkPub, spkPriv, peerKey := saved.spkPub, saved.spkPriv, peer;
      if saved.ratchet.Some? {
        doubleRatchet := new DoubleRatchet.UnmarshalBinary(saved.ratchet.value);
        identityKey := None;
      } else {
        doubleRatchet := null;
        identityKey := Some(key);
      }
    }

    method MarshalBinary() returns (saved: SavedSession)
      requires Valid()
      ensures saved == SaveSession(Value())
    {
      var ratchet := None;
      if doubleRatchet != null {
        var r := doubleRatchet.MarshalBinary();
        ratchet := Some(r);
      }
      saved := SavedSession(localUuid, remoteUuid, me, spkPub, spkPriv, ratchet);
    }

    method CreateOffer(spk: KeyId) returns (offer: Result<Message>)
      requires Valid()
      modifies this
      ensures Valid() && doubleRatchet == old(doubleRatchet)
      ensures Turn(Value(), offer) == old(Value()).CreateOffer(spk)
    {
      if identityKey.None? {
        return Err(NoIdentityKey);
      }
      spkPub, spkPriv := Some(Point(spk)), Some(spk);
      return Ok(Offer(identityKey.value, Point(spk), Signature(identityKey.value, Point(spk)), localUuid, me));
    }

    method ReceiveOffer(offer: Message, ek: KeyId, own: KeyId, noise: Bytes) returns (ack: Result<Message>)
      requires Valid() && offer.Offer?
      modifies this
      ensures Valid()
      ensures Turn(Value(), ack) == old(Value()).ReceiveOffer(offer, ek, own, noise)
    {
      hide Ratchet.Encrypt, Ratchet.Decrypt, KeyBuffer.Contents, KeyBuffer.Valid;
      hide IsMaterial, InitialMessage, ReceivedMessage;
      if offer.idKey != peerKey {
        return Err(PeerRefused);
      }
      if !Verify(offer.idKey, offer.spKey, offer.spSig) {
        return Err(BadSignature);
      }
      if identityKey.None? {
        return Err(NoIdentityKey);
      }
      var opening := CreateInitialMessage(identityKey.value, offer.idKey, offer.spKey, offer.spSig, ek);
      if opening.Err? {
        return Err(opening.error);
      }
      remoteUuid := offer.uuid;
      var ratchet := new DoubleRatchet.CreateActive(opening.value.sessKey, opening.value.ad, offer.spKey, own);
      doubleRatchet := ratchet;
      var cipher := ratchet.Encrypt(localUuid + noise, own);
      if cipher.Err? {
        return Err(cipher.error);
      }
      ack := Ok(Ack(identityKey.value, opening.value.ekPub, offer.uuid, cipher.value));
      identityKey := None;
    }

    method ReceiveAck(ack: Message, draw: KeyId) returns (err: Result<()>)
      requires Valid() && ack.Ack?
      modifies this
      ensures Valid()
      ensures Turn(Value(), err) == old(Value()).ReceiveAck(ack, draw)
    {
      hide Ratchet.Encrypt, Ratchet.Decrypt, KeyBuffer.Contents, KeyBuffer.Valid;
      hide IsMaterial, InitialMessage, ReceivedMessage;
      if doubleRatchet != null {
        return Err(WrongState);
      }
      if ack.idKey != peerKey {
        return Err(PeerRefused);
      }
      if identityKey.None? {
        return Err(NoIdentityKey);
      }
      var secured := ReceiveInitialMessage(identityKey.value, ack.idKey, spkPriv, ack.eKey);
      if secured.Err? {
        return Err(secured.error);
      }
      if spkPub.None? || spkPriv.None? {
        return Err(NoPrivateKey);
      }
      var sessKey, ad := secured.value.sessKey, secured.value.ad;
      var ratchet := new DoubleRatchet.CreatePassive(sessKey, ad, spkPub.value, spkPriv.value);
      doubleRatchet := ratchet;
      spkPub, spkPriv := None, None;
      var plaintext := ratchet.Decrypt(ack.cipher, draw);
      if plaintext.Err? {
        return Err(plaintext.error);
      }
      if |plaintext.value| < 16 {
        return Err(IndexPanic);
      }
      remoteUuid := plaintext.value[..16];
      identityKey := None;
      return Ok(());
    }

    method ReceiveData(payload: Ciphertext, draw: KeyId) returns (plaintext: Result<Bytes>)
      requires Valid()
      modifies Footprint()
      ensures Valid() && doubleRatchet == old(doubleRatchet)
      ensures Turn(Value(), plaintext) == old(Value()).ReceiveData(payload, draw)
    {
      if doubleRatchet == null {
        return Err(WrongState);
      }
      plaintext := doubleRatchet.Decrypt(payload, draw);
    }

    method Receive(msg: Message, draws: (KeyId, KeyId), noise: Bytes) returns (received: Result<Received>)
      requires Valid()
      modifies this, Footprint()
      ensures Valid()
      ensures Turn(Value(), received) == old(Value()).Receive(msg, draws, noise)
    {
      match msg
      case Offer(_, _, _, _, _) =>
        var ack := ReceiveOffer(msg, draws.0, draws.1, noise);
        return if ack.Ok? then Ok(Established(Some(ack.value))) else Err(ack.error);
      case Ack(_, _, _, _) =>
        var err := ReceiveAck(msg, draws.0);
        return if err.Ok? then Ok(Established(None)) else Err(err.error);
      case Data(_, payload) =>
        var plaintext := ReceiveData(payload, draws.0);
        return if plaintext.Ok? then Ok(Plaintext(plaintext.value)) else Err(plaintext.error);
      case Close(_) =>
        return Ok(Closed);
    }

    method Send(plaintext: Bytes, draw: KeyId, now: nat) returns (msg: Result<Message>)
      requires Valid()
      modifies Footprint()
      ensures Valid() && doubleRatchet == old(doubleRatchet)
      ensures Turn(Value(), msg) == old(Value()).Send(plaintext, draw, now)
    {
      if doubleRatchet == null {
        return Err(WrongState);
      }
      var cipher := doubleRatchet.Encrypt(plaintext, draw);
      if cipher.Err? {
        return Err(cipher.error);
      }
      return Ok(Data(EncTime(remoteUuid, now), cipher.value));
    }

    method Close() returns (msg: Message)
      requires Valid()
      modifies this
      ensures Valid()
      ensures Turn(Value(), Ok(msg)) == old(Value()).Shut()
    {
      spkPub, spkPriv := None, None;
      doubleRatchet := null;
      msg := Message.Close(Fit(remoteUuid, 16));
    }
  }
}
