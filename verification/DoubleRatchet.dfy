/** The Double Ratchet object, proved to do what module Ratchets says. */
module DoubleRatchets {
  import opened Wrappers
  import opened Keys
  import opened SkippedKeys
  import opened KeyBuffers
  import opened DhRatchets
  import opened Ratchets
  import opened Persistence

  class DoubleRatchet {
    var associatedData: AssociatedData
    var dhr: DhRatchet
    var peerDhPub: Option<Pub>
    var chainKeySend: Option<Key>
    var chainKeyRecv: Option<Key>
    var sendNo: nat
    var recvNo: nat
    var prevSendNo: nat
    var msgKeyBuffer: KeyBuffer

    ghost predicate Readable()
      reads this, msgKeyBuffer
    {
      msgKeyBuffer.head <= msgKeyBuffer.slots.Length
    }

    ghost function Value(): Ratchet
      requires Readable()
      reads this, dhr, msgKeyBuffer, msgKeyBuffer.slots
    {
      Ratchet(associatedData, dhr.Value(), peerDhPub, chainKeySend, chainKeyRecv,
              sendNo, recvNo, prevSendNo, msgKeyBuffer.Contents())
    }

    /** The objects that make up a ratchet. */
    ghost function Footprint(): set<object>
      reads this
    {
      {this, dhr, msgKeyBuffer, msgKeyBuffer.slots}
    }

    ghost predicate Valid()
      reads this, dhr, msgKeyBuffer, msgKeyBuffer.slots
    {
      && msgKeyBuffer.Valid()
      && (chainKeyRecv.Some? ==> peerDhPub.Some?)
    }

    constructor CreateActive(sessKey: Key, ad: AssociatedData, peer: Pub, draw: KeyId)
      ensures Valid() && fresh(dhr) && fresh(msgKeyBuffer) && fresh(msgKeyBuffer.slots)
      ensures Value() == Ratchets.CreateActive(sessKey, ad, peer, draw)
    {
      associatedData := ad;
      dhr := new DhRatchet.CreateActive(sessKey, peer, draw);
      peerDhPub, chainKeySend, chainKeyRecv := Some(peer), None, None;
      sendNo, recvNo, prevSendNo := 0, 0, 0;
      msgKeyBuffer := new KeyBuffer();
    }

    constructor CreatePassive(sessKey: Key, ad: AssociatedData, pub: Pub, priv: KeyId)
      ensures Valid() && fresh(dhr) && fresh(msgKeyBuffer) && fresh(msgKeyBuffer.slots)
      ensures Value() == Ratchets.CreatePassive(sessKey, ad, pub, priv)
    {
      associatedData := ad;
      dhr := new DhRatchet.CreatePassive(sessKey, pub, priv);
      peerDhPub, chainKeySend, chainKeyRecv := None, None, None;
      sendNo, recvNo, prevSendNo := 0, 0, 0;
      msgKeyBuffer := new KeyBuffer();
    }

    /** Decodes into a new object; `prevSendNo` is not assigned and stays zero. */
    constructor UnmarshalBinary(saved: Saved)
      ensures fresh(dhr) && fresh(msgKeyBuffer) && fresh(msgKeyBuffer.slots) && msgKeyBuffer.Valid()
      ensures Value() == Restore(saved)
      ensures Valid() <==> (saved.recv.Some? ==> saved.peer.Some?)
    {
      hide KeyBuffer.Contents, DhRatchet.Value;
      prevSendNo := 0;
      associatedData := saved.ad;
      peerDhPub, chainKeySend, chainKeyRecv := saved.peer, saved.send, saved.recv;
      sendNo, recvNo := saved.sendNo, saved.recvNo;
      dhr := new DhRatchet.UnmarshalBinary(saved.dhr);
      var buffer := new KeyBuffer();
      buffer.UnmarshalBinary(saved.chains);
      msgKeyBuffer := buffer;
    }

    method MarshalBinary() returns (saved: Saved)
      requires Valid()
      ensures saved == Save(Value())
    {
      var dhRatchet := dhr.MarshalBinary();
      var chains := msgKeyBuffer.MarshalBinary();
      saved := Saved(associatedData, dhRatchet, peerDhPub, chainKeySend, chainKeyRecv,
                     sendNo, recvNo, prevSendNo, chains);
    }

    method DhStep(draw: KeyId) returns (err: Option<Error>)
      requires Valid()
      modifies this, dhr
      ensures Valid() && dhr == old(dhr) && msgKeyBuffer == old(msgKeyBuffer)
      ensures Value() == old(Value()).DhStep(draw).state
      ensures err == match old(Value()).DhStep(draw).result
                     case Ok(_) => None
                     case Err(e) => Some(e)
    {
      prevSendNo := sendNo;
      sendNo := 0;
      recvNo := 0;
      chainKeySend, chainKeyRecv, err := dhr.Step(peerDhPub, draw);
    }

    method Encrypt(plaintext: Bytes, draw: KeyId) returns (ciphertext: Result<Ciphertext>)
      requires Valid()
      modifies this, dhr
      ensures Valid() && dhr == old(dhr) && msgKeyBuffer == old(msgKeyBuffer)
      ensures Value() == old(Value()).Encrypt(plaintext, draw).state
      ensures ciphertext == old(Value()).Encrypt(plaintext, draw).result
    {
      if chainKeySend.None? {
        var err := DhStep(draw);
        if err.Some? {
          return Err(err.value);
        }
      }
      if chainKeySend.None? {
        return Err(NoChainKey);
      }
      var msgKey := MessageOf(chainKeySend.value);
      chainKeySend := Some(NextOf(chainKeySend.value));
      var prevNo, msgNo := prevSendNo, sendNo;
      sendNo := sendNo + 1;
      if prevNo >= NUMBER_LIMIT || msgNo >= NUMBER_LIMIT {
        return Err(HeaderNumber);
      }
      return Ok(Packet(Header(dhr.dhPub, prevNo, msgNo), Box(msgKey, associatedData, plaintext)));
    }

    method SkipMsgKeys(until: nat) returns (err: Option<Error>)
      requires Valid()
      modifies this, msgKeyBuffer, msgKeyBuffer.slots
      ensures Valid() && dhr == old(dhr) && msgKeyBuffer == old(msgKeyBuffer)
      ensures Value() == old(Value()).Skip(until).state
      ensures err == if old(Value()).Skip(until).result.Err? then Some(TooManySkipped) else None
    {
      hide Ratchet.SkipTo, SkippedKeys.Insert, KeyBuffer.Contents, DhRatchet.Value;
      if recvNo + MAX_SKIP_ELEMENTS < until {
        return Some(TooManySkipped);
      }
      if chainKeyRecv.None? {
        return None;
      }
      while recvNo < until
        invariant Valid() && dhr == old(dhr) && msgKeyBuffer == old(msgKeyBuffer)
        invariant dhr.Value() == old(dhr.Value())
        invariant chainKeyRecv.Some? && peerDhPub.Some?
        invariant Value().SkipTo(until) == old(Value()).SkipTo(until)
        decreases until - recvNo
      {
        SkipToStep(Value(), until);
        var msgKey := MessageOf(chainKeyRecv.value);
        chainKeyRecv := Some(NextOf(chainKeyRecv.value));
        msgKeyBuffer.Insert(peerDhPub.value, recvNo, msgKey);
        recvNo := recvNo + 1;
      }
      SkipToDone(Value(), until);
      return None;
    }

    method Decrypt(ciphertext: Ciphertext, draw: KeyId) returns (plaintext: Result<Bytes>)
      requires Valid()
      modifies this, dhr, msgKeyBuffer, msgKeyBuffer.slots
      ensures Valid() && dhr == old(dhr) && msgKeyBuffer == old(msgKeyBuffer)
      ensures Value() == old(Value()).Decrypt(ciphertext, draw).state
      ensures plaintext == old(Value()).Decrypt(ciphertext, draw).result
    {
      if ciphertext.Short? {
        return Err(ShortCiphertext);
      }
      var h := ciphertext.header;
      if peerDhPub != Some(h.dhPub) {
        var err := SkipMsgKeys(h.prevNo);
        if err.Some? {
          return Err(err.value);
        }
        peerDhPub := Some(h.dhPub);
        err := DhStep(draw);
        if err.Some? {
          return Err(err.value);
        }
      }
      plaintext := Receive(h, ciphertext.body);
    }

    /** The second half of Decrypt: find or derive the message key and open the body. */
    method Receive(h: Header, body: Body) returns (plaintext: Result<Bytes>)
      requires Valid()
      modifies this, msgKeyBuffer, msgKeyBuffer.slots
      ensures Valid() && dhr == old(dhr) && msgKeyBuffer == old(msgKeyBuffer)
      ensures Value() == old(Value()).Receive(h, body).state
      ensures plaintext == old(Value()).Receive(h, body).result
    {
      hide KeyBuffer.Contents, DhRatchet.Value, Ratchet.SkipTo, SkippedKeys.Find;
      var msgKey;
      if h.msgNo < recvNo {
        var found := msgKeyBuffer.Find(h.dhPub, h.msgNo);
        if found.Err? {
          return Err(found.error);
        }
        msgKey := found.value;
      } else {
        if h.msgNo > recvNo {
          SkipValid(Value(), h.msgNo);
          var err := SkipMsgKeys(h.msgNo);
          if err.Some? {
            return Err(err.value);
          }
        }
        if chainKeyRecv.None? {
          return Err(NoChainKey);
        }
        msgKey := MessageOf(chainKeyRecv.value);
        chainKeyRecv := Some(NextOf(chainKeyRecv.value));
        recvNo := recvNo + 1;
      }
      return OpenBody(msgKey, body, associatedData);
    }
  }
}
