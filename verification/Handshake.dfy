/** Offer, acknowledge and receive put the two parties into step. */
module Handshake {
  import opened Wrappers
  import opened Keys
  import opened Ratchets
  import opened Inserts
  import opened X3dh
  import opened Sync
  import opened Sessions

  lemma {:induction false} StartInSync(seed: Key, ad: AssociatedData, spk: KeyId, own: KeyId)
    requires spk != own
    ensures var s := Schedule([spk, own], seed, ad);
            && InSync(CreateActive(seed, ad, Point(spk), own), Alice, s)
            && InSync(CreatePassive(seed, ad, Point(spk), spk), Bob, s)
            && !Listening(CreateActive(seed, ad, Point(spk), own), s)
  {
  }

  /** A ratchet without a receiving chain that reads number zero caches nothing. */
  lemma {:induction false} FirstCachesNothing(p: Ratchet, c: Ciphertext, draw: KeyId)
    requires p.Valid() && p.recv.None? && p.buffer == [] && c.Packet? && c.header.msgNo == 0 && c.header.prevNo == 0
    ensures p.Decrypt(c, draw).state.buffer == []
  {
    hide Ratchet.Decrypt;
    DecryptBuffer(p, c, draw);
    SkipValid(p, 0);
  }

  /** The acknowledging party's first packet, and both ratchets once it was opened. */
  lemma {:induction false} FirstPacket(
    seed: Key, ad: AssociatedData, spk: KeyId, own: KeyId, draw: KeyId, plaintext: Bytes)
    requires spk != own && own != draw && spk != draw
    ensures var s := Schedule([spk, own, draw], seed, ad);
            var sealing := CreateActive(seed, ad, Point(spk), own).Encrypt(plaintext, own);
            && sealing.result.Ok? && sealing.result.value.Packet?
            && var opening := CreatePassive(seed, ad, Point(spk), spk).Decrypt(sealing.result.value, draw);
               && opening.result == Ok(plaintext)
               && InSync(sealing.state, Alice, s) && Running(sealing.state, Alice, s)
               && InSync(opening.state, Bob, s) && Running(opening.state, Bob, s)
               && sealing.state.sendNo == 1 && opening.state.sendNo == 0
               && opening.state.recvNo == 1 && opening.state.buffer == []
  {
    hide InSync, Running, Waiting, Listening, Ratchet.Encrypt, Ratchet.Decrypt, Schedule.Message;
    var s := Schedule([spk, own], seed, ad);
    assert s.Draw(draw) == Schedule([spk, own, draw], seed, ad);
    var alice, bob := CreateActive(seed, ad, Point(spk), own), CreatePassive(seed, ad, Point(spk), spk);
    StartInSync(seed, ad, spk, own);
    EncryptInSync(alice, Alice, s, plaintext, own);
    var sealing := alice.Encrypt(plaintext, own);
    PeerDraws(sealing.state, Alice, s, draw);
    DecryptFollows(bob, Bob, s, sealing.result.value, plaintext, draw);
    FirstCachesNothing(bob, sealing.result.value, draw);
  }

  /**
   If each party trusts the other's identity key, the handshake leaves both sessions active, with
   the same session key and associated data, each with the other's identifier, and in step.
   */
  lemma {:induction false} HandshakeInSync(
    offerer: SessionState, acker: SessionState, spk: KeyId, ek: KeyId, own: KeyId, draw: KeyId, noise: Bytes)
    requires offerer.identity == Some(acker.peerKey) && acker.identity == Some(offerer.peerKey)
    requires offerer.ratchet.None?
    requires spk != own && own != draw && spk != draw
    ensures var offered := offerer.CreateOffer(spk);
            && offered.result.Ok? && offered.result.value.Offer?
            && var acked := acker.ReceiveOffer(offered.result.value, ek, own, noise);
               && acked.result.Ok? && acked.result.value.Ack?
               && var done := offered.state.ReceiveAck(acked.result.value, draw);
                  && done.result.Ok?
                  && acked.state.ratchet.Some? && done.state.ratchet.Some?
                  && acked.state.remote == offerer.local && done.state.remote == acker.local
                  && acked.state.identity == None && done.state.identity == None
                  && acked.state.ratchet.value.sendNo == 1 && done.state.ratchet.value.sendNo == 0
                  && done.state.ratchet.value.recvNo == 1 && done.state.ratchet.value.buffer == []
                  && exists seed :: var s := Schedule([spk, own, draw], seed, [offerer.peerKey, acker.peerKey]);
                       && InSync(acked.state.ratchet.value, Alice, s) && Running(acked.state.ratchet.value, Alice, s)
                       && InSync(done.state.ratchet.value, Bob, s) && Running(done.state.ratchet.value, Bob, s)
  {
    var a, b := offerer.peerKey, acker.peerKey;
    BothSidesAgree(a, b, spk, ek);
    var o := InitialMessage(a, b, Point(spk), Signature(b, Point(spk)), ek).value;
    FirstPacket(o.sessKey, o.ad, spk, own, draw, acker.local + noise);
    var s := Schedule([spk, own, draw], o.sessKey, [a, b]);
    assert (acker.local + noise)[..16] == acker.local;
  }
}
