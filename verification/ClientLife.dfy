/**
 What a client keeps on disk besides the ratchet: whose session it is and which answer is still
 to be sent.  Who may create or change a file, and what a close message leaves behind.
 */
module ClientLife {
  import opened Wrappers
  import opened Arithmetic
  import opened Keys
  import opened Ratchets
  import opened Persistence
  import opened Sync
  import opened X3dh
  import opened Sessions
  import opened Trust
  import opened Clients
  import opened ClientRuns

  // ---------- Offers and acknowledgements ----------

  /**
   An offer is stored if and only if the peer's own identity key made it.  What is stored under the
   offering name is that key and the answer; any other offer changes no file.
   */
  lemma {:induction false} OfferIsStoredIff(
    c: ClientState, offer: Message, made: Uuid, peer: KeyId, draws: (KeyId, KeyId), noise: Bytes)
    requires c.Valid() && offer.Offer?
    ensures var id := if offer.nick in c.sessions then c.sessions[offer.nick] else made;
            var d := c.Handle(offer, made, peer, draws, noise);
            && (d.result.Ok? <==> Believed(offer, peer))
            && (d.result.Err? ==> d.client.files == c.files)
            && (offer.idKey != peer ==> d.result == Err(PeerRefused))
            && d.client.sessions == c.sessions[offer.nick := id] && OthersKept(c, d.client, Entropy(id))
            && (d.result.Ok? ==>
                  && d.result.value.Some? && d.result.value.value.Established? && d.result.value.value.answer.Some?
                  && var answer := d.result.value.value.answer.value;
                     && answer.Ack? && answer.uuid == offer.uuid && answer.idKey == c.key
                     && Holds(d.client, id, offer.nick, peer, Some(answer))
                     && var s := d.client.Get(id).value.state;
                        s.local == id && s.remote == offer.uuid && s.identity == None && s.ratchet.Some?)
  {
    hide SessionState.ReceiveOffer;
    var (named, id) := c.ByName(offer.nick, made);
    OfferAcceptedIff(named.New(offer.nick, peer, id).state, offer, draws.0, draws.1, noise);
  }

  /**
   An acknowledgement is stored if and only if a session awaits it and its first message opens.  It
   clears the pending answer; any other acknowledgement leaves the client as it was.
   */
  lemma {:induction false} AckIsStoredIff(
    c: ClientState, ack: Message, made: Uuid, peer: KeyId, draws: (KeyId, KeyId), noise: Bytes)
    requires c.Valid() && ack.Ack?
    ensures var d := c.Handle(ack, made, peer, draws, noise);
            && (d.result == Ok(Some(Established(None))) <==>
                  && c.Get(ack.uuid).Ok? && Awaited(c.Get(ack.uuid).value.state, ack)
                  && OpensFirst(c.Get(ack.uuid).value.state, ack))
            && (d.result != Ok(Some(Established(None))) ==> d.client == c)
            && d.client.sessions == c.sessions && OthersKept(c, d.client, Entropy(ack.uuid))
            && (c.Get(ack.uuid).Ok? && c.Get(ack.uuid).value.state.peerKey != ack.idKey ==> d.result.Err?)
            && (d.result == Ok(Some(Established(None))) ==>
                  && Holds(d.client, ack.uuid, c.Get(ack.uuid).value.name, ack.idKey, None)
                  && d.client.Get(ack.uuid).value.state.ratchet.Some?
                  && d.client.Get(ack.uuid).value.state.remote == ack.cipher.body.plaintext[..16])
  {
    hide SessionState.ReceiveAck;
    if c.Get(ack.uuid).Ok? {
      AckAcceptedIff(c.Get(ack.uuid).value.state, ack, draws.0);
    }
  }

  // ---------- What data leaves alone ----------

  /** A data message is stored only if it was opened, and changes nothing but the ratchet of its session. */
  lemma {:induction false} DataKeepsTheRest(
    c: ClientState, msg: Message, made: Uuid, peer: KeyId, draws: (KeyId, KeyId), noise: Bytes)
    requires c.Valid() && msg.Data?
    ensures var d := c.Handle(msg, made, peer, draws, noise);
            && (c.Get(msg.uuid).Err? ==> d == Done(c, Ok(None)))
            && (d.result.Err? ==> d.client == c)
            && (c.Get(msg.uuid).Ok? && d.result.Ok? ==>
                  && d.result.value.Some? && d.result.value.value.Plaintext?
                  && SameButRatchet(c, d.client, msg.uuid))
  {
    hide Ratchet.Decrypt;
    if c.Get(msg.uuid).Ok? && c.Get(msg.uuid).value.state.ratchet.Some? {
      HandleData(c, msg, made, peer, draws, noise);
    }
  }

  /** The same names, files and stored fields, but for the ratchet of one session. */
  ghost predicate SameButRatchet(c: ClientState, d: ClientState, id: Uuid) {
    && c.Get(id).Ok? && c.Get(id).value.state.ratchet.Some?
    && d.sessions == c.sessions && OthersKept(c, d, Entropy(id))
    && var sess := c.Get(id).value;
       && Holds(d, id, sess.name, sess.state.peerKey, sess.pendingAck)
       && d.Get(id).value.state.ratchet.Some?
       && d.Get(id).value.state == sess.state.(ratchet := d.Get(id).value.state.ratchet)
  }

  /** Sending changes nothing but the ratchet of the session, and only if the message was made and posted. */
  lemma {:induction false} SendKeepsTheRest(
    c: ClientState, name: Bytes, made: Uuid, text: Bytes, draw: KeyId, now: nat, posted: bool)
    requires c.Valid() && name in c.sessions
    ensures var d := c.Send(name, made, text, draw, now, posted);
            && (d.result.Err? || !posted ==> d.client == c)
            && (d.result.Ok? && posted ==> SameButRatchet(c, d.client, c.sessions[name]))
  {
    hide Ratchet.Encrypt;
  }

  /** In every run each client keeps its pending answer and knows whose session it is. */
  lemma {:induction false} RunKeepsTheRest(
    v: Net, evs: seq<Event>, w: Net, r: Role, name: Bytes, peerKey: KeyId, pending: Option<Message>)
    requires Inv(v) && Run(v, evs, w) && Holds(v.Client(r), v.link.Id(r), name, peerKey, pending)
    ensures w.link == v.link && Holds(w.Client(r), w.link.Id(r), name, peerKey, pending)
    decreases |evs|
  {
    hide Inv, Enabled, After, Holds;
    if |evs| > 0 {
      var u := After(v, evs[0]);
      if evs[0].Send? {
        SendKeepsInv(v, evs[0]);
        StepSends(v, evs[0], r, name, peerKey, pending);
      } else {
        ArriveKeepsInv(v, evs[0]);
        StepArrives(v, evs[0], r, name, peerKey, pending);
      }
      RunKeepsTheRest(u, evs[1..], w, r, name, peerKey, pending);
    }
  }

  lemma {:induction false} StepSends(
    v: Net, ev: Event, r: Role, name: Bytes, peerKey: KeyId, pending: Option<Message>)
    requires Inv(v) && ev.Send? && Holds(v.Client(r), v.link.Id(r), name, peerKey, pending)
    ensures |v.s.keys| >= 2 && v.alice.Valid() && v.bob.Valid()
    ensures After(v, ev).link == v.link && Holds(After(v, ev).Client(r), v.link.Id(r), name, peerKey, pending)
  {
    hide InSync, Running, PostsOk, InboxOk, ClientState.Send, Announced;
    var c, name, id := v.Client(ev.from), v.link.PeerName(ev.from), v.link.Id(ev.from);
    SendKeepsTheRest(c, name, id, ev.text, ev.draw, ev.now, ev.posted);
  }

  lemma {:induction false} StepArrives(
    v: Net, ev: Event, r: Role, name: Bytes, peerKey: KeyId, pending: Option<Message>)
    requires Inv(v) && ev.Arrive? && Enabled(v, ev) && Holds(v.Client(r), v.link.Id(r), name, peerKey, pending)
    ensures |v.s.keys| >= 2 && v.alice.Valid() && v.bob.Valid()
    ensures After(v, ev).link == v.link && Holds(After(v, ev).Client(r), v.link.Id(r), name, peerKey, pending)
  {
    hide Linked, PostsOk, InboxOk, ClientState.Handle, Announced, ClientState.Get, PostOk;
    InvLinks(v);
    ArrivedFor(v, ev);
    LinkedValid(v.alice, Alice, v.link, v.s);
    LinkedValid(v.bob, Bob, v.link, v.s);
    var c := v.Client(ev.to);
    SameEntropy(c, ev.msg.uuid, v.link.Id(ev.to));
    DataKeepsTheRest(c, ev.msg, ev.made, ev.peer, ev.draws, ev.noise);
    var d := c.Handle(ev.msg, ev.made, ev.peer, ev.draws, ev.noise);
    SameEntropy(d.client, ev.msg.uuid, v.link.Id(ev.to));
  }

  lemma {:induction false} SameEntropy(c: ClientState, id: Uuid, id': Uuid)
    requires Entropy(id) == Entropy(id')
    ensures c.Get(id) == c.Get(id')
  {
  }

  lemma {:induction false} LinkedValid(c: ClientState, r: Role, link: Link, s: Schedule)
    requires Linked(c, r, link, s)
    ensures c.Valid() && |s.keys| >= 2
  {
  }

  lemma {:induction false} ArrivedFor(v: Net, ev: Event)
    requires Inv(v) && ev.Arrive? && Enabled(v, ev)
    ensures ev.msg.Data? && Entropy(ev.msg.uuid) == Entropy(v.link.Id(ev.to))
  {
    hide Linked, InboxOk, PostsOk;
    var x :| 0 <= x < |v.log| && v.log[x].sender == ev.to.Peer() && v.log[x].msg == ev.msg;
    assert PostsOk(v.log, v.link, v.s);
    PostAt(v, x);
  }

  // ---------- Sending the answer ----------

  /**
   Chat posts the pending answer, and clears it only if posting succeeded; it leaves the run as it
   was, so the answer can be posted before, between and after the data messages.
   */
  lemma {:induction false} ChatKeepsInv(
    w: Net, r: Role, peerKey: KeyId, pending: Option<Message>, peer: KeyId, made: Uuid, spk: KeyId, posted: bool)
    requires Inv(w) && Holds(w.Client(r), w.link.Id(r), w.link.PeerName(r), peerKey, pending)
    ensures var d := w.Client(r).Chat(w.link.PeerName(r), peer, made, spk, posted);
            var v := if r == Alice then w.(alice := d.client) else w.(bob := d.client);
            && d.result == Ok(pending)
            && Inv(v) && Linked(w.Client(r), r, w.link, w.s) && Linked(d.client, r, w.link, w.s)
            && Kept(v, r) == Kept(w, r)
            && Holds(d.client, w.link.Id(r), w.link.PeerName(r), peerKey, if posted then None else pending)
  {
    hide InSync, Running, PostsOk, InboxOk, Reloaded;
    var c, id := w.Client(r), w.link.Id(r);
    LinkedLoads(c, r, w.link, w.s, id);
    var sess := c.Get(id).value;
    if pending.Some? && posted {
      StoreLinked(c, r, w.link, w.s, w.s, sess.(pendingAck := None), sess.state.ratchet.value);
      assert Reloaded(Kept(w, r)) == Kept(w, r) by {
        ReloadOfLoaded(c.files[Entropy(id)].session.ratchet.value);
      }
    }
  }

  lemma {:induction false} ReloadOfLoaded(saved: Saved)
    ensures Reloaded(Restore(saved)) == Restore(saved)
  {
  }

  /** Where nothing is stored, Chat posts a new offer, and stores its session only if posting succeeded. */
  lemma {:induction false} ChatOffers(c: ClientState, name: Bytes, peer: KeyId, made: Uuid, spk: KeyId, posted: bool)
    requires c.Valid() && Entropy(c.ByName(name, made).1) !in c.files
    ensures var id := if name in c.sessions then c.sessions[name] else made;
            var d := c.Chat(name, peer, made, spk, posted);
            && d.result == Ok(Some(Offer(c.key, Point(spk), Signature(c.key, Point(spk)), id, c.me)))
            && d.client.sessions == c.sessions[name := id] && OthersKept(c, d.client, Entropy(id))
            && (!posted ==> d.client.files == c.files)
            && (posted ==>
                  && Holds(d.client, id, name, peer, None)
                  && d.client == c.Offer(name, peer, made, spk).client
                  && var s := d.client.Get(id).value.state;
                     && s.local == id && s.identity == Some(c.key) && s.ratchet.None?
                     && s.spkPriv == Some(spk) && s.spkPub == Some(Point(spk)))
  {
  }

  /**
   The whole handshake by client steps: Bob's Chat posts an offer, Alice stores her answer, her Chat
   posts it and Bob takes it.  Every run from there on is safe.
   */
  lemma {:induction false} ChatStartsRun(
    alice: ClientState, bob: ClientState, aliceName: Bytes, madeByAlice: Uuid, madeByBob: Uuid, k: Draws, noise: Bytes)
    returns (w: Net)
    requires alice.Valid() && bob.Valid() && Entropy(bob.ByName(aliceName, madeByBob).1) !in bob.files
    requires k.spk != k.own && k.own != k.draw && k.spk != k.draw
    ensures Inv(w) && w.log == [] && w.inbox == [] && w.s.keys == [k.spk, k.own, k.draw]
    ensures w.link == Link(aliceName, bob.me, alice.ByName(bob.me, madeByAlice).1, bob.ByName(aliceName, madeByBob).1)
    ensures var offered := bob.Chat(aliceName, alice.key, madeByBob, k.spk, true);
            && offered.result.Ok? && offered.result.value.Some? && offered.client.Valid()
            && var acked := alice.Handle(offered.result.value.value, madeByAlice, bob.key, (k.ek, k.own), noise);
               var answered := acked.client.Chat(bob.me, bob.key, madeByAlice, k.spk, true);
               && answered.result.Ok? && answered.result.value.Some?
               && var answer := answered.result.value.value;
                  var done := offered.client.Handle(answer, madeByBob, alice.key, (k.draw, 0), noise);
                  && done.result == Ok(Some(Established(None)))
                  && w.alice == answered.client && w.bob == done.client
    ensures Holds(w.alice, w.link.aliceId, bob.me, bob.key, None)
    ensures Holds(w.bob, w.link.bobId, aliceName, alice.key, None)
    ensures forall evs, z :: Run(w, evs, z) ==> Safe(z)
  {
    hide Run, Inv, Linked, ClientState.Handle, ClientState.Chat, ClientState.Offer, Kept, Numbered, Holds;
    ChatOffers(bob, aliceName, alice.key, madeByBob, k.spk, true);
    var v := HandshakeStartsRun(alice, bob, aliceName, madeByAlice, madeByBob, k, noise);
    OfferedIs(bob, aliceName, alice.key, madeByBob, k.spk);
    var offer := bob.Offer(aliceName, alice.key, madeByBob, k.spk).result.value;
    var answer := alice.Handle(offer, madeByAlice, bob.key, (k.ek, k.own), noise).result.value.value.answer;
    ChatKeepsInv(v, Alice, bob.key, answer, bob.key, madeByAlice, k.spk, true);
    w := v.(alice := v.alice.Chat(bob.me, bob.key, madeByAlice, k.spk, true).client);
    forall evs, z | Run(w, evs, z)
      ensures Safe(z)
    {
      EveryRunIsSafe(w, evs, z);
      InvLinks(z);
    }
  }

  lemma {:induction false} OfferedIs(c: ClientState, name: Bytes, peer: KeyId, made: Uuid, spk: KeyId)
    ensures var id := if name in c.sessions then c.sessions[name] else made;
            c.Offer(name, peer, made, spk).result
            == Ok(Offer(c.key, Point(spk), Signature(c.key, Point(spk)), id, c.me))
  {
  }

  // ---------- Closing ----------

  /** A message other than an offer that finds no session is dropped. */
  lemma {:induction false} UnknownIsDropped(
    c: ClientState, msg: Message, made: Uuid, peer: KeyId, draws: (KeyId, KeyId), noise: Bytes)
    requires c.Valid() && !msg.Offer? && Entropy(msg.uuid) !in c.files
    ensures c.Handle(msg, made, peer, draws, noise) == Done(c, Ok(None))
  {
  }

  /** A close message for a stored session removes its name and its file and nothing else. */
  lemma {:induction false} CloseForgets(
    c: ClientState, msg: Message, made: Uuid, peer: KeyId, draws: (KeyId, KeyId), noise: Bytes)
    requires c.Valid() && msg.Close? && Entropy(msg.uuid) in c.files
    ensures var d := c.Handle(msg, made, peer, draws, noise);
            && d.result == Ok(Some(Closed)) && d.client.Valid()
            && Forgot(c, d.client, c.files[Entropy(msg.uuid)].name, Entropy(msg.uuid))
  {
  }

  /** For a linked client: the peer's name is gone, and so is every later message for that identifier. */
  lemma {:induction false} CloseEndsLinked(
    c: ClientState, r: Role, link: Link, s: Schedule, msg: Message, next: Message, made: Uuid, peer: KeyId,
    draws: (KeyId, KeyId), noise: Bytes)
    requires Linked(c, r, link, s) && msg.Close? && Entropy(msg.uuid) == Entropy(link.Id(r))
    requires !next.Offer? && Entropy(next.uuid) == Entropy(link.Id(r))
    ensures c.Valid()
    ensures var d := c.Handle(msg, made, peer, draws, noise);
            && d.result == Ok(Some(Closed)) && d.client.Valid()
            && Forgot(c, d.client, link.PeerName(r), Entropy(link.Id(r)))
            && d.client.Handle(next, made, peer, draws, noise) == Done(d.client, Ok(None))
  {
    hide InSync, Running, ClientState.Handle;
    CloseForgets(c, msg, made, peer, draws, noise);
    UnknownIsDropped(c.Handle(msg, made, peer, draws, noise).client, next, made, peer, draws, noise);
  }

  /** Closing a stored session removes its name and its file and nothing else, if the message was posted. */
  lemma {:induction false} ShutForgets(c: ClientState, name: Bytes, made: Uuid, posted: bool)
    requires c.Valid() && name in c.sessions && Entropy(c.sessions[name]) in c.files
    requires c.files[Entropy(c.sessions[name])].name == name
    ensures var d := c.Shut(name, made, posted);
            && d.result == Ok(Close(Fit(c.files[Entropy(c.sessions[name])].session.remote, 16)))
            && (!posted ==> d.client == c)
            && (posted ==> d.client.Valid() && Forgot(c, d.client, name, Entropy(c.sessions[name])))
  {
  }

  /**
   One party closes and its message reaches the other: neither knows the other any more, nothing else
   is touched, and whatever was under way between them is dropped.
   */
  lemma {:induction false} CloseEndsBoth(
    w: Net, r: Role, made: Uuid, peer: KeyId, draws: (KeyId, KeyId), noise: Bytes)
    requires Inv(w)
    ensures w.Client(r).Valid() && w.Client(r.Peer()).Valid()
    ensures var q := r.Peer();
            var d := w.Client(r).Shut(w.link.PeerName(r), made, true);
            && d.result.Ok? && d.result.value.Close? && d.client.Valid()
            && Forgot(w.Client(r), d.client, w.link.PeerName(r), Entropy(w.link.Id(r)))
            && var p := w.Client(q).Handle(d.result.value, made, peer, draws, noise);
               && p.result == Ok(Some(Closed)) && p.client.Valid()
               && Forgot(w.Client(q), p.client, w.link.PeerName(q), Entropy(w.link.Id(q)))
               && p.client.Handle(d.result.value, made, peer, draws, noise) == Done(p.client, Ok(None))
               && (forall x :: 0 <= x < |w.log| && w.log[x].sender == q ==>
                     d.client.Handle(w.log[x].msg, made, peer, draws, noise) == Done(d.client, Ok(None)))
               && (forall x :: 0 <= x < |w.log| && w.log[x].sender == r ==>
                     p.client.Handle(w.log[x].msg, made, peer, draws, noise) == Done(p.client, Ok(None)))
  {
    hide InSync, Running, InboxOk, ClientState.Handle, ClientState.Shut, PostsOk;
    var q := r.Peer();
    ShutForgets(w.Client(r), w.link.PeerName(r), made, true);
    var d := w.Client(r).Shut(w.link.PeerName(r), made, true);
    CloseForgets(w.Client(q), d.result.value, made, peer, draws, noise);
    var p := w.Client(q).Handle(d.result.value, made, peer, draws, noise);
    UnknownIsDropped(p.client, d.result.value, made, peer, draws, noise);
    forall x | 0 <= x < |w.log|
      ensures w.log[x].sender == q ==>
                d.client.Handle(w.log[x].msg, made, peer, draws, noise) == Done(d.client, Ok(None))
      ensures w.log[x].sender == r ==>
                p.client.Handle(w.log[x].msg, made, peer, draws, noise) == Done(p.client, Ok(None))
    {
      PostAt(w, x);
      if w.log[x].sender == q {
        UnknownIsDropped(d.client, w.log[x].msg, made, peer, draws, noise);
      } else {
        UnknownIsDropped(p.client, w.log[x].msg, made, peer, draws, noise);
      }
    }
  }
}
