/**
 Two clients after a completed handshake.  Every operation is bracketed by a load and a store, a
 rejected message is not stored, and the network may deliver any message, however late, any
 number of times or never.
 */
module ClientRuns {
  import opened Wrappers
  import opened Arithmetic
  import opened Keys
  import opened SkippedKeys
  import opened Ratchets
  import opened Persistence
  import opened Sync
  import opened Sessions
  import opened Handshake
  import opened Clients

  /**
   A data message that was made: by whom, at which position of the schedule, from which plaintext,
   and whether its sender has stored the state after it.
   */
  datatype Post = Post(sender: Role, chain: nat, plaintext: Bytes, msg: Message, stored: bool)

  /** A plaintext that a client took from a message. */
  datatype Delivery = Delivery(to: Role, msg: Message, plaintext: Bytes)

  /** Who talks to whom: the names they use and the identifiers of their sessions. */
  datatype Link = Link(aliceName: Bytes, bobName: Bytes, aliceId: Uuid, bobId: Uuid) {
    function Id(r: Role): Uuid {
      if r == Alice then aliceId else bobId
    }

    /** The name by which a party knows its peer. */
    function PeerName(r: Role): Bytes {
      if r == Alice then bobName else aliceName
    }
  }

  datatype Net = Net(
    alice: ClientState, bob: ClientState, link: Link, s: Schedule, log: seq<Post>, inbox: seq<Delivery>)
  {
    function Client(r: Role): ClientState {
      if r == Alice then alice else bob
    }

    function With(r: Role, c: ClientState, draw: KeyId): Net {
      var drawn := if Announced(c, link.Id(r)) != Announced(Client(r), link.Id(r)) then s.Draw(draw) else s;
      if r == Alice then this.(alice := c, s := drawn) else this.(bob := c, s := drawn)
    }
  }

  /** The public key that a stored session announces. */
  function Announced(c: ClientState, id: Uuid): Option<Pub> {
    if Entropy(id) in c.files && c.files[Entropy(id)].session.ratchet.Some?
    then Some(c.files[Entropy(id)].session.ratchet.value.dhr.pub) else None
  }

  datatype Event =
    | Send(from: Role, text: Bytes, draw: KeyId, now: nat, posted: bool)
    | Arrive(to: Role, msg: Message, made: Uuid, peer: KeyId, draws: (KeyId, KeyId), noise: Bytes)

  /** Only messages that the peer made can arrive; they may be stale or arrive again. */
  ghost predicate Enabled(w: Net, ev: Event) {
    match ev
    case Send(_, _, draw, _, _) => draw !in w.s.keys
    case Arrive(r, msg, _, _, draws, _) => draws.0 !in w.s.keys && Made(w.log, r.Peer(), msg)
  }

  ghost predicate Made(log: seq<Post>, sender: Role, msg: Message) {
    exists x :: 0 <= x < |log| && log[x].sender == sender && log[x].msg == msg
  }

  /** A message that was made is on the network even if posting it reported an error. */
  function After(w: Net, ev: Event): Net
    requires |w.s.keys| >= 2 && w.alice.Valid() && w.bob.Valid()
  {
    match ev
    case Send(r, text, draw, now, posted) =>
      var d := w.Client(r).Send(w.link.PeerName(r), w.link.Id(r), text, draw, now, posted);
      var v := w.With(r, d.client, draw);
      if d.result.Err? || |v.s.keys| < 2 then v
      else v.(log := v.log + [Post(r, Epoch(v.s, r), text, d.result.value, posted)])
    case Arrive(r, msg, made, peer, draws, noise) =>
      var d := w.Client(r).Handle(msg, made, peer, draws, noise);
      var v := w.With(r, d.client, draws.0);
      match d.result
      case Ok(Some(Plaintext(text))) => v.(inbox := v.inbox + [Delivery(r, msg, text)])
      case _ => v
  }

  // ---------- The invariant ----------

  /** The stored session of a party: in step with the schedule once it is loaded. */
  ghost predicate Linked(c: ClientState, r: Role, link: Link, s: Schedule) {
    var id := link.Id(r);
    && c.Valid()
    && link.PeerName(r) in c.sessions && c.sessions[link.PeerName(r)] == id
    && Entropy(id) in c.files && c.files[Entropy(id)].name == link.PeerName(r)
    && var saved := c.files[Entropy(id)].session;
       && saved.local == id && saved.remote == link.Id(r.Peer())
       && saved.ratchet.Some?
       && InSync(Restore(saved.ratchet.value), r, s) && Running(Restore(saved.ratchet.value), r, s)
  }

  /** A posted message: sealed with its sender's key for its number, addressed to the peer's session. */
  ghost predicate PostOk(p: Post, link: Link, s: Schedule)
    requires |s.keys| >= 2
  {
    && 0 < p.chain <= Epoch(s, p.sender) && Owns(p.sender, p.chain)
    && p.msg.Data? && Entropy(p.msg.uuid) == Entropy(link.Id(p.sender.Peer()))
    && p.msg.payload.Packet?
    && var c := p.msg.payload;
       c.header.dhPub == s.Pub(p.chain) && c.header.prevNo == 0
       && c.body == Box(s.Message(p.chain, c.header.msgNo), s.ad, p.plaintext)
  }

  ghost predicate PostsOk(log: seq<Post>, link: Link, s: Schedule) {
    |s.keys| >= 2 && forall x :: 0 <= x < |log| ==> PostOk(log[x], link, s)
  }

  /** What a client took from a message is what its peer put into it. */
  ghost predicate InboxOk(inbox: seq<Delivery>, log: seq<Post>) {
    forall d :: 0 <= d < |inbox| ==> Genuine(inbox[d], log)
  }

  ghost predicate Genuine(d: Delivery, log: seq<Post>) {
    exists x :: 0 <= x < |log| && log[x].sender == d.to.Peer() && log[x].msg == d.msg && log[x].plaintext == d.plaintext
  }

  ghost predicate Inv(w: Net) {
    && w.s.Valid()
    && Linked(w.alice, Alice, w.link, w.s)
    && Linked(w.bob, Bob, w.link, w.s)
    && PostsOk(w.log, w.link, w.s)
    && InboxOk(w.inbox, w.log)
  }

  /** The ratchet that a party loads. */
  ghost function Kept(w: Net, r: Role): Ratchet
    requires Linked(w.Client(r), r, w.link, w.s)
  {
    Restore(w.Client(r).files[Entropy(w.link.Id(r))].session.ratchet.value)
  }

  /** The messages on chain `i` after which their sender has stored its state. */
  function StoredCount(log: seq<Post>, i: int): nat {
    if |log| == 0 then 0
    else StoredCount(log[..|log| - 1], i) + if log[|log| - 1].chain == i && log[|log| - 1].stored then 1 else 0
  }

  /** The first number of chain 1 was used in the handshake. */
  function Base(i: int): nat {
    if i == 1 then 1 else 0
  }

  /** Numbers count what was stored. */
  ghost predicate Numbered(w: Net)
    requires Inv(w)
  {
    && |w.s.keys| >= 3
    && (forall r: Role :: Kept(w, r).sendNo == Base(Epoch(w.s, r)) + StoredCount(w.log, Epoch(w.s, r)))
    && (forall x :: 0 <= x < |w.log| ==> NumberOk(w.log, x))
  }

  ghost predicate NumberOk(log: seq<Post>, x: nat)
    requires x < |log|
  {
    && log[x].msg.Data? && log[x].msg.payload.Packet?
    && log[x].msg.payload.header.msgNo == Base(log[x].chain) + StoredCount(log[..x], log[x].chain)
  }

  // ---------- Loading and storing ----------

  /** Storing a session whose ratchet is in step keeps the client linked. */
  lemma {:induction false} StoreLinked(
    c: ClientState, r: Role, link: Link, s: Schedule, t: Schedule, sess: Loaded, p: Ratchet)
    requires Linked(c, r, link, s)
    requires InSync(p, r, t) && Running(p, r, t)
    requires sess.state.local == link.Id(r) && sess.state.remote == link.Id(r.Peer()) && sess.state.ratchet == Some(p)
    requires sess.name == link.PeerName(r)
    ensures Linked(c.Put(sess), r, link, t)
    ensures Announced(c.Put(sess), link.Id(r)) == Some(p.dhr.pub)
  {
    hide InSync, Running, CacheSound;
    ReloadInSync(p, r, t);
    SavedIsLoadable(sess.state) by {
      assert p.Valid() by { InSyncValid(p, r, t); }
    }
  }

  /** What a linked client finds on disk. */
  lemma {:induction false} LinkedLoads(c: ClientState, r: Role, link: Link, s: Schedule, id: Uuid)
    requires Linked(c, r, link, s) && Entropy(id) == Entropy(link.Id(r))
    ensures c.Get(id).Ok? && c.Get(id).value.name == link.PeerName(r)
    ensures var sess := c.Get(id).value.state;
            && sess.local == link.Id(r) && sess.remote == link.Id(r.Peer())
            && sess.ratchet.Some? && sess.ratchet.value.prevSendNo == 0
            && InSync(sess.ratchet.value, r, s) && Running(sess.ratchet.value, r, s)
            && Announced(c, link.Id(r)) == Some(sess.ratchet.value.dhr.pub)
  {
    hide InSync, Running;
  }

  // ---------- Sending ----------

  lemma {:induction false} SendKeepsInv(w: Net, ev: Event)
    requires Inv(w) && Enabled(w, ev) && ev.Send?
    ensures Inv(After(w, ev))
  {
    hide InSync, Running, Ratchet.Encrypt, InboxOk, Announced, Schedule.Message, Listening, Waiting, ClientState.Put;
    var r, id, c := ev.from, w.link.Id(ev.from), w.Client(ev.from);
    LinkedLoads(c, r, w.link, w.s, id);
    var sess := c.Get(id).value;
    var p := sess.state.ratchet.value;
    EncryptInSync(p, r, w.s, ev.text, ev.draw);
    NotListening(p, r, w.s);
    var o := p.Encrypt(ev.text, ev.draw);
    var t := sess.state.Send(ev.text, ev.draw, ev.now);
    var v := After(w, ev);
    StoreLinked(c, r, w.link, w.s, w.s, sess.(state := t.state), o.state);
    assert v.s == w.s;
    if o.result.Ok? {
      assert Fit(sess.state.remote, 16) == sess.state.remote;
      var post := Post(r, Epoch(w.s, r), ev.text, t.result.value, ev.posted);
      assert v.log == w.log + [post];
      assert PostOk(post, w.link, w.s);
      InboxGrows(w.inbox, w.log, post);
    }
  }

  lemma {:induction false} NotListening(p: Ratchet, r: Role, s: Schedule)
    requires s.Valid() && Running(p, r, s)
    ensures !(r == Bob && Listening(p, s))
  {
  }

  lemma {:induction false} InboxGrows(inbox: seq<Delivery>, log: seq<Post>, post: Post)
    requires InboxOk(inbox, log)
    ensures InboxOk(inbox, log + [post])
  {
    forall d | 0 <= d < |inbox|
      ensures Genuine(inbox[d], log + [post])
    {
      assert Genuine(inbox[d], log);
      var x :| && 0 <= x < |log| && log[x].sender == inbox[d].to.Peer()
               && log[x].msg == inbox[d].msg && log[x].plaintext == inbox[d].plaintext;
      assert (log + [post])[x] == log[x];
    }
  }

  // ---------- Receiving ----------

  /** What a loaded ratchet does with any message that the peer ever made. */
  lemma {:induction false} ReceiveAny(
    p: Ratchet, r: Role, s: Schedule, i: nat, c: Ciphertext, plaintext: Bytes, k: KeyId)
    requires InSync(p, r, s) && Running(p, r, s) && k !in s.keys
    requires 0 < i <= Epoch(s, r.Peer()) && Owns(r.Peer(), i)
    requires c.Packet? && c.header.dhPub == s.Pub(i) && c.header.prevNo == 0
    requires c.body == Box(s.Message(i, c.header.msgNo), s.ad, plaintext)
    ensures p.Valid()
    ensures var o, e, n := p.Decrypt(c, k), Epoch(s, r), c.header.msgNo;
            && (o.result.Ok? ==>
                  && o.result == Ok(plaintext)
                  && var t := if o.state.dhr.pub == p.dhr.pub then s else s.Draw(k);
                     && InSync(o.state, r, t) && Running(o.state, r, t)
                     && (t == s || (e == |s.keys| - 2 && i == e + 1))
                     && o.state.sendNo == if t == s then p.sendNo else 0)
            && (o.result.Ok? <==>
                  || (&& i == e - 1 && n <= p.recvNo + MAX_SKIP_ELEMENTS
                      && (n < p.recvNo ==> HasKey(p, c.header.dhPub, n)))
                  || (i == e + 1 && n <= MAX_SKIP_ELEMENTS))
  {
    hide CacheSound, Ratchet.Receive, Ratchet.Rekey, Ratchet.Decrypt, Schedule.Message, HasKey;
    var e := Epoch(s, r);
    if i == e - 1 {
      DecryptCurrent(p, r, s, c, plaintext, k);
    } else if i == e + 1 {
      DecryptFollows(p, r, s, c, plaintext, k);
    } else {
      StaleIsRefusedInStep(p, r, s, i, c.header, c.body, k);
    }
  }

  /** Handling a data message for a stored active session: decrypt, and store only on success. */
  lemma {:induction false} HandleData(
    c: ClientState, msg: Message, made: Uuid, peer: KeyId, draws: (KeyId, KeyId), noise: Bytes)
    requires c.Valid() && msg.Data? && c.Get(msg.uuid).Ok?
    requires c.Get(msg.uuid).value.state.ratchet.Some? && c.Get(msg.uuid).value.state.ratchet.value.Valid()
    ensures var sess := c.Get(msg.uuid).value;
            var o := sess.state.ratchet.value.Decrypt(msg.payload, draws.0);
            c.Handle(msg, made, peer, draws, noise) ==
              if o.result.Err? then Done(c, Err(o.result.error))
              else
                var used := sess.(state := sess.state.(ratchet := Some(o.state)));
                Done(c.Put(used), Ok(Some(Plaintext(o.result.value))))
  {
    hide Ratchet.Decrypt;
  }

  /** What an arrival is: a message that the peer posted, opened by the stored ratchet, stored again if it opened. */
  lemma {:induction false} ArriveIs(w: Net, ev: Event) returns (x: nat, sess: Loaded)
    requires Inv(w) && Enabled(w, ev) && ev.Arrive?
    ensures x < |w.log| && w.log[x].sender == ev.to.Peer() && w.log[x].msg == ev.msg && PostOk(w.log[x], w.link, w.s)
    ensures w.alice.Valid() && w.bob.Valid()
    ensures sess.name == w.link.PeerName(ev.to)
    ensures sess.state.local == w.link.Id(ev.to) && sess.state.remote == w.link.Id(ev.to.Peer())
    ensures Linked(w.Client(ev.to), ev.to, w.link, w.s) && sess.state.ratchet == Some(Kept(w, ev.to))
    ensures InSync(Kept(w, ev.to), ev.to, w.s) && Running(Kept(w, ev.to), ev.to, w.s) && Kept(w, ev.to).Valid()
    ensures Announced(w.Client(ev.to), w.link.Id(ev.to)) == Some(Kept(w, ev.to).dhr.pub)
    ensures var r, c, v := ev.to, w.Client(ev.to), After(w, ev);
            var o := Kept(w, r).Decrypt(ev.msg.payload, ev.draws.0);
            var used := sess.(state := sess.state.(ratchet := Some(o.state)));
            && (o.result.Err? ==> v == w)
            && (o.result.Ok? ==>
                  v == w.With(r, c.Put(used), ev.draws.0).(inbox := w.inbox + [Delivery(r, ev.msg, o.result.value)]))
  {
    hide InSync, Running, CacheSound, Ratchet.Decrypt, InboxOk, PostsOk, ClientState.Handle, ClientState.Put, Announced;
    var r, c := ev.to, w.Client(ev.to);
    x :| 0 <= x < |w.log| && w.log[x].sender == r.Peer() && w.log[x].msg == ev.msg;
    PostAt(w, x);
    LinkedLoads(c, r, w.link, w.s, ev.msg.uuid);
    sess := c.Get(ev.msg.uuid).value;
    InSyncValid(Kept(w, r), r, w.s);
    HandleData(c, ev.msg, ev.made, ev.peer, ev.draws, ev.noise);
    StaysTheSame(w, r, ev.draws.0);
  }

  lemma {:induction false} StaysTheSame(w: Net, r: Role, draw: KeyId)
    ensures w.With(r, w.Client(r), draw) == w
  {
  }

  lemma {:induction false} ArriveKeepsInv(w: Net, ev: Event)
    requires Inv(w) && Enabled(w, ev) && ev.Arrive?
    ensures Inv(After(w, ev))
  {
    hide InSync, Running, HasKey, Ratchet.Decrypt, InboxOk, PostsOk, ClientState.Put, Announced, After, Linked, Kept;
    var x, sess := ArriveIs(w, ev);
    var r, c, k, p := ev.to, w.Client(ev.to), ev.draws.0, Kept(w, ev.to);
    ReceiveAny(p, r, w.s, w.log[x].chain, ev.msg.payload, w.log[x].plaintext, k);
    var o, v := p.Decrypt(ev.msg.payload, k), After(w, ev);
    if o.result.Ok? {
      var t := if o.state.dhr.pub == p.dhr.pub then w.s else w.s.Draw(k);
      StoreLinked(c, r, w.link, w.s, t, sess.(state := sess.state.(ratchet := Some(o.state))), o.state);
      assert v.s == t && v.inbox == w.inbox + [Delivery(r, ev.msg, w.log[x].plaintext)];
      PeerStays(w, r, t, k);
      PostsStay(w.log, w.link, w.s, t, k);
      InboxAppend(w.inbox, w.log, Delivery(r, ev.msg, w.log[x].plaintext), x);
    }
  }

  lemma {:induction false} PostAt(w: Net, x: nat)
    requires |w.s.keys| >= 2 && PostsOk(w.log, w.link, w.s) && x < |w.log|
    ensures PostOk(w.log[x], w.link, w.s)
  {
  }

  lemma {:induction false} InboxAppend(inbox: seq<Delivery>, log: seq<Post>, d: Delivery, x: nat)
    requires InboxOk(inbox, log) && x < |log|
    requires log[x].sender == d.to.Peer() && log[x].msg == d.msg && log[x].plaintext == d.plaintext
    ensures InboxOk(inbox + [d], log)
  {
  }

  lemma {:induction false} PeerStays(w: Net, r: Role, t: Schedule, k: KeyId)
    requires Inv(w) && k !in w.s.keys
    requires t == w.s || (t == w.s.Draw(k) && Epoch(w.s, r) == |w.s.keys| - 2)
    ensures Linked(w.Client(r.Peer()), r.Peer(), w.link, t) && t.Valid()
  {
    hide CacheSound, Running;
    var q := r.Peer();
    var p := Restore(w.Client(q).files[Entropy(w.link.Id(q))].session.ratchet.value);
    if t != w.s {
      PeerDraws(p, q, w.s, k);
    }
  }

  lemma {:induction false} PostsStay(log: seq<Post>, link: Link, s: Schedule, t: Schedule, k: KeyId)
    requires s.Valid() && PostsOk(log, link, s) && (t == s || t == s.Draw(k))
    ensures PostsOk(log, link, t)
  {
    if t != s {
      forall x | 0 <= x < |log|
        ensures PostOk(log[x], link, t)
      {
        assert PostOk(log[x], link, s);
        DrawKeeps(s, k, log[x].chain, log[x].msg.payload.header.msgNo);
      }
    }
  }

  // ---------- Every run ----------

  ghost predicate Run(v: Net, evs: seq<Event>, w: Net)
    decreases |evs|
  {
    if |evs| == 0 then v == w
    else
      && |v.s.keys| >= 2 && v.alice.Valid() && v.bob.Valid()
      && Enabled(v, evs[0])
      && Run(After(v, evs[0]), evs[1..], w)
  }

  /**
   Client-level safety.  However messages are lost, repeated or reordered, stale ones included: the
   stored ratchets stay in step, and everything a client accepts is what its peer sent.
   */
  lemma {:induction false} EveryRunIsSafe(v: Net, evs: seq<Event>, w: Net)
    requires Inv(v) && Run(v, evs, w)
    ensures Inv(w)
    ensures forall d :: 0 <= d < |w.inbox| ==> Genuine(w.inbox[d], w.log)
    decreases |evs|
  {
    if |evs| > 0 {
      if evs[0].Send? {
        SendKeepsInv(v, evs[0]);
      } else {
        ArriveKeepsInv(v, evs[0]);
      }
      EveryRunIsSafe(After(v, evs[0]), evs[1..], w);
    }
  }

  /** Exactly which messages a client accepts: the two live chains within the skip limit, never a stale one. */
  lemma {:induction false} ClientAcceptsIff(
    w: Net, r: Role, x: nat, made: Uuid, peer: KeyId, draws: (KeyId, KeyId), noise: Bytes)
    requires Inv(w) && x < |w.log| && w.log[x].sender == r.Peer() && draws.0 !in w.s.keys
    ensures w.Client(r).Valid() && Linked(w.Client(r), r, w.link, w.s)
    ensures var p := Restore(w.Client(r).files[Entropy(w.link.Id(r))].session.ratchet.value);
            var e, i := Epoch(w.s, r), w.log[x].chain;
            var m := w.log[x].msg;
            var d := w.Client(r).Handle(m, made, peer, draws, noise);
            && m.Data? && m.payload.Packet?
            && var n := m.payload.header.msgNo;
               && (d.result == Ok(Some(Plaintext(w.log[x].plaintext))) <==>
                     || (i == e - 1 && n <= p.recvNo + MAX_SKIP_ELEMENTS && (n < p.recvNo ==> HasKey(p, w.s.Pub(i), n)))
                     || (i == e + 1 && n <= MAX_SKIP_ELEMENTS))
               && (d.result.Ok? || d.client == w.Client(r))
  {
    hide InSync, Running, CacheSound, HasKey, Ratchet.Decrypt, InboxOk, PostsOk, ClientState.Handle, ClientState.Put;
    var c, m := w.Client(r), w.log[x].msg;
    PostAt(w, x);
    LinkedLoads(c, r, w.link, w.s, m.uuid);
    var p := c.Get(m.uuid).value.state.ratchet.value;
    ReceiveAny(p, r, w.s, w.log[x].chain, m.payload, w.log[x].plaintext, draws.0);
    HandleData(c, m, made, peer, draws, noise);
  }

  // ---------- The handshake between two clients starts such a run ----------

  datatype Draws = Draws(spk: KeyId, ek: KeyId, own: KeyId, draw: KeyId)

  /** Bob offers, Alice handles the offer and stores her answer, Bob handles the answer. */
  lemma {:induction false} HandshakeStartsRun(
    alice: ClientState, bob: ClientState, aliceName: Bytes, madeByAlice: Uuid, madeByBob: Uuid, k: Draws, noise: Bytes)
    returns (w: Net)
    requires alice.Valid() && bob.Valid()
    requires k.spk != k.own && k.own != k.draw && k.spk != k.draw
    ensures Inv(w) && Numbered(w) && Kept(w, Bob).recvNo == 1 && Kept(w, Bob).buffer == []
    ensures w.log == [] && w.inbox == []
    ensures w.s.keys == [k.spk, k.own, k.draw] && w.s.ad == [alice.key, bob.key]
    ensures w.link == Link(aliceName, bob.me, alice.ByName(bob.me, madeByAlice).1, bob.ByName(aliceName, madeByBob).1)
    ensures var offered := bob.Offer(aliceName, alice.key, madeByBob, k.spk);
            && offered.result.Ok? && offered.client.Valid()
            && var acked := alice.Handle(offered.result.value, madeByAlice, bob.key, (k.ek, k.own), noise);
               && acked.result.Ok? && acked.result.value.Some? && acked.result.value.value.Established?
               && acked.result.value.value.answer.Some?
               && w.alice == acked.client
               && Holds(w.alice, w.link.aliceId, bob.me, bob.key, acked.result.value.value.answer)
               && Holds(w.bob, w.link.bobId, aliceName, alice.key, None)
               && var answer := acked.result.value.value.answer.value;
                  var done := offered.client.Handle(answer, madeByBob, alice.key, (k.draw, 0), noise);
                  done.result == Ok(Some(Established(None))) && w.bob == done.client
  {
    hide InSync, Running, SessionState.ReceiveOffer, SessionState.ReceiveAck, ClientState.Handle;
    hide ClientState.Offer, ClientState.Get, ClientState.Put, Linked, Holds;
    var (bob', bobId) := bob.ByName(aliceName, madeByBob);
    var (alice', aliceId) := alice.ByName(bob.me, madeByAlice);
    var link := Link(aliceName, bob.me, aliceId, bobId);
    var b0, a0 := bob'.New(aliceName, alice.key, bobId), alice'.New(bob.me, bob.key, aliceId);
    HandshakeInSync(b0.state, a0.state, k.spk, k.ek, k.own, k.draw, noise);
    var b1 := b0.state.CreateOffer(k.spk);
    var a1 := a0.state.ReceiveOffer(b1.result.value, k.ek, k.own, noise);
    var b2 := b1.state.ReceiveAck(a1.result.value, k.draw);
    var seed :| var s := Schedule([k.spk, k.own, k.draw], seed, [alice.key, bob.key]);
                && InSync(a1.state.ratchet.value, Alice, s) && Running(a1.state.ratchet.value, Alice, s)
                && InSync(b2.state.ratchet.value, Bob, s) && Running(b2.state.ratchet.value, Bob, s);
    assert a1.state.ratchet.value.sendNo == 1 && b2.state.ratchet.value.sendNo == 0;
    assert b2.state.ratchet.value.recvNo == 1 && b2.state.ratchet.value.buffer == [];
    var s := Schedule([k.spk, k.own, k.draw], seed, [alice.key, bob.key]);
    OfferKeepsFields(b0, b1.result.value, a0, k, noise, a1);
    AckKeepsFields(b1.state, a1.result.value, k.draw);
    OfferStores(bob, aliceName, alice.key, madeByBob, k.spk);
    HandleOffer(alice, b1.result.value, madeByAlice, bob.key, (k.ek, k.own), noise);
    var offered := bob.Offer(aliceName, alice.key, madeByBob, k.spk).client;
    HandleAck(offered, Loaded(aliceName, None, b1.state), a1.result.value, madeByBob, alice.key, (k.draw, 0), noise);
    var stored := a0.(state := a1.state, pendingAck := Some(a1.result.value));
    FirstStore(alice', Alice, link, s, stored, a1.state.ratchet.value);
    FirstStore(offered, Bob, link, s, Loaded(aliceName, None, b2.state), b2.state.ratchet.value);
    w := Net(alice'.Put(stored),
             offered.Put(Loaded(aliceName, None, b2.state)), link, s, [], []);
    StoredIsHeld(alice', stored);
    StoredIsHeld(offered, Loaded(aliceName, None, b2.state));
    FirstNumbers(w);
  }

  /** Right after a handshake, Alice has sent one message on chain 1 and Bob none on chain 2. */
  lemma {:induction false} FirstNumbers(w: Net)
    requires Inv(w) && |w.s.keys| == 3 && w.log == [] && Kept(w, Alice).sendNo == 1 && Kept(w, Bob).sendNo == 0
    ensures Numbered(w)
  {
    hide Linked, PostsOk, InboxOk;
    forall r: Role
      ensures Kept(w, r).sendNo == Base(Epoch(w.s, r)) + StoredCount(w.log, Epoch(w.s, r))
    {
    }
  }

  /** The stored ratchets are in step, and every accepted plaintext is what the peer sent in that message. */
  ghost predicate Safe(w: Net) {
    && Linked(w.alice, Alice, w.link, w.s) && Linked(w.bob, Bob, w.link, w.s)
    && forall d :: 0 <= d < |w.inbox| ==> Genuine(w.inbox[d], w.log)
  }

  /** The two results together: whatever happens after a handshake between two clients is safe. */
  lemma {:induction false} SafeAfterHandshake(
    alice: ClientState, bob: ClientState, aliceName: Bytes, madeByAlice: Uuid, madeByBob: Uuid, k: Draws, noise: Bytes)
    returns (w: Net)
    requires alice.Valid() && bob.Valid()
    requires k.spk != k.own && k.own != k.draw && k.spk != k.draw
    ensures Inv(w) && Numbered(w) && Kept(w, Bob).recvNo == 1 && Kept(w, Bob).buffer == []
    ensures w.log == [] && w.inbox == []
    ensures w.s.keys == [k.spk, k.own, k.draw] && w.s.ad == [alice.key, bob.key]
    ensures w.link == Link(aliceName, bob.me, alice.ByName(bob.me, madeByAlice).1, bob.ByName(aliceName, madeByBob).1)
    ensures var offered := bob.Offer(aliceName, alice.key, madeByBob, k.spk);
            && offered.result.Ok? && offered.client.Valid()
            && var acked := alice.Handle(offered.result.value, madeByAlice, bob.key, (k.ek, k.own), noise);
               && acked.result.Ok? && acked.result.value.Some? && acked.result.value.value.Established?
               && acked.result.value.value.answer.Some?
               && w.alice == acked.client
               && Holds(w.alice, w.link.aliceId, bob.me, bob.key, acked.result.value.value.answer)
               && Holds(w.bob, w.link.bobId, aliceName, alice.key, None)
               && var answer := acked.result.value.value.answer.value;
                  w.bob == offered.client.Handle(answer, madeByBob, alice.key, (k.draw, 0), noise).client
    ensures forall evs, z :: Run(w, evs, z) ==> Safe(z)
  {
    hide Run, Inv, Linked, ClientState.Handle, ClientState.Offer, Holds;
    w := HandshakeStartsRun(alice, bob, aliceName, madeByAlice, madeByBob, k, noise);
    forall evs, z | Run(w, evs, z)
      ensures Safe(z)
    {
      EveryRunIsSafe(w, evs, z);
      InvLinks(z);
    }
  }

  lemma {:induction false} InvLinks(w: Net)
    requires Inv(w)
    ensures Linked(w.alice, Alice, w.link, w.s) && Linked(w.bob, Bob, w.link, w.s)
  {
  }

  lemma {:induction false} StoredIsHeld(c: ClientState, sess: Loaded)
    ensures Holds(c.Put(sess), sess.state.local, sess.name, sess.state.peerKey, sess.pendingAck)
  {
  }

  /** An offered session is found again with its prekey and with the identity key. */
  lemma {:induction false} OfferStores(c: ClientState, name: Bytes, peer: KeyId, made: Uuid, spk: KeyId)
    requires c.Valid()
    ensures var (named, id) := c.ByName(name, made);
            var t := named.New(name, peer, id).state.CreateOffer(spk);
            var d := c.Offer(name, peer, made, spk);
            && d.result == t.result && d.client.Valid()
            && name in d.client.sessions && d.client.sessions[name] == id
            && d.client.Get(id) == Ok(Loaded(name, None, t.state))
  {
  }

  lemma {:induction false} HandleOffer(
    c: ClientState, offer: Message, made: Uuid, peer: KeyId, draws: (KeyId, KeyId), noise: Bytes)
    requires c.Valid() && offer.Offer?
    requires var (named, id) := c.ByName(offer.nick, made);
             named.New(offer.nick, peer, id).state.ReceiveOffer(offer, draws.0, draws.1, noise).result.Ok?
    ensures var (named, id) := c.ByName(offer.nick, made);
            var sess := named.New(offer.nick, peer, id);
            var t := sess.state.ReceiveOffer(offer, draws.0, draws.1, noise);
            && named.Valid() && offer.nick in named.sessions && named.sessions[offer.nick] == id
            && c.Handle(offer, made, peer, draws, noise) ==
                 Done(named.Put(sess.(state := t.state, pendingAck := Some(t.result.value))),
                      Ok(Some(Established(Some(t.result.value)))))
  {
    hide SessionState.ReceiveOffer;
  }

  lemma {:induction false} HandleAck(
    c: ClientState, sess: Loaded, ack: Message, made: Uuid, peer: KeyId, draws: (KeyId, KeyId), noise: Bytes)
    requires c.Valid() && ack.Ack? && c.Get(ack.uuid) == Ok(sess) && sess.state.ratchet.None?
    requires sess.state.ReceiveAck(ack, draws.0).result.Ok?
    ensures c.Handle(ack, made, peer, draws, noise) ==
              Done(c.Put(sess.(state := sess.state.ReceiveAck(ack, draws.0).state, pendingAck := None)),
                   Ok(Some(Established(None))))
  {
    hide SessionState.ReceiveAck;
  }

  lemma {:induction false} OfferKeepsFields(
    b0: Loaded, offer: Message, a0: Loaded, k: Draws, noise: Bytes, a1: Turn<Message>)
    requires offer.Offer? && a1 == a0.state.ReceiveOffer(offer, k.ek, k.own, noise) && a1.result.Ok?
    ensures a1.result.value.Ack? && a1.result.value.uuid == offer.uuid
    ensures a1.state.local == a0.state.local && a1.state.peerKey == a0.state.peerKey
  {
  }

  lemma {:induction false} AckKeepsFields(s: SessionState, ack: Message, draw: KeyId)
    requires ack.Ack?
    ensures s.ReceiveAck(ack, draw).state.local == s.local && s.ReceiveAck(ack, draw).state.peerKey == s.peerKey
  {
  }

  lemma {:induction false} FirstStore(c: ClientState, r: Role, link: Link, s: Schedule, sess: Loaded, p: Ratchet)
    requires c.Valid() && link.PeerName(r) in c.sessions && c.sessions[link.PeerName(r)] == link.Id(r)
    requires InSync(p, r, s) && Running(p, r, s)
    requires sess.state.local == link.Id(r) && sess.state.remote == link.Id(r.Peer()) && sess.state.ratchet == Some(p)
    requires sess.name == link.PeerName(r)
    ensures Linked(c.Put(sess), r, link, s)
    ensures Restore(c.Put(sess).files[Entropy(link.Id(r))].session.ratchet.value) == Reloaded(p)
  {
    hide InSync, Running, CacheSound;
    ReloadInSync(p, r, s);
    InSyncValid(p, r, s);
    SavedIsLoadable(sess.state);
  }
}
