/** When two ratchets in memory have nothing more to say to each other. */
module Silence {
  import opened Wrappers
  import opened Keys
  import opened SkippedKeys
  import opened Ratchets
  import opened Sync
  import opened Logs
  import opened Runs
  import opened RunTheorems
  import opened StaleRuns

  /** A packet whose number has not been opened before. */
  ghost predicate Unopened(w: World, c: Ciphertext) {
    c.Packet? && (c.header.dhPub, c.header.msgNo) !in w.taken
  }

  /** An event in which a party accepts a number that it has not opened before. */
  ghost predicate AcceptsNew(w: World, ev: Event) {
    && ev.Deliver? && MayDeliver(w, ev.to, ev.packet, ev.draw) && Unopened(w, ev.packet)
    && w.Party(ev.to).Decrypt(ev.packet, ev.draw).result.Ok?
  }

  /** Some run from `w` leads to a world in which something new is accepted. */
  ghost predicate Speaks(w: World) {
    exists evs, v, ev :: Run(w, evs, v) && AcceptsNew(v, ev)
  }

  predicate CanSpeak(w: World, r: Role) {
    (r == Alice || |w.s.keys| >= 3) && w.Party(r).sendNo < NUMBER_LIMIT && w.Party(r).prevSendNo < NUMBER_LIMIT
  }

  /** The header of the next packet of a party. */
  function NextHeader(w: World, r: Role): Header
    requires |w.s.keys| >= 2 && CanSpeak(w, r)
  {
    Header(w.s.Pub(Epoch(w.s, r)), w.Party(r).prevSendNo, w.Party(r).sendNo)
  }

  /** Nothing new under way is within the limits of its receiver. */
  ghost predicate NothingUnderWay(w: World, r: Role)
    requires |w.s.keys| >= 2
  {
    forall c :: c in w.Net(r) && Unopened(w, c) && !Stale(w.s, r, c) ==> !WithinLimits(w, r, c.header)
  }

  /** The next packet of a party is not within the limits of its peer. */
  ghost predicate NothingToSay(w: World, r: Role)
    requires |w.s.keys| >= 2
  {
    CanSpeak(w, r) ==> !WithinLimits(w, r.Peer(), NextHeader(w, r))
  }

  /**
   The condition, on the counters of both parties and the packets under way.  Before Bob has opened
   anything, whatever reaches him gives him a chain, accepted or not, on which Alice can hear him.
   */
  ghost predicate Silent(w: World) {
    && |w.s.keys| >= 2
    && NothingUnderWay(w, Alice) && NothingUnderWay(w, Bob) && NothingToSay(w, Alice) && NothingToSay(w, Bob)
    && (|w.s.keys| == 2 ==> w.toBob == multiset{} && !CanSpeak(w, Alice))
  }

  // ---------- One delivery ----------

  /** What a delivery does, in the three cases: the present chain, a next chain refused, a next chain followed. */
  lemma {:induction false} DeliverEffect(w: World, r: Role, c: Ciphertext, draw: KeyId) returns (x: nat)
    requires Inv(w) && MayDeliver(w, r, c, draw)
    ensures x < |w.log| && w.log[x].sender == r.Peer() && c.Packet? && w.s.Valid()
    ensures var i, n := w.log[x].chain, c.header.msgNo;
            && 0 < i < |w.s.keys| && Owns(r.Peer(), i) && c.header.dhPub == w.s.Pub(i) && n < Count(w.log, i)
            && c.header.prevNo == Count(w.log, i - 2)
    ensures var p, e, i, n := w.Party(r), Epoch(w.s, r), w.log[x].chain, c.header.msgNo;
            var o, v := p.Decrypt(c, draw), Delivered(w, r, c, draw);
            && Inv(v) && v.Party(r) == o.state && v.Party(r.Peer()) == w.Party(r.Peer()) && v.log == w.log
            && v.Net(r.Peer()) == w.Net(r.Peer()) && v.Net(r) == w.Net(r) - multiset{c}
            && v.taken == w.taken + (if o.result.Ok? then {(c.header.dhPub, n)} else {})
            && (i == e - 1 || i == e + 1) && (p.peer == Some(c.header.dhPub) <==> i == e - 1)
            && (i == e - 1 ==> v.s == w.s && Stayed(p, o.state, n, o.result.Ok?))
            && (i == e + 1 && c.header.prevNo > p.recvNo + MAX_SKIP_ELEMENTS ==>
                  v.s == w.s && o.state == p && o.result.Err?)
            && (i == e + 1 && c.header.prevNo <= p.recvNo + MAX_SKIP_ELEMENTS ==>
                  && v.s == w.s.Draw(draw) && e == |w.s.keys| - 2 && Epoch(w.s, r.Peer()) == |w.s.keys| - 1
                  && (o.result.Ok? <==> n <= MAX_SKIP_ELEMENTS) && o.state.recvNo == (if o.result.Ok? then n + 1 else 0)
                  && o.state.sendNo == 0 && o.state.prevSendNo == p.sendNo && o.state.peer == Some(c.header.dhPub)
                  && w.Party(r.Peer()).prevSendNo == c.header.prevNo && w.Party(r.Peer()).sendNo > n)
  {
    hide Inv, Delivered, Ratchet.Decrypt, Schedule.Message, Count, Stale;
    InvKeys(w);
    x := PacketShape(w, r, c);
    DeliverKeepsInv(w, r, c, draw);
    DeliveredIs(w, r, c, draw);
    if w.log[x].chain == Epoch(w.s, r) - 1 {
      StayEffect(w, r, c, draw, x);
    } else {
      MoveEffect(w, r, c, draw, x);
    }
  }

  lemma {:induction false} StayEffect(w: World, r: Role, c: Ciphertext, draw: KeyId, x: nat)
    requires Inv(w) && MayDeliver(w, r, c, draw) && x < |w.log| && w.log[x].chain == Epoch(w.s, r) - 1 && c.Packet?
    requires w.log[x].chain > 0 && c.header.dhPub == w.s.Pub(w.log[x].chain)
    requires c.body == Box(w.s.Message(w.log[x].chain, c.header.msgNo), w.s.ad, w.log[x].plaintext)
    ensures w.Party(r).peer == Some(c.header.dhPub)
    ensures var o := w.Party(r).Decrypt(c, draw); Stayed(w.Party(r), o.state, c.header.msgNo, o.result.Ok?)
  {
    hide InSync, LogOk, NetOk, Retained, StepsOk, CountersOk, HasKey, Ratchet.Decrypt, Running, Schedule.Message, Stale;
    assert PartyOk(w, r);
    CurrentRuns(w, r, x);
    CurrentPeer(w.Party(r), r, w.s);
    DecryptCurrent(w.Party(r), r, w.s, c, w.log[x].plaintext, draw);
  }

  lemma {:induction false} MoveEffect(w: World, r: Role, c: Ciphertext, draw: KeyId, x: nat)
    requires Inv(w) && MayDeliver(w, r, c, draw) && x < |w.log| && w.log[x].sender == r.Peer() && c.Packet?
    requires w.log[x].chain == Epoch(w.s, r) + 1 < |w.s.keys| && c.header.dhPub == w.s.Pub(w.log[x].chain)
    requires c.body == Box(w.s.Message(w.log[x].chain, c.header.msgNo), w.s.ad, w.log[x].plaintext)
    requires c.header.prevNo == Count(w.log, w.log[x].chain - 2) && c.header.msgNo < Count(w.log, w.log[x].chain)
    ensures var p, n := w.Party(r), c.header.msgNo;
            var o := p.Decrypt(c, draw);
            && p.peer != Some(c.header.dhPub)
            && (c.header.prevNo > p.recvNo + MAX_SKIP_ELEMENTS ==> o.state == p && o.result.Err?)
            && (c.header.prevNo <= p.recvNo + MAX_SKIP_ELEMENTS ==>
                  && Epoch(w.s, r) == |w.s.keys| - 2 && Epoch(w.s, r.Peer()) == |w.s.keys| - 1
                  && (o.result.Ok? <==> n <= MAX_SKIP_ELEMENTS) && o.state.recvNo == (if o.result.Ok? then n + 1 else 0)
                  && o.state.sendNo == 0 && o.state.prevSendNo == p.sendNo && o.state.peer == Some(c.header.dhPub)
                  && w.Party(r.Peer()).prevSendNo == c.header.prevNo && w.Party(r.Peer()).sendNo > n
                  && o.state.dhr.pub != p.dhr.pub)
  {
    hide InSync, LogOk, NetOk, Retained, StepsOk, HasKey, Ratchet.Decrypt, Running, Schedule.Message;
    hide Stale, Count, Waiting;
    assert PartyOk(w, r) && PartyOk(w, r.Peer());
    SenderRuns(w, r, x);
    DecryptFollows(w.Party(r), r, w.s, c, w.log[x].plaintext, draw);
  }

  lemma {:induction false} CurrentPeer(p: Ratchet, r: Role, s: Schedule)
    requires s.Valid() && Running(p, r, s)
    ensures Epoch(s, r) >= 1 && p.peer == Some(s.Pub(Epoch(s, r) - 1))
  {
  }

  /** What a delivery on the present chain may change. */
  ghost predicate Stayed(p: Ratchet, q: Ratchet, n: nat, ok: bool) {
    && q.dhr == p.dhr && q.peer == p.peer && q.sendNo == p.sendNo && q.prevSendNo == p.prevSendNo
    && (!ok ==> q == p) && (ok && n < p.recvNo ==> q == p) && (ok && n >= p.recvNo ==> q.recvNo == n + 1)
  }

  // ---------- What every run knows about opened numbers ----------

  /** Who reads a chain. */
  function Reader(i: nat): Role {
    if i % 2 == 1 then Bob else Alice
  }

  /** An opened number was sent, and its reader is past it. */
  ghost predicate OpenedAt(w: World, t: (Pub, nat), i: nat)
    requires |w.s.keys| >= 2
  {
    && 0 < i < |w.s.keys| && t.0 == w.s.Pub(i) && t.1 < Count(w.log, i)
    && i <= Epoch(w.s, Reader(i)) - 1 && (i == Epoch(w.s, Reader(i)) - 1 ==> t.1 < w.Party(Reader(i)).recvNo)
  }

  ghost predicate OpenedOk(w: World)
    requires |w.s.keys| >= 2
  {
    forall t :: t in w.taken ==> exists i: nat :: OpenedAt(w, t, i)
  }

  /** A length that cannot be announced is that of a chain whose successor has not been heard. */
  ghost predicate LengthOk(w: World, r: Role)
    requires |w.s.keys| >= 2
  {
    w.Party(r).prevSendNo >= NUMBER_LIMIT ==> Epoch(w.s, r) == |w.s.keys| - 1
  }

  ghost predicate History(w: World) {
    |w.s.keys| >= 2 && OpenedOk(w) && LengthOk(w, Alice) && LengthOk(w, Bob)
  }

  lemma {:induction false} EncryptHistory(w: World, r: Role, plaintext: Bytes, draw: KeyId)
    requires Inv(w) && History(w) && Enabled(w, Event.Encrypt(r, plaintext, draw))
    ensures History(Encrypted(w, r, plaintext, draw))
  {
    hide CacheSound, Retained, LogOk, NetOk, CountersOk, StepsOk, Schedule.Message, Root;
    hide Ratchet.Encrypt, Encrypted, Count;
    assert PartyOk(w, r);
    var p, v := w.Party(r), Encrypted(w, r, plaintext, draw);
    EncryptInSync(p, r, w.s, plaintext, draw);
    if r == Bob && Listening(p, w.s) {
      NobodySpeaks(w, plaintext, draw);
    } else {
      EncryptedIs(w, r, plaintext, draw);
      forall t | t in v.taken
        ensures exists i: nat :: OpenedAt(v, t, i)
      {
        var i: nat :| OpenedAt(w, t, i);
        CountAppend(w.log, EntryOf(w, r, plaintext, draw), i);
        assert Reader(i) == r || Reader(i) == r.Peer();
        assert OpenedAt(v, t, i);
      }
      assert LengthOk(w, r) && LengthOk(w, r.Peer());
      assert LengthOk(v, r) && LengthOk(v, r.Peer());
    }
  }

  lemma {:induction false} NobodySpeaks(w: World, plaintext: Bytes, draw: KeyId)
    requires Inv(w) && Listening(w.bob, w.s)
    ensures Encrypted(w, Bob, plaintext, draw) == w
  {
    hide CacheSound, Retained, LogOk, NetOk, CountersOk, StepsOk, Ratchet.Encrypt;
    assert PartyOk(w, Bob);
    EncryptInSync(w.bob, Bob, w.s, plaintext, draw);
  }

  lemma {:induction false} DeliverHistory(w: World, r: Role, c: Ciphertext, draw: KeyId)
    requires Inv(w) && History(w) && MayDeliver(w, r, c, draw)
    ensures History(Delivered(w, r, c, draw))
  {
    hide Inv, Delivered, Ratchet.Decrypt, Count;
    var x := DeliverEffect(w, r, c, draw);
    var v, i := Delivered(w, r, c, draw), w.log[x].chain;
    assert LengthOk(w, r) && LengthOk(w, r.Peer());
    assert LengthOk(v, r) && LengthOk(v, r.Peer());
    assert Reader(i) == r;
    forall t | t in v.taken
      ensures exists j: nat :: OpenedAt(v, t, j)
    {
      if t in w.taken {
        var j: nat :| OpenedAt(w, t, j);
        assert Reader(j) == r || Reader(j) == r.Peer();
        assert OpenedAt(v, t, j);
      } else {
        assert OpenedAt(v, t, i);
      }
    }
  }

  lemma {:induction false} StepHistory(w: World, ev: Event)
    requires Inv(w) && History(w) && Enabled(w, ev)
    ensures (forall r: Role :: w.Party(r).recv.Some? ==> w.Party(r).peer.Some?) && History(After(w, ev))
  {
    hide Inv, Encrypted, Delivered;
    InvValid(w);
    match ev
    case Encrypt(r, plaintext, draw) => EncryptHistory(w, r, plaintext, draw);
    case Deliver(r, c, draw) => DeliverHistory(w, r, c, draw);
    case Drop(r, c) => NetHistory(w, r, w.Net(r) - multiset{c});
    case Duplicate(r, c) => NetHistory(w, r, w.Net(r) + multiset{c});
  }

  lemma {:induction false} NetHistory(w: World, r: Role, net: multiset<Ciphertext>)
    requires History(w)
    ensures History(w.WithNet(r, net))
  {
    var v := w.WithNet(r, net);
    forall t | t in v.taken
      ensures exists i: nat :: OpenedAt(v, t, i)
    {
      var i: nat :| OpenedAt(w, t, i);
      assert OpenedAt(v, t, i);
    }
  }

  lemma {:induction false} RunHistory(v: World, evs: seq<Event>, w: World)
    requires Inv(v) && History(v) && Run(v, evs, w)
    ensures Inv(w) && History(w)
    decreases |evs|
  {
    hide Inv, History, Enabled, After;
    if |evs| > 0 {
      StepKeepsInv(v, evs[0]);
      StepHistory(v, evs[0]);
      RunHistory(After(v, evs[0]), evs[1..], w);
    }
  }

  lemma {:induction false} ReachableHistory(w: World)
    requires Reachable(w)
    ensures Inv(w) && History(w)
  {
    hide Run, Inv;
    var seed, ad, spk, own, evs :| spk != own && Run(Start(seed, ad, spk, own), evs, w);
    StartInv(seed, ad, spk, own);
    RunHistory(Start(seed, ad, spk, own), evs, w);
  }

  // ---------- Silence lasts ----------

  /** A packet that is not within the limits is refused, and no later number is within them either. */
  lemma {:induction false} SilentRefuses(w: World, ev: Event)
    requires Inv(w) && Silent(w)
    ensures !AcceptsNew(w, ev)
  {
    hide Inv, Ratchet.Decrypt, WithinLimits, Stale;
    if ev.Deliver? && MayDeliver(w, ev.to, ev.packet, ev.draw) && Unopened(w, ev.packet) {
      assert NothingUnderWay(w, Alice) && NothingUnderWay(w, Bob);
      FirstDelivery(w, ev.to, ev.packet, ev.draw);
    }
  }

  lemma {:induction false} EncryptSilent(w: World, r: Role, plaintext: Bytes, draw: KeyId)
    requires Inv(w) && Silent(w) && Enabled(w, Event.Encrypt(r, plaintext, draw))
    ensures Silent(Encrypted(w, r, plaintext, draw))
  {
    hide CacheSound, Retained, LogOk, NetOk, CountersOk, StepsOk, Schedule.Message, Root;
    hide Ratchet.Encrypt, Encrypted, NothingUnderWay, NothingToSay;
    assert PartyOk(w, r);
    var p, v := w.Party(r), Encrypted(w, r, plaintext, draw);
    EncryptInSync(p, r, w.s, plaintext, draw);
    if r == Bob && Listening(p, w.s) {
      NobodySpeaks(w, plaintext, draw);
    } else {
      EncryptedIs(w, r, plaintext, draw);
      SpokeSilent(w, v, r, EntryOf(w, r, plaintext, draw).out);
    }
  }

  /** A send adds its packet and counts on. */
  lemma {:induction false} SpokeSilent(w: World, v: World, r: Role, out: Option<Ciphertext>)
    requires Silent(w) && v.s == w.s && v.taken == w.taken && v.Party(r.Peer()) == w.Party(r.Peer())
    requires v.Party(r).sendNo == w.Party(r).sendNo + 1 && v.Party(r).prevSendNo == w.Party(r).prevSendNo
    requires v.Party(r).recvNo == w.Party(r).recvNo && v.Party(r).peer == w.Party(r).peer
    requires r == Alice || |w.s.keys| >= 3
    requires out.Some? <==> CanSpeak(w, r)
    requires out.Some? ==> out.value.Packet? && out.value.header == NextHeader(w, r)
    requires v.Net(r) == w.Net(r)
    requires v.Net(r.Peer()) == w.Net(r.Peer()) + if out.Some? then multiset{out.value} else multiset{}
    ensures Silent(v)
  {
    hide Stale, NothingUnderWay, NothingToSay;
    assert NothingUnderWay(w, r) && NothingUnderWay(w, r.Peer()) && NothingToSay(w, r) && NothingToSay(w, r.Peer());
    SpokeLimits(w, v, r);
    SpokeParty(w, v, r, out);
    assert NothingUnderWay(v, r) && NothingToSay(v, r.Peer()) && NothingToSay(v, r) && NothingUnderWay(v, r.Peer());
  }

  lemma {:induction false} SpokeLimits(w: World, v: World, r: Role)
    requires v.Party(r.Peer()) == w.Party(r.Peer())
    requires v.Party(r).recvNo == w.Party(r).recvNo && v.Party(r).peer == w.Party(r).peer
    ensures forall q: Role, h: Header :: WithinLimits(v, q, h) == WithinLimits(w, q, h)
    ensures forall q: Role, h: Header, n: Number :: h.msgNo <= n && !WithinLimits(w, q, h) ==>
              !WithinLimits(w, q, h.(msgNo := n))
  {
  }

  /** The speaker's next packet is no nearer, and its last one was not within the limits. */
  lemma {:induction false} SpokeParty(w: World, v: World, r: Role, out: Option<Ciphertext>)
    requires |w.s.keys| >= 2 && v.s == w.s && v.taken == w.taken && v.Party(r.Peer()) == w.Party(r.Peer())
    requires NothingUnderWay(w, r) && NothingUnderWay(w, r.Peer()) && NothingToSay(w, r) && NothingToSay(w, r.Peer())
    requires v.Party(r).sendNo == w.Party(r).sendNo + 1 && v.Party(r).prevSendNo == w.Party(r).prevSendNo
    requires out.Some? <==> CanSpeak(w, r)
    requires out.Some? ==> out.value.Packet? && out.value.header == NextHeader(w, r)
    requires v.Net(r) == w.Net(r)
    requires v.Net(r.Peer()) == w.Net(r.Peer()) + if out.Some? then multiset{out.value} else multiset{}
    requires forall q: Role, h: Header :: WithinLimits(v, q, h) == WithinLimits(w, q, h)
    requires forall q: Role, h: Header, n: Number :: h.msgNo <= n && !WithinLimits(w, q, h) ==>
               !WithinLimits(w, q, h.(msgNo := n))
    ensures NothingUnderWay(v, r) && NothingUnderWay(v, r.Peer()) && NothingToSay(v, r) && NothingToSay(v, r.Peer())
  {
    hide Stale, WithinLimits;
    if CanSpeak(v, r) {
      assert NextHeader(v, r) == NextHeader(w, r).(msgNo := v.Party(r).sendNo);
    }
    assert CanSpeak(v, r.Peer()) == CanSpeak(w, r.Peer());
  }

  /** Ratchets that do not move, and no packets that were not under way before. */
  lemma {:induction false} UnmovedSilent(w: World, v: World)
    requires Silent(w) && v.s == w.s && v.alice == w.alice && v.bob == w.bob && w.taken <= v.taken
    requires forall o: Role, c :: c in v.Net(o) ==> c in w.Net(o)
    ensures Silent(v)
  {
    hide Stale, WithinLimits, NothingUnderWay, NothingToSay;
    SameLimits(w, v);
    UnmovedParty(w, v, Alice);
    UnmovedParty(w, v, Bob);
    if |w.s.keys| == 2 {
      forall c | c in v.Net(Bob)
        ensures c in w.Net(Bob)
      {
      }
      assert v.Net(Bob) == multiset{};
    }
  }

  lemma {:induction false} UnmovedParty(w: World, v: World, o: Role)
    requires |w.s.keys| >= 2 && NothingUnderWay(w, o) && NothingToSay(w, o)
    requires v.s == w.s && v.alice == w.alice && v.bob == w.bob && w.taken <= v.taken
    requires forall c :: c in v.Net(o) ==> c in w.Net(o)
    requires forall q: Role, h: Header :: WithinLimits(v, q, h) == WithinLimits(w, q, h)
    ensures NothingUnderWay(v, o) && NothingToSay(v, o)
  {
    hide Stale, WithinLimits;
  }

  lemma {:induction false} NetSilent(w: World, r: Role, net: multiset<Ciphertext>)
    requires Silent(w) && forall c :: c in net ==> c in w.Net(r)
    ensures Silent(w.WithNet(r, net))
  {
    hide Silent;
    var v := w.WithNet(r, net);
    assert forall o: Role, c :: c in v.Net(o) ==> c in w.Net(o);
    UnmovedSilent(w, v);
  }

  lemma {:induction false} SameLimits(w: World, v: World)
    requires v.alice == w.alice && v.bob == w.bob
    ensures forall q: Role, h: Header :: WithinLimits(v, q, h) == WithinLimits(w, q, h)
  {
  }

  /** A number opened before does not move its reader, and is not on a next chain. */
  lemma {:induction false} OpenedBefore(w: World, r: Role, c: Ciphertext, draw: KeyId)
    requires Inv(w) && History(w) && MayDeliver(w, r, c, draw) && c.Packet? && !Unopened(w, c)
    ensures Delivered(w, r, c, draw).Party(r) == w.Party(r) && Delivered(w, r, c, draw).s == w.s
  {
    hide Inv, Delivered, Ratchet.Decrypt, Count;
    var x := DeliverEffect(w, r, c, draw);
    var i: nat :| OpenedAt(w, (c.header.dhPub, c.header.msgNo), i);
    assert i == w.log[x].chain && Reader(i) == r;
  }

  /** A refused packet whose chain was followed: the new chain of the receiver is out of reach as well. */
  lemma {:induction false} OverstepSilent(w: World, r: Role, c: Ciphertext, draw: KeyId)
    requires Inv(w) && History(w) && Silent(w) && MayDeliver(w, r, c, draw) && c.Packet?
    requires w.Party(r).Decrypt(c, draw).result.Err? && w.Party(r).Decrypt(c, draw).state != w.Party(r)
    ensures Silent(Delivered(w, r, c, draw))
  {
    hide Delivered, Ratchet.Decrypt, Inv, Count, NothingUnderWay, NothingToSay, Stale, History;
    var x := DeliverEffect(w, r, c, draw);
    var v, a := Delivered(w, r, c, draw), r.Peer();
    SomethingWasSent(w, r, c);
    assert NothingUnderWay(w, r) && NothingUnderWay(w, a) && NothingToSay(w, r) && NothingToSay(w, a);
    ReaderAt(w, a);
    OverstepUnderWay(w, r, c, draw);
    EarlierIsStale(w, v, a, draw);
    LengthsOk(w, r);
    OverstepNext(w, v, r, draw);
    assert NothingUnderWay(v, r) && NothingToSay(v, r);
  }

  lemma {:induction false} LengthsOk(w: World, r: Role)
    requires History(w)
    ensures LengthOk(w, r)
  {
  }

  /** Neither the receiver's first packet on its new chain nor its peer's next packet is within the limits. */
  lemma {:induction false} OverstepNext(w: World, v: World, r: Role, draw: KeyId)
    requires w.s.Valid() && |w.s.keys| >= 3 && draw !in w.s.keys && v.s == w.s.Draw(draw)
    requires NothingToSay(w, r) && LengthOk(w, r)
    requires Epoch(w.s, r) == |w.s.keys| - 2 && Epoch(w.s, r.Peer()) == |w.s.keys| - 1
    requires v.Party(r.Peer()) == w.Party(r.Peer()) && v.Party(r).recvNo == 0 && v.Party(r).sendNo == 0
    requires v.Party(r).prevSendNo == w.Party(r).sendNo && v.Party(r).peer == Some(w.s.Pub(|w.s.keys| - 1))
    requires w.Party(r.Peer()).peer == Some(w.s.Pub(|w.s.keys| - 2)) && w.Party(r.Peer()).sendNo > MAX_SKIP_ELEMENTS
    ensures NothingToSay(v, r) && NothingToSay(v, r.Peer())
  {
  }

  /** A party with a receiving chain knows its peer by that chain. */
  lemma {:induction false} ReaderAt(w: World, r: Role)
    requires Inv(w) && |w.s.keys| >= 3
    ensures w.s.Valid() && Epoch(w.s, r) >= 1 && w.Party(r).peer == Some(w.s.Pub(Epoch(w.s, r) - 1))
  {
    hide CacheSound, Retained, LogOk, NetOk, CountersOk, StepsOk, Root;
    assert PartyOk(w, r);
  }

  lemma {:induction false} SomethingWasSent(w: World, r: Role, c: Ciphertext)
    requires Inv(w) && Silent(w) && c in w.Net(r)
    ensures |w.s.keys| >= 3
  {
    hide CacheSound, Retained, LogOk, CountersOk, StepsOk, Root, Count, Schedule.Message;
    if |w.s.keys| == 2 && r == Alice {
      var x := PacketShape(w, r, c);
    }
  }

  /** Staleness for a party that has not moved does not depend on a key pair that its peer draws. */
  lemma {:induction false} EarlierIsStale(w: World, v: World, a: Role, draw: KeyId)
    requires w.s.Valid() && v.s == w.s.Draw(draw) && Epoch(w.s, a) == |w.s.keys| - 1 && NothingUnderWay(w, a)
    requires v.Party(a) == w.Party(a) && v.Net(a) == w.Net(a) && v.taken == w.taken
    ensures NothingUnderWay(v, a)
  {
    hide Stale;
    forall c | c in v.Net(a) && Unopened(v, c) && !Stale(v.s, a, c)
      ensures !WithinLimits(v, a, c.header)
    {
      StaysStale(w.s, a, c, draw);
      assert Unopened(w, c);
    }
  }

  lemma {:induction false} StaysStale(s: Schedule, a: Role, c: Ciphertext, draw: KeyId)
    requires s.Valid() && Epoch(s, a) == |s.keys| - 1
    ensures Stale(s, a, c) ==> Stale(s.Draw(draw), a, c)
  {
    if Stale(s, a, c) {
      var i :| 0 <= i < Epoch(s, a) - 1 && c.header.dhPub == s.Pub(i);
      assert c.header.dhPub == s.Draw(draw).Pub(i);
    }
  }

  /** What is still under way to the receiver was out of reach before. */
  lemma {:induction false} OverstepUnderWay(w: World, r: Role, c: Ciphertext, draw: KeyId)
    requires Inv(w) && Silent(w) && MayDeliver(w, r, c, draw) && c.Packet?
    requires w.Party(r).Decrypt(c, draw).result.Err? && w.Party(r).Decrypt(c, draw).state != w.Party(r)
    ensures |Delivered(w, r, c, draw).s.keys| >= 2 && NothingUnderWay(Delivered(w, r, c, draw), r)
  {
    hide Delivered, Ratchet.Decrypt, Inv, Count, Stale, NothingToSay;
    var x := DeliverEffect(w, r, c, draw);
    var v, p := Delivered(w, r, c, draw), w.Party(r);
    assert NothingUnderWay(w, Alice) && NothingUnderWay(w, Bob);
    forall d | d in v.Net(r) && Unopened(v, d) && !Stale(v.s, r, d)
      ensures !WithinLimits(v, r, d.header)
    {
      SameChainUnderWay(w, v, r, c, d, draw);
    }
  }

  /** What is under way and not stale for a party that has just moved is on the chain that it has moved to. */
  lemma {:induction false} SameChainUnderWay(w: World, v: World, r: Role, c: Ciphertext, d: Ciphertext, draw: KeyId)
    requires Inv(v) && w.s.Valid() && v.s == w.s.Draw(draw) && v.log == w.log && Epoch(w.s, r) == |w.s.keys| - 2
    requires d in v.Net(r) && !Stale(v.s, r, d)
    requires c.Packet? && c.header.dhPub == w.s.Pub(|w.s.keys| - 1) && c.header.prevNo == Count(w.log, |w.s.keys| - 3)
    ensures d.Packet? && d.header.dhPub == c.header.dhPub && d.header.prevNo == c.header.prevNo && !Stale(w.s, r, d)
  {
    hide Inv, Count, Schedule.Message;
    var y := PacketShape(v, r, d);
    assert v.log[y].chain == |w.s.keys| - 1;
    NotStale(w.s, r, d);
  }

  lemma {:induction false} DeliverSilent(w: World, r: Role, c: Ciphertext, draw: KeyId)
    requires Inv(w) && History(w) && Silent(w) && MayDeliver(w, r, c, draw)
    ensures Silent(Delivered(w, r, c, draw))
  {
    hide Inv, History, Silent, Delivered, Ratchet.Decrypt, Count, Unopened, WithinLimits;
    var x := DeliverEffect(w, r, c, draw);
    var v := Delivered(w, r, c, draw);
    if !Unopened(w, c) {
      OpenedBefore(w, r, c, draw);
      SameParties(w, v, r);
      NetsShrink(w, v, r);
      UnmovedSilent(w, v);
    } else {
      SilentRefuses(w, Deliver(r, c, draw));
      if w.Party(r).Decrypt(c, draw).state == w.Party(r) {
        KeysStay(w, r, c, draw, x);
        SameParties(w, v, r);
        NetsShrink(w, v, r);
      UnmovedSilent(w, v);
      } else {
        OverstepSilent(w, r, c, draw);
      }
    }
  }

  lemma {:induction false} NetsShrink(w: World, v: World, r: Role)
    requires v.Net(r) <= w.Net(r) && v.Net(r.Peer()) == w.Net(r.Peer())
    ensures forall o: Role, c :: c in v.Net(o) ==> c in w.Net(o)
  {
  }

  lemma {:induction false} SameParties(w: World, v: World, r: Role)
    requires v.Party(r) == w.Party(r) && v.Party(r.Peer()) == w.Party(r.Peer())
    ensures v.alice == w.alice && v.bob == w.bob
  {
  }

  lemma {:induction false} KeysStay(w: World, r: Role, c: Ciphertext, draw: KeyId, x: nat)
    requires w.Party(r).recv.Some? ==> w.Party(r).peer.Some?
    requires w.Party(r).Decrypt(c, draw).state == w.Party(r)
    ensures Delivered(w, r, c, draw).s == w.s
  {
    hide Ratchet.Decrypt;
  }

  lemma {:induction false} StepSilent(w: World, ev: Event)
    requires Inv(w) && History(w) && Silent(w) && Enabled(w, ev)
    ensures (forall r: Role :: w.Party(r).recv.Some? ==> w.Party(r).peer.Some?) && Silent(After(w, ev))
  {
    hide Inv, History, Encrypted, Delivered, NothingUnderWay, NothingToSay;
    InvValid(w);
    match ev
    case Encrypt(r, plaintext, draw) => EncryptSilent(w, r, plaintext, draw);
    case Deliver(r, c, draw) => DeliverSilent(w, r, c, draw);
    case Drop(r, c) => NetSilent(w, r, w.Net(r) - multiset{c});
    case Duplicate(r, c) => NetSilent(w, r, w.Net(r) + multiset{c});
  }

  lemma {:induction false} SilenceLasts(w: World, evs: seq<Event>, v: World)
    requires Inv(w) && History(w) && Silent(w) && Run(w, evs, v)
    ensures Inv(v) && Silent(v)
    decreases |evs|
  {
    hide Inv, History, Silent, Enabled, After;
    if |evs| > 0 {
      StepKeepsInv(w, evs[0]);
      StepHistory(w, evs[0]);
      StepSilent(w, evs[0]);
      SilenceLasts(After(w, evs[0]), evs[1..], v);
    }
  }

  // ---------- Otherwise there is something to say ----------

  /** A packet under way that is new and within the limits is accepted. */
  lemma {:induction false} UnderWayIsHeard(w: World, r: Role, c: Ciphertext, draw: KeyId)
    requires Inv(w) && |w.s.keys| >= 2 && draw !in w.s.keys
    requires c in w.Net(r) && Unopened(w, c) && !Stale(w.s, r, c) && WithinLimits(w, r, c.header)
    ensures AcceptsNew(w, Deliver(r, c, draw))
  {
    hide Inv, Ratchet.Decrypt, WithinLimits;
    InvValid(w);
    FirstDelivery(w, r, c, draw);
  }

  /** A party that can speak within the limits of its peer is heard. */
  lemma {:induction false} SpeakerIsHeard(w: World, r: Role, draw: KeyId) returns (ev: Event)
    requires Inv(w) && History(w) && CanSpeak(w, r) && draw !in w.s.keys
    requires WithinLimits(w, r.Peer(), NextHeader(w, r))
    ensures Enabled(w, Event.Encrypt(r, [], draw)) && AcceptsNew(Encrypted(w, r, [], draw), ev)
    ensures ev.draw == draw
  {
    hide CacheSound, Retained, LogOk, NetOk, StepsOk, Schedule.Message, Root, Ratchet.Encrypt, Encrypted, Count;
    assert PartyOk(w, r);
    EncryptInSync(w.Party(r), r, w.s, [], draw);
    EncryptedIs(w, r, [], draw);
    EncryptKeepsInv(w, r, [], draw);
    var v, c := Encrypted(w, r, [], draw), w.Party(r).Encrypt([], draw).result.value;
    assert c in v.Net(r.Peer());
    NextIsNew(w, r);
    NextIsLive(w.s, r, c);
    UnderWayIsHeard(v, r.Peer(), c, draw);
    ev := Deliver(r.Peer(), c, draw);
  }

  lemma {:induction false} NextIsLive(s: Schedule, r: Role, c: Ciphertext)
    requires s.Valid() && c.Packet? && c.header.dhPub == s.Pub(Epoch(s, r))
    ensures !Stale(s, r.Peer(), c)
  {
  }

  /** The next number of a party has not been opened. */
  lemma {:induction false} NextIsNew(w: World, r: Role)
    requires Inv(w) && History(w) && CanSpeak(w, r)
    ensures (w.s.Pub(Epoch(w.s, r)), w.Party(r).sendNo) !in w.taken
  {
    hide InSync, Retained, LogOk, NetOk, StepsOk, Count, OpenedAt;
    assert PartyOk(w, r);
    var t := (w.s.Pub(Epoch(w.s, r)), w.Party(r).sendNo);
    if t in w.taken {
      var i: nat :| OpenedAt(w, t, i);
      OpenedWasSent(w, t, i, Epoch(w.s, r));
    }
  }

  lemma {:induction false} OpenedWasSent(w: World, t: (Pub, nat), i: nat, j: nat)
    requires w.s.Valid() && OpenedAt(w, t, i) && j < |w.s.keys| && t.0 == w.s.Pub(j)
    ensures t.1 < Count(w.log, j)
  {
  }

  lemma {:induction false} SpeaksNow(w: World, ev: Event)
    requires AcceptsNew(w, ev)
    ensures Speaks(w)
  {
    assert Run(w, [], w);
  }

  lemma {:induction false} SpeaksLater(w: World, ev: Event)
    requires Inv(w) && |w.s.keys| >= 2 && Enabled(w, ev)
    requires forall r: Role :: w.Party(r).recv.Some? ==> w.Party(r).peer.Some?
    requires Speaks(After(w, ev))
    ensures Speaks(w)
  {
    hide Inv, After, Enabled, AcceptsNew;
    var evs, v, last :| Run(After(w, ev), evs, v) && AcceptsNew(v, last);
    assert ([ev] + evs)[1..] == evs;
    assert Run(w, [ev] + evs, v);
  }

  lemma {:induction false} SpeakerSpeaks(w: World, r: Role, draw: KeyId)
    requires Inv(w) && History(w) && CanSpeak(w, r) && draw !in w.s.keys
    requires WithinLimits(w, r.Peer(), NextHeader(w, r))
    ensures Speaks(w)
  {
    hide Inv, History, WithinLimits, AcceptsNew, Encrypted, Speaks;
    InvValid(w);
    var ev := SpeakerIsHeard(w, r, draw);
    SpeaksNow(Encrypted(w, r, [], draw), ev);
    SpeaksLater(w, Event.Encrypt(r, [], draw));
  }

  /** Before Bob has opened anything, a packet under way to him is accepted or gives him a chain of his own. */
  lemma {:induction false} FirstIsHeard(w: World, c: Ciphertext, k: KeyId, l: KeyId)
    requires Inv(w) && History(w) && |w.s.keys| == 2 && c in w.toBob && k !in w.s.keys && l !in w.s.keys && k != l
    ensures Speaks(w)
  {
    hide Inv, AcceptsNew, Delivered, Ratchet.Decrypt, Speaks, Count;
    InvValid(w);
    FirstIsNew(w, c);
    if WithinLimits(w, Bob, c.header) {
      UnderWayIsHeard(w, Bob, c, k);
      SpeaksNow(w, Deliver(Bob, c, k));
    } else {
      var x := DeliverEffect(w, Bob, c, k);
      FirstFacts(w, c);
      var v := Delivered(w, Bob, c, k);
      DeliverHistory(w, Bob, c, k);
      SpeakerSpeaks(v, Bob, l);
      SpeaksLater(w, Deliver(Bob, c, k));
    }
  }

  lemma {:induction false} FirstIsNew(w: World, c: Ciphertext)
    requires Inv(w) && History(w) && |w.s.keys| == 2 && c in w.toBob
    ensures Unopened(w, c) && !Stale(w.s, Bob, c)
  {
    hide InSync, Retained, LogOk, CountersOk, StepsOk, Count, Schedule.Message, OpenedAt;
    var x := PacketShape(w, Bob, c);
    var t := (c.header.dhPub, c.header.msgNo);
    if t in w.taken {
      var i: nat :| OpenedAt(w, t, i);
      OpeningTakesAChain(w, t, i);
    }
  }

  lemma {:induction false} OpeningTakesAChain(w: World, t: (Pub, nat), i: nat)
    requires |w.s.keys| >= 2 && OpenedAt(w, t, i)
    ensures |w.s.keys| >= 3
  {
  }

  /** What Alice's ratchet and Bob's look like before Bob has opened anything. */
  lemma {:induction false} FirstFacts(w: World, c: Ciphertext)
    requires Inv(w) && |w.s.keys| == 2 && c in w.toBob
    ensures w.s.Valid() && c.Packet? && c.header.prevNo == 0 && w.bob.sendNo == 0 && w.bob.peer == None
    ensures w.alice.peer == Some(w.s.Pub(0))
  {
    hide CacheSound, Retained, NetOk, CountersOk, StepsOk, Schedule.Message, Root;
    assert PartyOk(w, Alice) && PartyOk(w, Bob);
    var x := PacketShape(w, Bob, c);
    forall y | 0 <= y < |w.log|
      ensures w.log[y].chain > 0
    {
      assert EntryOk(w.s, w.log, y);
    }
    CountAbsent(w.log, -1);
  }

  /** If the condition fails, some run accepts something new. */
  lemma {:induction false} OtherwiseSpeaks(w: World)
    requires Inv(w) && History(w) && !Silent(w)
    ensures Speaks(w)
  {
    hide Inv, History, WithinLimits, Speaks, Stale;
    InvKeys(w);
    var k := NewKey(w.s.keys);
    var l := NewKey(w.s.keys + [k]);
    if r: Role, c :| c in w.Net(r) && Unopened(w, c) && !Stale(w.s, r, c) && WithinLimits(w, r, c.header) {
      UnderWayIsHeard(w, r, c, k);
      SpeaksNow(w, Deliver(r, c, k));
    } else if r: Role :| CanSpeak(w, r) && WithinLimits(w, r.Peer(), NextHeader(w, r)) {
      SpeakerSpeaks(w, r, k);
    } else {
      assert NothingUnderWay(w, Alice) && NothingUnderWay(w, Bob) && NothingToSay(w, Alice) && NothingToSay(w, Bob);
      if c :| c in w.toBob {
        FirstIsHeard(w, c, k, l);
      } else {
        AliceStarts(w, k, l);
      }
    }
  }

  /** Alice sends a packet, and that one is heard or gives Bob a chain of his own. */
  lemma {:induction false} AliceStarts(w: World, k: KeyId, l: KeyId)
    requires Inv(w) && History(w) && |w.s.keys| == 2 && CanSpeak(w, Alice)
    requires k !in w.s.keys && l !in w.s.keys && k != l
    ensures Speaks(w)
  {
    hide CacheSound, Retained, LogOk, NetOk, StepsOk, Schedule.Message, Root, Ratchet.Encrypt, Encrypted, Count;
    hide Speaks, History;
    assert PartyOk(w, Alice);
    InvValid(w);
    EncryptInSync(w.alice, Alice, w.s, [], k);
    EncryptedIs(w, Alice, [], k);
    EncryptKeepsInv(w, Alice, [], k);
    EncryptHistory(w, Alice, [], k);
    var v, c := Encrypted(w, Alice, [], k), w.alice.Encrypt([], k).result.value;
    assert c in v.Net(Bob);
    FirstIsHeard(v, c, k, l);
    SpeaksLater(w, Event.Encrypt(Alice, [], k));
  }

  /**
   When a session is over.  In every reachable world: no run ever accepts a new number in either
   direction if and only if nothing new under way is within its receiver's limits, the next packet of
   neither party is, and Bob is not still waiting for the first packet that Alice sent or can send.
   */
  lemma {:induction false} SilentIff(w: World)
    requires Reachable(w)
    ensures Silent(w) <==> !Speaks(w)
  {
    hide Reachable, Inv, History, Silent, Run, AcceptsNew;
    ReachableHistory(w);
    if !Silent(w) {
      OtherwiseSpeaks(w);
    } else if Speaks(w) {
      var evs, v, ev :| Run(w, evs, v) && AcceptsNew(v, ev);
      SilenceLasts(w, evs, v);
      SilentRefuses(v, ev);
    }
  }
}
