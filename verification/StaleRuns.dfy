/** Stale packets in runs: what every one of them is, and a run that has one. */
module StaleRuns {
  import opened Wrappers
  import opened Keys
  import opened SkippedKeys
  import opened Ratchets
  import opened Inserts
  import opened Persistence
  import opened Sync
  import opened Runs
  import opened RunTheorems
  import opened Astray

  /** Every stale packet under way in a reachable world was made on a superseded chain, for a receiver in step. */
  lemma {:induction false} StaleWasMade(w: World, r: Role, c: Ciphertext) returns (i: nat)
    requires Reachable(w) && c in w.Net(r) && |w.s.keys| >= 2 && Stale(w.s, r, c)
    ensures InSync(w.Party(r), r, w.s) && Running(w.Party(r), r, w.s)
    ensures 0 < i < Epoch(w.s, r) - 1 && MadeOn(c, w.s, i)
    ensures c.header.prevNo <= w.Party(r).recvNo + MAX_SKIP_ELEMENTS ==>
              StaleAt(w.Party(r), w.Party(r.Peer()), r, w.s, i, c)
  {
    hide Reachable, CacheSound, Retained, LogOk, NetOk, CountersOk, StepsOk, Schedule.Message, Root;
    ReachableInv(w);
    assert PartyOk(w, r) && PartyOk(w, r.Peer());
    var x := PacketShape(w, r, c);
    i := w.log[x].chain;
  }

  // ---------- Steps of a run ----------

  lemma {:induction false} RunAppend(v: World, evs: seq<Event>, w: World, ev: Event)
    requires Run(v, evs, w) && |w.s.keys| >= 2
    requires (forall r: Role :: w.Party(r).recv.Some? ==> w.Party(r).peer.Some?) && Enabled(w, ev)
    ensures Run(v, evs + [ev], After(w, ev))
    decreases |evs|
  {
    hide After, Enabled;
    if |evs| == 0 {
      assert (evs + [ev])[1..] == [];
    } else {
      RunAppend(After(v, evs[0]), evs[1..], w, ev);
      assert (evs + [ev])[1..] == evs[1..] + [ev];
    }
  }

  lemma {:induction false} ReachableNext(w: World, ev: Event)
    requires Reachable(w) && |w.s.keys| >= 2 && Enabled(w, ev)
    ensures forall r: Role :: w.Party(r).recv.Some? ==> w.Party(r).peer.Some?
    ensures Reachable(After(w, ev))
  {
    hide Run, Inv, Enabled, After;
    ReachableInv(w);
    InvValid(w);
    var seed, ad, spk, own, evs :| spk != own && Run(Start(seed, ad, spk, own), evs, w);
    RunAppend(Start(seed, ad, spk, own), evs, w, ev);
  }

  /** A party sends; the packet is under way to its peer. */
  lemma {:induction false} Say(w: World, r: Role, draw: KeyId) returns (v: World, c: Ciphertext)
    requires Reachable(w) && draw !in w.s.keys && |w.s.keys| >= 2 && (r == Alice || |w.s.keys| >= 3)
    requires w.Party(r).sendNo < NUMBER_LIMIT && w.Party(r).prevSendNo < NUMBER_LIMIT
    ensures Reachable(v) && v.s == w.s && v.taken == w.taken && v.Party(r.Peer()) == w.Party(r.Peer())
    ensures v.Net(r) == w.Net(r) && v.Net(r.Peer()) == w.Net(r.Peer()) + multiset{c}
    ensures v.Party(r).sendNo == w.Party(r).sendNo + 1 && v.Party(r).recvNo == w.Party(r).recvNo
    ensures v.Party(r).prevSendNo == w.Party(r).prevSendNo && v.Party(r).buffer == w.Party(r).buffer
    ensures c.Packet? && c.header == Header(w.s.Pub(Epoch(w.s, r)), w.Party(r).prevSendNo, w.Party(r).sendNo)
  {
    hide Reachable, CacheSound, Retained, LogOk, NetOk, CountersOk, StepsOk, Schedule.Message, Root, Ratchet.Encrypt;
    hide Encrypted;
    ReachableInv(w);
    assert PartyOk(w, r);
    ReachableNext(w, Event.Encrypt(r, [], draw));
    EncryptInSync(w.Party(r), r, w.s, [], draw);
    EncryptedIs(w, r, [], draw);
    v := Encrypted(w, r, [], draw);
    c := w.Party(r).Encrypt([], draw).result.value;
  }

  /** A party reads a packet of its peer's next chain and caches the keys of the numbers before it. */
  lemma {:induction false} Hear(w: World, r: Role, c: Ciphertext, draw: KeyId) returns (v: World, chain: Key)
    requires Reachable(w) && draw !in w.s.keys && |w.s.keys| >= 2 && c in w.Net(r)
    requires Epoch(w.s, r) == |w.s.keys| - 2 && c.Packet? && c.header.dhPub == w.s.Pub(|w.s.keys| - 1)
    requires c.header.msgNo <= MAX_SKIP_ELEMENTS && c.header.prevNo <= w.Party(r).recvNo
    ensures Reachable(v) && v.s == w.s.Draw(draw) && v.Party(r.Peer()) == w.Party(r.Peer())
    ensures v.Net(r.Peer()) == w.Net(r.Peer()) && v.Net(r) == w.Net(r) - multiset{c}
    ensures v.Party(r).recvNo == c.header.msgNo + 1 && v.Party(r).sendNo == 0
    ensures v.Party(r).prevSendNo == w.Party(r).sendNo
    ensures v.taken == w.taken + {(c.header.dhPub, c.header.msgNo)}
    ensures v.Party(r).buffer == Play(w.Party(r).buffer, SkipOps(c.header.dhPub, chain, 0, c.header.msgNo))
  {
    hide Reachable, Retained, LogOk, NetOk, CountersOk, StepsOk, Schedule.Message, Ratchet.Decrypt, Delivered;
    hide InSync, Running;
    ReachableInv(w);
    assert PartyOk(w, r);
    InSyncValid(w.Party(r), r, w.s);
    var x := PacketShape(w, r, c);
    assert w.log[x].chain == |w.s.keys| - 1;
    SenderRuns(w, r, x);
    NotStale(w.s, r, c);
    ReachableNext(w, Deliver(r, c, draw));
    DecryptFollows(w.Party(r), r, w.s, c, w.log[x].plaintext, draw);
    DeliveredIs(w, r, c, draw);
    chain := HearInserts(w.Party(r), r, w.s, c, draw);
    v := Delivered(w, r, c, draw);
  }

  lemma {:induction false} HearInserts(p: Ratchet, r: Role, s: Schedule, c: Ciphertext, draw: KeyId)
    returns (chain: Key)
    requires InSync(p, r, s) && !(r == Alice && Waiting(p, s)) && draw !in s.keys && p.Valid()
    requires Epoch(s, r) == |s.keys| - 2 && c.Packet? && c.header.dhPub == s.Pub(|s.keys| - 1)
    requires p.peer != Some(c.header.dhPub) && c.header.prevNo <= p.recvNo && c.header.msgNo <= MAX_SKIP_ELEMENTS
    ensures p.Decrypt(c, draw).state.buffer == Play(p.buffer, SkipOps(c.header.dhPub, chain, 0, c.header.msgNo))
  {
    hide InSync, Waiting, Listening, Ratchet.Decrypt, Ratchet.Rekey, CacheSound, TailCached;
    RekeyInSync(p, r, s, c.header, draw);
    DecryptBuffer(p, c, draw);
    var m := p.Rekey(c.header, draw).state;
    SkipValid(p, c.header.prevNo);
    assert SkipOpsOf(p, c.header.prevNo) == [];
    chain := if m.recv.Some? then m.recv.value else s.seed;
    assert m.recv.Some?;
    assert DecryptOps(p, c, draw) == SkipOps(c.header.dhPub, chain, 0, c.header.msgNo);
  }

  lemma {:induction false} NotStale(s: Schedule, r: Role, c: Ciphertext)
    requires s.Valid() && c.Packet? && c.header.dhPub == s.Pub(|s.keys| - 1)
    ensures !Stale(s, r, c)
  {
  }

  /** What is under way was made on a chain of the schedule. */
  lemma {:induction false} UnderWayWasMade(w: World, r: Role, c: Ciphertext) returns (j: nat)
    requires Reachable(w) && c in w.Net(r)
    ensures MadeOn(c, w.s, j)
  {
    hide Reachable, Inv, Schedule.Message;
    ReachableInv(w);
    InvKeys(w);
    var x := PacketShape(w, r, c);
    j := w.log[x].chain;
  }

  lemma {:induction false} InvKeys(w: World)
    requires Inv(w)
    ensures w.s.Valid()
  {
  }

  // ---------- A run with a stale packet ----------

  /** Alice's first packet, which the network has duplicated; Bob reads one copy and answers, Alice reads the answer. */
  lemma {:induction false} OneTurn() returns (w: World, c: Ciphertext)
    ensures Reachable(w) && w.s.keys == [0, 1, 2, 3] && c in w.toBob
    ensures c.Packet? && c.header == Header(Point(1), 0, 0)
    ensures w.alice.sendNo == 0 && w.alice.prevSendNo == 1 && w.bob.recvNo == 1
    ensures w.taken == {(Point(1), 0), (Point(2), 0)}
  {
    hide Reachable;
    var w0 := StartReachable();
    var w1, c1 := Say(w0, Alice, 9);
    c := c1;
    ReachableNext(w1, Duplicate(Bob, c));
    var w2 := After(w1, Duplicate(Bob, c));
    var w3, _ := Hear(w2, Bob, c, 2);
    assert w3.s.keys == [0, 1, 2];
    var w4, b := Say(w3, Bob, 9);
    assert b in w4.Net(Alice);
    var w5, _ := Hear(w4, Alice, b, 3);
    w := w5;
  }

  lemma {:induction false} StartReachable() returns (w: World)
    ensures Reachable(w) && w == Start(Seed(0), [], 0, 1)
  {
    w := Start(Seed(0), [], 0, 1);
    assert Run(w, [], w);
  }

  /**
   A stale packet does occur: after one more packet of Alice, the copy of her first one is stale,
   within the limit, and takes Bob out of step.
   */
  lemma {:induction false} StaleHappens() returns (w: World, c: Ciphertext)
    ensures Reachable(w) && |w.s.keys| >= 2 && c in w.Net(Bob) && Stale(w.s, Bob, c)
    ensures w.bob.recv.Some? ==> w.bob.peer.Some?
    ensures c.Packet? && c.header.prevNo <= w.bob.recvNo + MAX_SKIP_ELEMENTS
    ensures forall draw: KeyId :: draw !in w.s.keys ==>
              var o := w.bob.Decrypt(c, draw);
              o.result.Err? && !InSync(o.state, Bob, w.s) && !InSync(o.state, Bob, w.s.Draw(draw))
  {
    hide Reachable, InSync, Running, Ratchet.Decrypt, Schedule.Message;
    var w5, c5 := OneTurn();
    c := c5;
    var w6, a := Say(w5, Alice, 9);
    assert a in w6.Net(Bob) && c in w6.Net(Bob) && a != c;
    var w7, _ := Hear(w6, Bob, a, 4);
    w := w7;
    assert c in w.Net(Bob);
    assert c.header.dhPub == w.s.Pub(1);
    var i := StaleWasMade(w, Bob, c);
    InSyncValid(w.bob, Bob, w.s);
    forall draw: KeyId | draw !in w.s.keys
      ensures var o := w.bob.Decrypt(c, draw);
              o.result.Err? && !InSync(o.state, Bob, w.s) && !InSync(o.state, Bob, w.s.Draw(draw))
    {
      StaleKeepsSyncIff(w.bob, Bob, w.s, i, c.header, c.body, draw);
    }
  }

  // ---------- Runs with cached keys ----------

  /** Alice sends two packets, and Bob reads the second one. */
  lemma {:induction false} FirstSkipped() returns (w: World, c: Ciphertext)
    ensures Reachable(w) && w.s.keys == [0, 1, 2] && c in w.toBob
    ensures c.Packet? && c.header == Header(Point(1), 0, 0)
    ensures w.alice.sendNo == 2 && w.alice.recvNo == 0 && w.bob.sendNo == 0 && w.bob.prevSendNo == 0
    ensures w.bob.recvNo == 2 && |w.bob.buffer| == 1 && w.bob.buffer[0].dhPub == Point(1)
    ensures Find(w.bob.buffer, Point(1), 0).Ok? && w.taken == {(Point(1), 1)}
  {
    hide Reachable, Find;
    var w0 := StartReachable();
    var w1, c0 := Say(w0, Alice, 9);
    var w2, c1 := Say(w1, Alice, 9);
    c := c0;
    var w3, chain := Hear(w2, Bob, c1, 2);
    OneSkipped(w2.bob.buffer, Point(1), chain);
    w := w3;
  }

  /** Bob answers, Alice reads the answer and sends two more. */
  lemma {:induction false} SkippedTurn() returns (w: World, c: Ciphertext, a0: Ciphertext, a1: Ciphertext)
    ensures Reachable(w) && w.s.keys == [0, 1, 2, 3] && c in w.toBob && a0 in w.toBob && a1 in w.toBob
    ensures c.Packet? && c.header == Header(Point(1), 0, 0)
    ensures a0.Packet? && a0.header == Header(Point(3), 2, 0) && a1.Packet? && a1.header == Header(Point(3), 2, 1)
    ensures w.bob.recvNo == 2 && |w.bob.buffer| == 1 && w.bob.buffer[0].dhPub == Point(1)
    ensures Find(w.bob.buffer, Point(1), 0).Ok? && w.taken == {(Point(1), 1), (Point(2), 0)}
  {
    hide Reachable, Find, SkipOps, Play;
    var w3, c3 := FirstSkipped();
    c := c3;
    var w4, b := Say(w3, Bob, 9);
    var w5, _ := Hear(w4, Alice, b, 3);
    assert w5.s.keys == [0, 1, 2, 3];
    var w6, d0 := Say(w5, Alice, 9);
    var w7, d1 := Say(w6, Alice, 9);
    w, a0, a1 := w7, d0, d1;
  }

  /** Skipping one number on a chain that is not cached puts that chain in front. */
  lemma {:induction false} OneSkipped(buffer: seq<Chain>, dhPub: Pub, chain: Key)
    requires !Cached(buffer, dhPub) && |buffer| < MAX_SKIP_CHAINS
    ensures var next := Play(buffer, SkipOps(dhPub, chain, 0, 1));
            && next == [Chain(dhPub, map[0 := MessageOf(chain)])] + buffer
            && Find(next, dhPub, 0) == Ok(MessageOf(chain))
  {
    var ops := SkipOps(dhPub, chain, 0, 1);
    assert ops == [Op(dhPub, 0, MessageOf(chain))] && ops[1..] == [];
    FindAfterInsert(buffer, dhPub, 0, MessageOf(chain), 0);
  }

  /** A packet is refused, and opens when it is delivered again. */
  ghost predicate OpensAgain(p: Ratchet, c: Ciphertext, k: KeyId, k': KeyId)
    requires p.Valid()
  {
    var q := p.Decrypt(c, k);
    q.result.Err? && q.state.Valid() && q.state.Decrypt(c, k').result.Ok?
  }

  /** A stale packet whose key is cached: it is refused, and opens when it is delivered again. */
  lemma {:induction false} StaleOpensAgainHappens() returns (w: World, c: Ciphertext)
    ensures Reachable(w) && |w.s.keys| >= 2 && c in w.Net(Bob) && Stale(w.s, Bob, c) && w.bob.Valid()
    ensures forall k, k' :: OpensAgain(w.bob, c, k, k')
  {
    hide Reachable, InSync, Running, Ratchet.Decrypt, Schedule.Message, Find, StaleAt;
    var w6, c6, a0, a1 := SkippedTurn();
    c := c6;
    assert a0 != c;
    var w7, _ := Hear(w6, Bob, a0, 4);
    w := w7;
    assert SkipOps(Point(3), w.s.seed, 0, 0) == [];
    assert c in w.Net(Bob) && c.header.dhPub == w.s.Pub(1);
    var i := StaleWasMade(w, Bob, c);
    InSyncValid(w.bob, Bob, w.s);
    forall k, k'
      ensures OpensAgain(w.bob, c, k, k')
    {
      StaleOpensAgain(w.bob, w.alice, Bob, w.s, i, c, k, k');
    }
  }

  /** After one packet another one is refused, and opens when it is delivered again. */
  ghost predicate OpensAgainAfter(p: Ratchet, first: Ciphertext, k: KeyId, c: Ciphertext, k': KeyId, k'': KeyId)
    requires p.Valid()
  {
    p.Decrypt(first, k).state.Valid() && OpensAgain(p.Decrypt(first, k).state, c, k', k'')
  }

  /** A stale packet is under way, and a live one that Bob has passed over. */
  lemma {:induction false} LiveTurn() returns (w: World, c: Ciphertext, live: Ciphertext)
    ensures Reachable(w) && w.s.keys == [0, 1, 2, 3, 4] && c in w.Net(Bob) && live in w.Net(Bob)
    ensures c.Packet? && c.header == Header(Point(1), 0, 0) && live.Packet? && live.header == Header(Point(3), 1, 0)
    ensures w.bob.recvNo == 2 && (Point(3), 0) !in w.taken
  {
    hide Reachable, SkipOps, Play;
    var w5, c5 := OneTurn();
    c := c5;
    var w6, a0 := Say(w5, Alice, 9);
    var w7, a1 := Say(w6, Alice, 9);
    live := a0;
    assert a0 != a1 && c != a1;
    var w8, _ := Hear(w7, Bob, a1, 4);
    w := w8;
  }

  /** A live packet whose key is cached: after a stale one it is refused, and opens when it is delivered again. */
  lemma {:induction false} LiveOpensAgainHappens() returns (w: World, c: Ciphertext, live: Ciphertext)
    ensures Reachable(w) && |w.s.keys| >= 2 && c in w.Net(Bob) && Stale(w.s, Bob, c)
    ensures live in w.Net(Bob) && !Stale(w.s, Bob, live) && w.bob.Valid()
    ensures forall k, k', k'' :: OpensAgainAfter(w.bob, c, k, live, k', k'')
  {
    hide Reachable, InSync, Running, Ratchet.Decrypt, Schedule.Message, Find, StaleAt, MadeOn;
    var w8, c8, live8 := LiveTurn();
    w, c, live := w8, c8, live8;
    assert c.header.dhPub == w.s.Pub(1) && live.header.dhPub == w.s.Pub(3);
    var i := StaleWasMade(w, Bob, c);
    var j := UnderWayWasMade(w, Bob, live);
    MadeOnIs(live, w.s, j);
    InSyncValid(w.bob, Bob, w.s);
    SkippedKeyIsKept(w, Bob, 0);
    forall k, k', k''
      ensures OpensAgainAfter(w.bob, c, k, live, k', k'')
    {
      LiveOpensAgain(w.bob, w.alice, Bob, w.s, i, c, live, k, k', k'');
    }
  }

  lemma {:induction false} MadeOnIs(c: Ciphertext, s: Schedule, j: nat)
    requires MadeOn(c, s, j)
    ensures 0 < j < |s.keys| && c.Packet? && c.header.dhPub == s.Pub(j)
    ensures c.body.Box? && c.body == Box(s.Message(j, c.header.msgNo), s.ad, c.body.plaintext)
  {
  }

  /** Two cached chains: a packet of the current one opens before a reload and not after it. */
  lemma {:induction false} ReloadForgetsHappens() returns (w: World, c: Ciphertext)
    ensures Reachable(w) && c in w.Net(Bob) && |w.bob.buffer| == 2 && w.bob.Valid() && Reloaded(w.bob).Valid()
    ensures forall draw: KeyId ::
              && w.bob.Decrypt(c, draw).result.Ok?
              && Reloaded(w.bob).Decrypt(c, draw).result == Err(ChainNotCached)
  {
    hide Reachable, InSync, Ratchet.Decrypt, Schedule.Message, Find, MadeOn, Reloaded;
    var w6, _, a0, a1 := SkippedTurn();
    c := a0;
    var w7, chain := Hear(w6, Bob, a1, 4);
    w := w7;
    NotCached(w6.bob.buffer, Point(3));
    OneSkipped(w6.bob.buffer, Point(3), chain);
    assert c in w.Net(Bob) && w.s.keys == [0, 1, 2, 3, 4] && c.header.dhPub == w.s.Pub(3);
    var j := UnderWayWasMade(w, Bob, c);
    MadeOnIs(c, w.s, j);
    SkippedKeyIsKept(w, Bob, 0);
    RunsAt(w, Bob);
    ReloadIsExactIff(w.bob);
    forall draw: KeyId
      ensures w.bob.Decrypt(c, draw).result.Ok? && Reloaded(w.bob).Decrypt(c, draw).result == Err(ChainNotCached)
    {
      ReloadForgetsTheCurrentChain(w.bob, c.header, c.body, draw);
    }
  }

  lemma {:induction false} NotCached(buffer: seq<Chain>, dhPub: Pub)
    requires |buffer| == 1 && buffer[0].dhPub != dhPub
    ensures !Cached(buffer, dhPub)
  {
    IndexOfUnique(buffer, dhPub, 1);
  }

  lemma {:induction false} RunsAt(w: World, r: Role)
    requires Reachable(w) && |w.s.keys| >= 2 && Epoch(w.s, r) >= 2
    ensures w.Party(r).Valid() && w.Party(r).ad == w.s.ad && w.Party(r).peer == Some(w.s.Pub(Epoch(w.s, r) - 1))
  {
    hide Reachable, CacheSound, Retained, LogOk, NetOk, CountersOk, StepsOk, Schedule.Message, Root;
    ReachableInv(w);
    assert PartyOk(w, r);
  }
}
