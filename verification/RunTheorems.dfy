/** What holds in every world that a run without stale deliveries reaches. */
module RunTheorems {
  import opened Wrappers
  import opened Keys
  import opened SkippedKeys
  import opened Ratchets
  import opened Sync
  import opened Logs
  import opened Runs

  /** A delivery that the network and the key generator allow, of a packet that is not stale. */
  ghost predicate MayDeliver(w: World, r: Role, c: Ciphertext, draw: KeyId) {
    && |w.s.keys| >= 2
    && (w.Party(r).recv.Some? ==> w.Party(r).peer.Some?)
    && Enabled(w, Deliver(r, c, draw))
  }

  /** Exactly when a packet is accepted, in terms of its header and the receiver's own state. */
  ghost predicate WithinLimits(w: World, r: Role, h: Header) {
    var p := w.Party(r);
    if p.peer == Some(h.dhPub)
    then h.msgNo <= p.recvNo + MAX_SKIP_ELEMENTS
    else h.prevNo <= p.recvNo + MAX_SKIP_ELEMENTS && h.msgNo <= MAX_SKIP_ELEMENTS
  }

  /** The common case analysis behind the theorems below. */
  lemma {:induction false} DeliverCases(w: World, r: Role, c: Ciphertext, draw: KeyId) returns (x: nat)
    requires Inv(w) && MayDeliver(w, r, c, draw)
    ensures x < |w.log| && w.log[x].sender == r.Peer() && w.log[x].out == Some(c) && c.Packet?
    ensures Inv(Delivered(w, r, c, draw))
    ensures var o := w.Party(r).Decrypt(c, draw);
            && (o.result.Ok? ==> o.result == Ok(w.log[x].plaintext))
            && (o.result.Ok? <==>
                  && WithinLimits(w, r, c.header)
                  && (w.Party(r).peer == Some(c.header.dhPub) && c.header.msgNo < w.Party(r).recvNo ==>
                        HasKey(w.Party(r), c.header.dhPub, c.header.msgNo)))
            && (w.Party(r).peer == Some(c.header.dhPub) ==>
                  Epoch(w.s, r) >= 2 && c.header.dhPub == w.s.Pub(Epoch(w.s, r) - 1) && Running(w.Party(r), r, w.s))
            && (w.Party(r).peer != Some(c.header.dhPub) ==>
                  Epoch(w.s, r) == |w.s.keys| - 2 && c.header.dhPub == w.s.Pub(|w.s.keys| - 1)
                  && w.log[x].chain == |w.s.keys| - 1)
  {
    hide InSync, LogOk, NetOk, Retained, CountersOk, StepsOk, HasKey, Delivered, Ratchet.Decrypt;
    x := PacketShape(w, r, c);
    if w.log[x].chain == Epoch(w.s, r) - 1 {
      CurrentRuns(w, r, x);
      DeliverCurrent(w, r, c, draw, x);
    } else {
      SenderRuns(w, r, x);
      DeliverNext(w, r, c, draw, x);
    }
  }

  /**
   Safety.  What a party accepts is what its peer gave to Encrypt for exactly this packet, and
   the relation between the two ratchets holds afterwards, whether or not it accepts.
   */
  lemma {:induction false} AcceptedWasSent(w: World, r: Role, c: Ciphertext, draw: KeyId)
    requires Reachable(w) && MayDeliver(w, r, c, draw)
    ensures var o := w.Party(r).Decrypt(c, draw);
            o.result.Ok? ==>
              exists x :: 0 <= x < |w.log| && w.log[x] == Sent(r.Peer(), w.log[x].chain, o.result.value, Some(c))
    ensures var v := Delivered(w, r, c, draw);
            Inv(v) && InSync(v.alice, Alice, v.s) && InSync(v.bob, Bob, v.s)
  {
    ReachableInv(w);
    hide InSync, LogOk, NetOk, Retained, CountersOk, StepsOk, HasKey, Delivered, Ratchet.Decrypt, Reachable;
    var x := DeliverCases(w, r, c, draw);
    assert w.log[x] == Sent(r.Peer(), w.log[x].chain, w.log[x].plaintext, Some(c));
    var v := Delivered(w, r, c, draw);
    assert PartyOk(v, Alice) && PartyOk(v, Bob);
  }

  /** Exact acceptance of a packet whose number has not been opened before. */
  lemma {:induction false} AcceptedIffWithinLimits(w: World, r: Role, c: Ciphertext, draw: KeyId)
    requires Reachable(w) && MayDeliver(w, r, c, draw)
    requires c.Packet? && (c.header.dhPub, c.header.msgNo) !in w.taken
    ensures w.Party(r).Decrypt(c, draw).result.Ok? <==> WithinLimits(w, r, c.header)
  {
    ReachableInv(w);
    FirstDelivery(w, r, c, draw);
  }

  lemma {:induction false} FirstDelivery(w: World, r: Role, c: Ciphertext, draw: KeyId)
    requires Inv(w) && MayDeliver(w, r, c, draw)
    requires c.Packet? && (c.header.dhPub, c.header.msgNo) !in w.taken
    ensures w.Party(r).Decrypt(c, draw).result.Ok? <==> WithinLimits(w, r, c.header)
  {
    hide InSync, LogOk, NetOk, CountersOk, StepsOk, HasKey, Delivered, Ratchet.Decrypt, Running;
    var x := DeliverCases(w, r, c, draw);
    assert PartyOk(w, r);
  }

  // ---------- Any order within a chain ----------

  /** A packet under way that would be accepted now. */
  ghost predicate Deliverable(w: World, r: Role, c: Ciphertext) {
    && |w.s.keys| >= 2
    && c in w.Net(r) && c.Packet? && !Stale(w.s, r, c)
    && (c.header.dhPub, c.header.msgNo) !in w.taken
    && WithinLimits(w, r, c.header)
  }

  /** Two packets with different numbers on the same chain. */
  ghost predicate SameChain(c: Ciphertext, d: Ciphertext) {
    c.Packet? && d.Packet? && c.header.dhPub == d.header.dhPub && c.header.msgNo != d.header.msgNo
  }

  /** Accepting one packet of a chain does not put another one of that chain out of reach. */
  lemma {:induction false} StaysDeliverable(w: World, r: Role, c: Ciphertext, d: Ciphertext, draw: KeyId)
    requires Inv(w) && draw !in w.s.keys
    requires Deliverable(w, r, c) && Deliverable(w, r, d)
    requires SameChain(c, d)
    ensures MayDeliver(w, r, c, draw) && Deliverable(Delivered(w, r, c, draw), r, d)
  {
    hide Inv, Delivered, Ratchet.Decrypt, HasKey, InSync, WithinLimits, Stale, NeverStale;
    InvValid(w);
    var v := Delivered(w, r, c, draw);
    FirstDelivery(w, r, c, draw);
    DeliveredIs(w, r, c, draw);
    AcceptedMoves(w, r, c, draw);
    assert d in v.Net(r);
    StaysWithin(w, v, r, c, d);
  }

  lemma {:induction false} StaysWithin(w: World, v: World, r: Role, c: Ciphertext, d: Ciphertext)
    requires SameChain(c, d) && |v.s.keys| >= 2 && WithinLimits(w, r, c.header) && WithinLimits(w, r, d.header)
    requires v.Party(r).peer == Some(c.header.dhPub) && NeverStale(v.s, r, c.header.dhPub)
    requires w.Party(r).peer == Some(c.header.dhPub) ==> w.Party(r).recvNo <= v.Party(r).recvNo
    ensures !Stale(v.s, r, d) && WithinLimits(v, r, d.header)
  {
  }

  ghost predicate NeverStale(s: Schedule, r: Role, dhPub: Pub)
    requires |s.keys| >= 2
  {
    forall i :: 0 <= i < Epoch(s, r) - 1 ==> dhPub != s.Pub(i)
  }

  /** After a packet was accepted its chain is the current receiving chain, and numbers only went up. */
  lemma {:induction false} AcceptedMoves(w: World, r: Role, c: Ciphertext, draw: KeyId)
    requires Inv(w) && MayDeliver(w, r, c, draw) && c.Packet?
    requires w.Party(r).Decrypt(c, draw).result.Ok?
    ensures var p, v := w.Party(r), Delivered(w, r, c, draw);
            && |v.s.keys| >= 2
            && v.Party(r).peer == Some(c.header.dhPub)
            && (p.peer == Some(c.header.dhPub) ==> p.recvNo <= v.Party(r).recvNo)
            && NeverStale(v.s, r, c.header.dhPub)
            && v.s.keys <= w.s.keys + [draw]
  {
    hide InSync, LogOk, NetOk, Retained, CountersOk, StepsOk;
    hide HasKey, Delivered, Ratchet.Decrypt, Ratchet.Rekey, Running;
    var x := DeliverCases(w, r, c, draw);
    DeliveredIs(w, r, c, draw);
    var v := Delivered(w, r, c, draw);
    assert PartyOk(w, r) && PartyOk(v, r);
    if w.Party(r).peer == Some(c.header.dhPub) {
      CurrentMoves(w, r, c, draw);
    } else {
      NextMoves(w, r, c, draw, x);
    }
    PeerIsCurrent(v, r);
  }

  lemma {:induction false} PeerIsCurrent(v: World, r: Role)
    requires v.s.Valid() && InSync(v.Party(r), r, v.s) && v.Party(r).peer.Some?
    ensures NeverStale(v.s, r, v.Party(r).peer.value)
  {
  }

  lemma {:induction false} CurrentMoves(w: World, r: Role, c: Ciphertext, draw: KeyId)
    requires w.s.Valid() && InSync(w.Party(r), r, w.s) && Running(w.Party(r), r, w.s) && Epoch(w.s, r) >= 2
    requires c.Packet? && w.Party(r).peer == Some(c.header.dhPub)
    ensures var p, q := w.Party(r), w.Party(r).Decrypt(c, draw).state;
            q.peer == p.peer && q.dhr == p.dhr && p.recvNo <= q.recvNo
  {
    ReceiveInSync(w.Party(r), r, w.s, c.header, c.body);
  }

  lemma {:induction false} NextMoves(w: World, r: Role, c: Ciphertext, draw: KeyId, x: nat)
    requires Inv(w) && draw !in w.s.keys && x < |w.log|
    requires w.log[x].sender == r.Peer() && w.log[x].chain == Epoch(w.s, r) + 1 < |w.s.keys|
    requires c.Packet? && c.header.dhPub == w.s.Pub(Epoch(w.s, r) + 1)
    requires w.Party(r).recv.Some? ==> w.Party(r).peer.Some?
    requires w.Party(r).Decrypt(c, draw).result.Ok?
    ensures w.Party(r).Decrypt(c, draw).state.peer == Some(c.header.dhPub)
  {
    hide InSync, LogOk, NetOk, Retained, CountersOk, StepsOk, Ratchet.Rekey, Running;
    assert PartyOk(w, r);
    SenderRuns(w, r, x);
    RekeyInSync(w.Party(r), r, w.s, c.header, draw);
    var q, t := w.Party(r).Rekey(c.header, draw).state, w.s.Draw(draw);
    RekeyKeeps(w, r, c, draw, x);
    ReceiveInSync(q, r, t, c.header, c.body);
  }

  ghost predicate AllAccepted(w: World, r: Role, cs: seq<Ciphertext>, draws: seq<KeyId>)
    requires |cs| == |draws|
    decreases |cs|
  {
    |cs| == 0 ||
    (&& MayDeliver(w, r, cs[0], draws[0])
     && w.Party(r).Decrypt(cs[0], draws[0]).result.Ok?
     && AllAccepted(Delivered(w, r, cs[0], draws[0]), r, cs[1..], draws[1..]))
  }

  /** Packets of one chain, all within the limits when the first of them arrives, are all accepted in any order. */
  lemma {:induction false} AnyOrderIsAccepted(w: World, r: Role, cs: seq<Ciphertext>, draws: seq<KeyId>)
    requires Inv(w) && |cs| == |draws|
    requires forall a :: 0 <= a < |cs| ==> Deliverable(w, r, cs[a])
    requires forall a, b :: 0 <= a < b < |cs| ==> SameChain(cs[a], cs[b])
    requires forall a :: 0 <= a < |cs| ==> draws[a] !in w.s.keys
    requires forall a, b :: 0 <= a < b < |cs| ==> draws[a] != draws[b]
    ensures AllAccepted(w, r, cs, draws)
    decreases |cs|
  {
    hide Inv, Delivered, Ratchet.Decrypt, WithinLimits;
    if |cs| > 0 {
      InvValid(w);
      var v := Delivered(w, r, cs[0], draws[0]);
      FirstDelivery(w, r, cs[0], draws[0]);
      DeliverKeepsInv(w, r, cs[0], draws[0]);
      AcceptedMoves(w, r, cs[0], draws[0]);
      forall a | 0 < a < |cs|
        ensures Deliverable(v, r, cs[a]) && draws[a] !in v.s.keys
      {
        StaysDeliverable(w, r, cs[0], cs[a], draws[0]);
      }
      AnyOrderIsAccepted(v, r, cs[1..], draws[1..]);
    }
  }

  // ---------- Message keys, steps, cache, counters ----------

  /** No two Encrypt calls, by either party, ever use the same message key. */
  lemma {:induction false} MessageKeysUnique(w: World, x: nat, y: nat)
    requires Reachable(w) && x < y < |w.log|
    requires w.log[x].out.Some? && w.log[y].out.Some?
    ensures var c, d := w.log[x].out.value, w.log[y].out.value;
            c.Packet? && d.Packet? && c.body.Box? && d.body.Box? && c.body.key != d.body.key
  {
    ReachableInv(w);
    assert EntryOk(w.s, w.log, x) && EntryOk(w.s, w.log, y);
    var c, d := w.log[x].out.value, w.log[y].out.value;
    if c.body.key == d.body.key {
      MessageKeyInjective(w.s.keys, w.s.seed, w.log[x].chain, c.header.msgNo, w.log[y].chain, d.header.msgNo);
      CountGrows(w.log, x, y);
    }
  }

  /** The parties take DH steps in strict turn. */
  lemma {:induction false} StepsAlternate(w: World)
    requires Reachable(w)
    ensures w.bobSteps <= w.aliceSteps <= w.bobSteps + 1
  {
    ReachableInv(w);
    assert PartyOk(w, Alice) && PartyOk(w, Bob);
  }

  /** A party without a receiving chain only sees packets that announce an empty previous chain. */
  lemma {:induction false} NoKeyIsLost(w: World, r: Role, c: Ciphertext)
    requires Reachable(w) && c in w.Net(r)
    requires w.Party(r).recv.None?
    ensures c.Packet? && c.header.prevNo == 0
  {
    hide Reachable, CacheSound, Retained, NetOk, CountersOk;
    ReachableInv(w);
    assert PartyOk(w, r);
    var x := PacketShape(w, r, c);
    forall y | 0 <= y < |w.log|
      ensures w.log[y].chain > 0
    {
      assert EntryOk(w.s, w.log, y);
    }
    CountAbsent(w.log, -1);
    CountAbsent(w.log, 0);
  }

  /** A header announces how many Encrypt calls its sender made on the chain before. */
  lemma {:induction false} PrevNoIsLength(w: World, r: Role, c: Ciphertext) returns (i: nat)
    requires Reachable(w) && c in w.Net(r)
    ensures 0 < i < |w.s.keys| && Owns(r.Peer(), i)
    ensures c.Packet? && c.header.dhPub == w.s.Pub(i) && c.header.prevNo == Count(w.log, i - 2)
  {
    ReachableInv(w);
    var x := PacketShape(w, r, c);
    i := w.log[x].chain;
  }

  /** The cache holds nothing but the sender's own keys, for at most eight chains. */
  lemma {:induction false} CacheIsSound(w: World, r: Role)
    requires Reachable(w)
    ensures WellFormed(w.Party(r).buffer) && CacheSound(w.Party(r).buffer, r, w.s)
  {
    ReachableInv(w);
    hide Reachable;
    assert PartyOk(w, r);
  }

  /** Every number passed over on the current receiving chain can be opened: its key is never evicted. */
  lemma {:induction false} SkippedKeyIsKept(w: World, r: Role, n: nat)
    requires Reachable(w) && |w.s.keys| >= 2 && Epoch(w.s, r) >= 2
    requires n < w.Party(r).recvNo && (w.s.Pub(Epoch(w.s, r) - 1), n) !in w.taken
    ensures Find(w.Party(r).buffer, w.s.Pub(Epoch(w.s, r) - 1), n) == Ok(w.s.Message(Epoch(w.s, r) - 1, n))
  {
    hide Reachable, Running, LogOk, NetOk, CountersOk, StepsOk, Waiting;
    hide Listening, CacheSound, Schedule.Message, HasKey, Find;
    ReachableInv(w);
    assert PartyOk(w, r);
    assert HasKey(w.Party(r), w.s.Pub(Epoch(w.s, r) - 1), n);
    FindSound(w.Party(r), r, w.s, Epoch(w.s, r) - 1, n);
  }

  /**
   The 16-bit limit.  Once a party may send, Encrypt succeeds exactly as long as fewer than 65536
   calls were made on the current chain, and fewer than 65536 on the one before.
   */
  lemma {:induction false} EncryptSucceedsIff(w: World, r: Role, plaintext: Bytes, draw: KeyId)
    requires Reachable(w)
    requires r == Alice || w.bobSteps > 0
    ensures |w.s.keys| >= 2
    ensures var e := Epoch(w.s, r);
            w.Party(r).Encrypt(plaintext, draw).result.Ok? <==>
            Count(w.log, e) < 0x1_0000 && Count(w.log, e - 2) < 0x1_0000
  {
    hide Reachable, Running, LogOk, NetOk, CacheSound, Ratchet.Encrypt, Retained;
    ReachableInv(w);
    assert PartyOk(w, r);
    EncryptInSync(w.Party(r), r, w.s, plaintext, draw);
  }

  // ---------- Stale deliveries ----------

  /**
   Why stale deliveries are excluded.  A ratchet in step refuses a stale packet, and stays in step
   with the schedule if and only if the announced previous length exceeds the skip limit.
   */
  lemma {:induction false} StaleKeepsSyncIff(p: Ratchet, r: Role, s: Schedule, i: nat, h: Header, body: Body, k: KeyId)
    requires InSync(p, r, s) && Running(p, r, s) && k !in s.keys
    requires 0 < i < Epoch(s, r) - 1 && h.dhPub == s.Pub(i)
    requires body.Box? ==> body.key == s.Message(i, h.msgNo)
    ensures var o := p.Decrypt(Packet(h, body), k);
            && o.result.Err?
            && (InSync(o.state, r, s) || InSync(o.state, r, s.Draw(k)) <==> h.prevNo > p.recvNo + MAX_SKIP_ELEMENTS)
  {
    StaleIsRefusedInStep(p, r, s, i, h, body, k);
    if h.prevNo <= p.recvNo + MAX_SKIP_ELEMENTS {
      StaleMoves(p, r, s, i, h, body, k);
    }
  }

  /** A stale packet that passes the skip limit drags the receiver along a chain of its own. */
  lemma {:induction false} StaleMoves(p: Ratchet, r: Role, s: Schedule, i: nat, h: Header, body: Body, k: KeyId)
    requires InSync(p, r, s) && Running(p, r, s) && k !in s.keys
    requires 0 < i < Epoch(s, r) - 1 && h.dhPub == s.Pub(i)
    requires h.prevNo <= p.recvNo + MAX_SKIP_ELEMENTS
    ensures var q, e := p.Decrypt(Packet(h, body), k).state, Epoch(s, r);
            && q.peer == Some(s.Pub(i)) && q.recv.Some?
            && q.dhr.priv == k
            && q.dhr.root == RootOf(RootOf(Root(s.keys, s.seed, e), Agree(s.keys[e], s.keys[i])), Agree(k, s.keys[i]))
            && q.Valid() && (q.dhr.active ==> q.dhr.initialized)
  {
    hide CacheSound;
    var e := Epoch(s, r);
    assert p.peer == Some(s.Pub(e - 1)) != Some(h.dhPub);
    SkipValid(p, h.prevNo);
    var m := p.Rekey(h, k).state;
    OperationsKeepValid(p, [], Packet(h, body), k);
    SkipValid(m, h.msgNo);
  }

  /** The next packet of the peer's live chains is refused, whether or not its key is cached. */
  lemma {:induction false} NextLiveIsRefused(
    p: Ratchet, r: Role, s: Schedule, i: nat, h: Header, body: Body, k: KeyId, j: nat, g: Header, live: Body, k': KeyId)
    requires InSync(p, r, s) && Running(p, r, s) && k !in s.keys
    requires 0 < i < Epoch(s, r) - 1 && h.dhPub == s.Pub(i)
    requires h.prevNo <= p.recvNo + MAX_SKIP_ELEMENTS
    requires Epoch(s, r) - 1 <= j < |s.keys| && g.dhPub == s.Pub(j)
    requires live.Box? ==> live.key == s.Message(j, g.msgNo)
    ensures var q := p.Decrypt(Packet(h, body), k).state;
            q.Valid() && q.Decrypt(Packet(g, live), k').result.Err?
  {
    StaleMoves(p, r, s, i, h, body, k);
    hide InSync, Running;
    var q, e := p.Decrypt(Packet(h, body), k).state, Epoch(s, r);
    assert q.peer != Some(g.dhPub);
    SkipValid(q, g.prevNo);
    var moved := q.Rekey(g, k');
    var start := ChainOf(q.dhr.root, Agree(k, s.keys[j]));
    if moved.result.Ok? {
      TakeFromStart(moved.state, g);
      RootDepthOf(s.keys, s.seed, e);
      RootDepthOf(s.keys, s.seed, j - 1);
      if moved.state.Take(g).result == Ok(s.Message(j, g.msgNo)) {
        AdvanceInjective(start, g.msgNo, ChainStart(s.keys, s.seed, j), g.msgNo);
      }
    }
  }
}
