/** Runs of two clients after a handshake: a message key used twice, and a passed-over number that is lost. */
module ClientExamples {
  import opened Wrappers
  import opened Keys
  import opened SkippedKeys
  import opened Ratchets
  import opened Inserts
  import opened Persistence
  import opened Sync
  import opened Sessions
  import opened Clients
  import opened ClientRuns
  import opened ClientKeys

  lemma {:induction false} RunAppend(v: Net, evs: seq<Event>, w: Net, ev: Event)
    requires Run(v, evs, w) && Inv(w) && Enabled(w, ev) && w.alice.Valid() && w.bob.Valid() && |w.s.keys| >= 2
    ensures Run(v, evs + [ev], After(w, ev))
    decreases |evs|
  {
    hide After, Enabled, Inv;
    if |evs| == 0 {
      assert (evs + [ev])[1..] == [];
    } else {
      RunAppend(After(v, evs[0]), evs[1..], w, ev);
      assert (evs + [ev])[1..] == evs[1..] + [ev];
    }
  }

  /** A world that a run from `v` reaches. */
  ghost predicate From(v: Net, w: Net) {
    Inv(w) && Numbered(w) && exists evs :: Run(v, evs, w)
  }

  lemma {:induction false} FromNext(v: Net, w: Net, ev: Event)
    requires From(v, w) && Enabled(w, ev)
    ensures w.alice.Valid() && w.bob.Valid() && |w.s.keys| >= 2 && From(v, After(w, ev))
  {
    hide Inv, Numbered, Run, After, Enabled;
    InvLinked(w, Alice);
    var evs :| Run(v, evs, w);
    RunAppend(v, evs, w, ev);
    if ev.Send? {
      SendNumbers(w, ev);
    } else {
      ArriveNumbers(w, ev);
    }
  }

  /** The header of a message. */
  ghost function HeadOf(w: Net, x: nat): Header
    requires Inv(w) && x < |w.log|
  {
    assert PostOk(w.log[x], w.link, w.s);
    w.log[x].msg.payload.header
  }

  /** A party sends, and the post reports success or not. */
  lemma {:induction false} Say(v: Net, w: Net, r: Role, text: Bytes, draw: KeyId, posted: bool) returns (z: Net)
    requires From(v, w) && draw !in w.s.keys && Linked(w.Client(r), r, w.link, w.s) && Kept(w, r).sendNo < NUMBER_LIMIT
    ensures From(v, z) && z.s == w.s && z.link == w.link
    ensures |z.log| == |w.log| + 1 && z.log[..|w.log|] == w.log
    ensures var post := z.log[|w.log|];
            && post.sender == r && post.chain == Epoch(w.s, r) && post.stored == posted && post.plaintext == text
            && HeadOf(z, |w.log|).msgNo == Kept(w, r).sendNo
    ensures forall o: Role ::
              Linked(w.Client(o), o, w.link, w.s) && Linked(z.Client(o), o, z.link, z.s)
              && Kept(z, o).recvNo == Kept(w, o).recvNo && Kept(z, o).buffer == Kept(w, o).buffer
              && Kept(z, o).sendNo == Kept(w, o).sendNo + if o == r && posted then 1 else 0
  {
    hide Inv, Numbered, Run, After, Linked, Ratchet.Encrypt, InSync, Running, Listening, PostOk;
    var ev := Event.Send(r, text, draw, 0, posted);
    InvLinked(w, r);
    FromNext(v, w, ev);
    z := After(w, ev);
    SendEffect(w, ev);
    var p := Kept(w, r);
    EncryptInSync(p, r, w.s, text, draw);
    NotListening(p, r, w.s);
    KeptFits(w, r);
    ReloadedAfter(p, p.Encrypt(text, draw).state);
    KeptSame(w, z, r.Peer());
    InvLinked(z, r);
    forall o: Role
      ensures Linked(w.Client(o), o, w.link, w.s) && Linked(z.Client(o), o, z.link, z.s)
      ensures Kept(z, o).recvNo == Kept(w, o).recvNo && Kept(z, o).buffer == Kept(w, o).buffer
      ensures Kept(z, o).sendNo == Kept(w, o).sendNo + if o == r && posted then 1 else 0
    {
      assert o == r || o == r.Peer();
    }
  }

  lemma {:induction false} KeptFits(w: Net, r: Role)
    requires Inv(w) && Linked(w.Client(r), r, w.link, w.s)
    ensures Kept(w, r).prevSendNo == 0 && |Kept(w, r).buffer| <= 1
  {
    hide InSync, Running;
  }

  /** A reload does not change what an Encrypt leaves of a loaded ratchet. */
  lemma {:induction false} ReloadedAfter(p: Ratchet, q: Ratchet)
    requires |p.buffer| <= 1 && q.buffer == p.buffer && q.prevSendNo == 0
    ensures Reloaded(q) == q
  {
    ReloadIsExactIff(q);
  }

  // ---------- A message key that is used twice ----------

  /** A message of Alice that was made but not posted, and the next one: sealed with the same key. */
  lemma {:induction false} KeySharedHappens(v: Net, text: Bytes, other: Bytes) returns (w: Net, evs: seq<Event>)
    requires Inv(v) && Numbered(v) && v.log == []
    ensures Run(v, evs, w) && |w.log| == 2
    ensures w.log[0].msg.Data? && w.log[0].msg.payload.Packet? && w.log[0].msg.payload.body.Box?
    ensures w.log[1].msg.Data? && w.log[1].msg.payload.Packet? && w.log[1].msg.payload.body.Box?
    ensures w.log[0].plaintext == text && w.log[1].plaintext == other
    ensures w.log[0].msg.payload.body.key == w.log[1].msg.payload.body.key
  {
    hide Inv, Numbered, Run;
    FromStart(v);
    var k := NewKey(v.s.keys);
    FirstNumbers(v);
    var w1 := Say(v, v, Alice, text, k, false);
    var w2 := Say(v, w1, Alice, other, k, true);
    w := w2;
    evs :| Run(v, evs, w);
    assert w.log[0] == w.log[..1][0] && w1.log[0] == w.log[0];
    KeySharedIff(v, evs, w, 0, 1);
  }

  lemma {:induction false} FromStart(v: Net)
    requires Inv(v) && Numbered(v)
    ensures From(v, v)
  {
    hide Inv, Numbered;
    assert Run(v, [], v);
  }

  lemma {:induction false} FirstNumbers(v: Net)
    requires Inv(v) && Numbered(v) && v.log == []
    ensures |v.s.keys| >= 3
    ensures forall r: Role :: Linked(v.Client(r), r, v.link, v.s) && Kept(v, r).sendNo <= 1
  {
    hide Inv, Linked;
    InvLinked(v, Alice);
    InvLinked(v, Bob);
    forall r: Role
      ensures Linked(v.Client(r), r, v.link, v.s) && Kept(v, r).sendNo <= 1
    {
      assert r == Alice || r == Bob;
      assert Kept(v, r).sendNo == Base(Epoch(v.s, r)) + StoredCount(v.log, Epoch(v.s, r));
    }
  }

  // ---------- A passed-over number that is lost ----------

  /** A party reads message `x` and passes over the numbers before it. */
  lemma {:induction false} Read(v: Net, w: Net, r: Role, x: nat, draw: KeyId) returns (z: Net)
    requires From(v, w) && draw !in w.s.keys && Linked(w.Client(r), r, w.link, w.s)
    requires x < |w.log| && w.log[x].sender == r.Peer()
    requires var i, e, n, p := w.log[x].chain, Epoch(w.s, r), HeadOf(w, x).msgNo, Kept(w, r);
             || (i == e - 1 && p.recvNo <= n <= p.recvNo + MAX_SKIP_ELEMENTS)
             || (i == e + 1 && n <= MAX_SKIP_ELEMENTS)
    ensures From(v, z) && z.log == w.log && z.link == w.link
    ensures z.s == if w.log[x].chain == Epoch(w.s, r) - 1 then w.s else w.s.Draw(draw)
    ensures Linked(z.Client(r), r, z.link, z.s) && Kept(z, r).recvNo == HeadOf(w, x).msgNo + 1
    ensures Kept(z, r).sendNo == if w.log[x].chain == Epoch(w.s, r) - 1 then Kept(w, r).sendNo else 0
    ensures Oldest(Kept(w, r)).Some? ==> Oldest(Kept(z, r)) == Oldest(Kept(w, r))
    ensures w.log[x].chain == Epoch(w.s, r) - 1 && Kept(w, r).buffer == [] && HeadOf(w, x).msgNo > Kept(w, r).recvNo ==>
              Oldest(Kept(z, r)) == Some(w.s.Pub(w.log[x].chain))
    ensures Linked(w.Client(r.Peer()), r.Peer(), w.link, w.s) && Linked(z.Client(r.Peer()), r.Peer(), z.link, z.s)
    ensures Kept(z, r.Peer()) == Kept(w, r.Peer())
  {
    hide Inv, Numbered, Run, After, Linked, Ratchet.Decrypt, InSync, Running, Waiting, Schedule.Message;
    PostAtX(w, x);
    var ev := Event.Arrive(r, w.log[x].msg, w.link.aliceId, 0, (draw, 0), []);
    FromNext(v, w, ev);
    z := After(w, ev);
    var y := ArriveEffect(w, ev);
    var p, c := Kept(w, r), w.log[x].msg.payload;
    InvLinked(w, r);
    InvLinked(z, r);
    ReadIs(p, r, w.s, w.log[x].chain, c, w.log[x].plaintext, draw);
    ReloadIsExactIff(p.Decrypt(c, draw).state);
    KeptSame(w, z, r.Peer());
    if Oldest(p).Some? {
      OldestStays(w, ev, r);
    }
  }

  lemma {:induction false} PostAtX(w: Net, x: nat)
    requires Inv(w) && x < |w.log|
    ensures |w.s.keys| >= 2 && PostOk(w.log[x], w.link, w.s) && HeadOf(w, x) == w.log[x].msg.payload.header
    ensures forall draw: KeyId, r: Role, made: Uuid :: draw !in w.s.keys && w.log[x].sender == r.Peer() ==>
              Enabled(w, Event.Arrive(r, w.log[x].msg, made, 0, (draw, 0), []))
  {
    hide InSync, Running, Linked;
  }

  /** What reading does to a loaded ratchet. */
  lemma {:induction false} ReadIs(p: Ratchet, r: Role, s: Schedule, i: nat, c: Ciphertext, plaintext: Bytes, k: KeyId)
    requires InSync(p, r, s) && Running(p, r, s) && k !in s.keys && p.Valid()
    requires 0 < i <= Epoch(s, r.Peer()) && Owns(r.Peer(), i)
    requires c.Packet? && c.header.dhPub == s.Pub(i) && c.header.prevNo == 0
    requires c.body == Box(s.Message(i, c.header.msgNo), s.ad, plaintext)
    requires || (i == Epoch(s, r) - 1 && p.recvNo <= c.header.msgNo <= p.recvNo + MAX_SKIP_ELEMENTS)
             || (i == Epoch(s, r) + 1 && c.header.msgNo <= MAX_SKIP_ELEMENTS)
    ensures var o := p.Decrypt(c, k);
            && o.result.Ok? && o.state.recvNo == c.header.msgNo + 1
            && (i == Epoch(s, r) - 1 <==> o.state.dhr.pub == p.dhr.pub)
            && (i == Epoch(s, r) - 1 && p.buffer == [] && c.header.msgNo > p.recvNo ==>
                  |o.state.buffer| == 1 && o.state.buffer[0].dhPub == c.header.dhPub)
  {
    hide CacheSound, Ratchet.Receive, Ratchet.Rekey, Ratchet.Decrypt, Schedule.Message, HasKey;
    if i == Epoch(s, r) - 1 {
      DecryptCurrent(p, r, s, c, plaintext, k);
      DecryptBuffer(p, c, k);
      if p.buffer == [] && c.header.msgNo > p.recvNo {
        SkipFromNothing(c.header.dhPub, p.recv.value, p.recvNo, c.header.msgNo);
      }
    } else {
      DecryptFollows(p, r, s, c, plaintext, k);
    }
  }

  /** Skipping with an empty cache leaves one chain. */
  lemma {:induction false} SkipFromNothing(peer: Pub, chain: Key, from: nat, until: nat)
    requires from < until
    ensures var next := Play([], SkipOps(peer, chain, from, until)); |next| == 1 && next[0].dhPub == peer
  {
    var op := Op(peer, from, MessageOf(chain));
    var first := Apply([], op);
    assert SkipOps(peer, chain, from, until)[1..] == SkipOps(peer, NextOf(chain), from + 1, until);
    FindAfterInsert([], peer, from, MessageOf(chain), from);
    SkipKeepsOldest(first, peer, NextOf(chain), from + 1, until);
  }

  /** Alice sends two messages; Bob reads the second one and so caches chain 1. */
  lemma {:induction false} FirstSkip(v: Net, k: KeyId) returns (w: Net)
    requires Inv(v) && Numbered(v) && v.log == [] && |v.s.keys| == 3 && k !in v.s.keys
    requires Linked(v.Client(Bob), Bob, v.link, v.s) && Kept(v, Bob).recvNo == 1 && Kept(v, Bob).buffer == []
    ensures From(v, w) && w.s == v.s && |w.log| == 2
    ensures forall r: Role :: Linked(w.Client(r), r, w.link, w.s)
    ensures Oldest(Kept(w, Bob)) == Some(v.s.Pub(1)) && Kept(w, Bob).sendNo == 0
  {
    hide Inv, Numbered, Run, Linked;
    FromStart(v);
    StartNumbers(v);
    var w1 := Say(v, v, Alice, [], k, true);
    var w2 := Say(v, w1, Alice, [], k, true);
    w := Read(v, w2, Bob, 1, k);
    InvLinked(w, Alice);
    InvLinked(w, Bob);
  }

  lemma {:induction false} StartNumbers(v: Net)
    requires Inv(v) && Numbered(v) && v.log == [] && |v.s.keys| == 3
    ensures forall r: Role :: Linked(v.Client(r), r, v.link, v.s)
    ensures Kept(v, Alice).sendNo == 1 && Kept(v, Bob).sendNo == 0
  {
    hide Inv, Linked;
    InvLinked(v, Alice);
    InvLinked(v, Bob);
    assert Kept(v, Alice).sendNo == Base(Epoch(v.s, Alice)) + StoredCount(v.log, Epoch(v.s, Alice));
    assert Kept(v, Bob).sendNo == Base(Epoch(v.s, Bob)) + StoredCount(v.log, Epoch(v.s, Bob));
  }

  /** Bob answers, Alice reads the answer and sends two more; Bob reads the second one. */
  lemma {:induction false} SecondSkip(v: Net, w: Net, k: KeyId, l: KeyId) returns (z: Net)
    requires From(v, w) && |w.s.keys| == 3 && k !in w.s.keys && l !in w.s.keys && k != l && |w.log| == 2
    requires forall r: Role :: Linked(w.Client(r), r, w.link, w.s)
    requires Oldest(Kept(w, Bob)).Some? && Kept(w, Bob).sendNo == 0
    ensures From(v, z) && |z.log| == 5 && |z.s.keys| == 5 && z.link == w.link
    ensures z.log[3].sender == Alice && z.log[3].chain == 3 && HeadOf(z, 3).msgNo == 0
    ensures Linked(z.Client(Bob), Bob, z.link, z.s) && Kept(z, Bob).recvNo == 2
    ensures z.s.keys[..3] == w.s.keys
  {
    hide Inv, Numbered, Run, Linked;
    var w1 := Say(v, w, Bob, [], k, true);
    var w2 := Read(v, w1, Alice, 2, k);
    var w3 := Say(v, w2, Alice, [], l, true);
    var w4 := Say(v, w3, Alice, [], l, true);
    assert w4.log[3] == w4.log[..4][3] && w3.log[3] == w4.log[3];
    z := Read(v, w4, Bob, 4, l);
  }

  /**
   After a handshake: once Bob has cached chain 1, the number that he passes over on chain 3 is refused,
   although it is below his counter and its packet was never delivered before.
   */
  lemma {:induction false} PassedOverHappens(v: Net, made: Uuid, peer: KeyId, noise: Bytes)
    returns (w: Net, evs: seq<Event>)
    requires Inv(v) && Numbered(v) && v.log == [] && |v.s.keys| == 3
    requires Linked(v.Client(Bob), Bob, v.link, v.s) && Kept(v, Bob).recvNo == 1 && Kept(v, Bob).buffer == []
    ensures Run(v, evs, w) && Inv(w) && |w.log| == 5 && w.bob.Valid()
    ensures w.log[3].sender == Alice && w.log[3].chain == Epoch(w.s, Bob) - 1
    ensures Linked(w.Client(Bob), Bob, w.link, w.s) && HeadOf(w, 3).msgNo < Kept(w, Bob).recvNo
    ensures forall draws: (KeyId, KeyId) :: draws.0 !in w.s.keys ==>
              w.bob.Handle(w.log[3].msg, made, peer, draws, noise).result != Ok(Some(Plaintext(w.log[3].plaintext)))
  {
    hide Inv, Numbered, Run, Linked, ClientState.Handle;
    var k := NewKey(v.s.keys);
    var l := NewKey(v.s.keys + [k]);
    var w1 := FirstSkip(v, k);
    FromStartAgain(v, w1);
    var z := SecondSkip(w1, w1, k, l);
    w := z;
    var later :| Run(w1, later, w);
    var first :| Run(v, first, w1);
    RunJoin(v, first, w1, later, w);
    evs := first + later;
    PostAtX(w, 3);
    InvLinked(w, Bob);
    assert w.s.Pub(3) != w.s.Pub(1) && w.s.Pub(1) == v.s.Pub(1);
    forall draws: (KeyId, KeyId) | draws.0 !in w.s.keys
      ensures w.bob.Handle(w.log[3].msg, made, peer, draws, noise).result != Ok(Some(Plaintext(w.log[3].plaintext)))
    {
      PassedOverIsLost(w1, later, w, Bob, 3, made, peer, draws, noise);
    }
  }

  lemma {:induction false} FromStartAgain(v: Net, w: Net)
    requires From(v, w)
    ensures From(w, w) && Inv(w)
  {
    hide Inv, Numbered;
    assert Run(w, [], w);
  }

  lemma {:induction false} RunJoin(v: Net, first: seq<Event>, w: Net, later: seq<Event>, z: Net)
    requires Run(v, first, w) && Run(w, later, z)
    ensures Run(v, first + later, z)
    decreases |first|
  {
    hide After, Enabled;
    if |first| == 0 {
      assert first + later == later;
    } else {
      RunJoin(After(v, first[0]), first[1..], w, later, z);
      assert (first + later)[1..] == first[1..] + later;
    }
  }
}
