/** Which message keys clients use more than once, and which skipped numbers they can never open again. */
module ClientKeys {
  import opened Wrappers
  import opened Keys
  import opened SkippedKeys
  import opened Ratchets
  import opened Inserts
  import opened Persistence
  import opened Sync
  import opened Sessions
  import opened Clients
  import opened ClientRuns

  // ---------- One event, in terms of the loaded ratchets ----------

  lemma {:induction false} InvLinked(w: Net, r: Role)
    requires Inv(w)
    ensures Linked(w.Client(r), r, w.link, w.s) && w.s.Valid() && |w.s.keys| >= 2
    ensures w.alice.Valid() && w.bob.Valid()
    ensures InSync(Kept(w, r), r, w.s) && Running(Kept(w, r), r, w.s) && Reloaded(Kept(w, r)) == Kept(w, r)
  {
    hide InSync, Running, PostsOk, InboxOk;
  }

  lemma {:induction false} KeptSame(w: Net, v: Net, r: Role)
    requires Inv(w) && Inv(v) && v.link == w.link && v.Client(r) == w.Client(r)
    ensures Linked(w.Client(r), r, w.link, w.s) && Linked(v.Client(r), r, v.link, v.s) && Kept(v, r) == Kept(w, r)
  {
    hide InSync, Running, PostsOk, InboxOk;
  }

  /** A send makes one message and stores one step, or nothing of both; the message is made even if it is not stored. */
  lemma {:induction false} SendEffect(w: Net, ev: Event)
    requires Inv(w) && Enabled(w, ev) && ev.Send?
    ensures Inv(After(w, ev)) && Linked(w.Client(ev.from), ev.from, w.link, w.s)
    ensures var v, r := After(w, ev), ev.from;
            && v.s == w.s && v.link == w.link && v.Client(r.Peer()) == w.Client(r.Peer())
            && Linked(v.Client(r), r, v.link, v.s)
            && var p, q := Kept(w, r), Kept(v, r);
               var o := p.Encrypt(ev.text, ev.draw);
               && (o.result.Err? ==> v.log == w.log && q == p)
               && (o.result.Ok? ==>
                     && |v.log| == |w.log| + 1 && v.log[..|w.log|] == w.log
                     && q == (if ev.posted then Reloaded(o.state) else p)
                     && var post := v.log[|w.log|];
                        && post.sender == r && post.chain == Epoch(w.s, r) && post.stored == ev.posted
                        && post.plaintext == ev.text
                        && post.msg.Data? && post.msg.payload == o.result.value)
  {
    hide InSync, Running, Ratchet.Encrypt, InboxOk, PostsOk, Listening, Waiting;
    SendKeepsInv(w, ev);
    var r, id, c := ev.from, w.link.Id(ev.from), w.Client(ev.from);
    LinkedLoads(c, r, w.link, w.s, id);
    var p := c.Get(id).value.state.ratchet.value;
    assert p == Kept(w, r);
    EncryptInSync(p, r, w.s, ev.text, ev.draw);
    NotListening(p, r, w.s);
  }

  /** An arrival stores the step of an accepted message, or nothing. */
  lemma {:induction false} ArriveEffect(w: Net, ev: Event) returns (x: nat)
    requires Inv(w) && Enabled(w, ev) && ev.Arrive?
    ensures Inv(After(w, ev)) && Linked(w.Client(ev.to), ev.to, w.link, w.s)
    ensures x < |w.log| && w.log[x].sender == ev.to.Peer() && w.log[x].msg == ev.msg && PostOk(w.log[x], w.link, w.s)
    ensures var v, r := After(w, ev), ev.to;
            && v.log == w.log && v.link == w.link && v.Client(r.Peer()) == w.Client(r.Peer())
            && Linked(v.Client(r), r, v.link, v.s)
            && var p, q := Kept(w, r), Kept(v, r);
               && p.Valid() && ev.msg.Data?
               && var o := p.Decrypt(ev.msg.payload, ev.draws.0);
                  && (o.result.Err? ==> v == w)
                  && (o.result.Ok? ==>
                        && q == Reloaded(o.state)
                        && v.s == (if o.state.dhr.pub == p.dhr.pub then w.s else w.s.Draw(ev.draws.0))
                        && (v.s == w.s || Epoch(w.s, r) == |w.s.keys| - 2)
                        && q.sendNo == if v.s == w.s then p.sendNo else 0)
  {
    hide InSync, Running, HasKey, Ratchet.Decrypt, InboxOk, PostsOk, After, Schedule.Message, Inv;
    ArriveKeepsInv(w, ev);
    var sess;
    x, sess := ArriveIs(w, ev);
    var r, k, p := ev.to, ev.draws.0, Kept(w, ev.to);
    InvLinked(w, r);
    InvLinked(After(w, ev), r);
    ReceiveAny(p, r, w.s, w.log[x].chain, ev.msg.payload, w.log[x].plaintext, k);
    KeysDiffer(w.s, k);
  }

  lemma {:induction false} KeysDiffer(s: Schedule, k: KeyId)
    ensures s.Draw(k) != s
  {
    assert |s.Draw(k).keys| == |s.keys| + 1;
  }

  // ---------- Numbers ----------

  lemma {:induction false} StoredAppend(log: seq<Post>, more: seq<Post>, i: int)
    requires |more| == |log| + 1 && more[..|log|] == log
    ensures StoredCount(more, i) == StoredCount(log, i) + if more[|log|].chain == i && more[|log|].stored then 1 else 0
  {
  }

  lemma {:induction false} StoredAbsent(log: seq<Post>, i: int)
    requires forall x :: 0 <= x < |log| ==> log[x].chain != i
    ensures StoredCount(log, i) == 0
  {
    if |log| > 0 {
      StoredAbsent(log[..|log| - 1], i);
    }
  }

  lemma {:induction false} SendNumbers(w: Net, ev: Event)
    requires Inv(w) && Numbered(w) && Enabled(w, ev) && ev.Send?
    ensures Inv(After(w, ev)) && Numbered(After(w, ev))
  {
    hide Inv, Linked, Ratchet.Encrypt, InSync, Running, Schedule.Message, After, Listening, Reloaded;
    InvLinked(w, ev.from);
    SendEffect(w, ev);
    var v, r := After(w, ev), ev.from;
    InvLinked(w, r.Peer());
    InvLinked(v, r);
    KeptSame(w, v, r.Peer());
    var p := Kept(w, r);
    EncryptInSync(p, r, w.s, ev.text, ev.draw);
    NotListening(p, r, w.s);
    ReloadIsExactIff(p.Encrypt(ev.text, ev.draw).state);
    assert Kept(w, r).sendNo == Base(Epoch(w.s, r)) + StoredCount(w.log, Epoch(w.s, r));
    assert Kept(w, r.Peer()).sendNo == Base(Epoch(w.s, r.Peer())) + StoredCount(w.log, Epoch(w.s, r.Peer()));
    if p.Encrypt(ev.text, ev.draw).result.Ok? {
      StoredAppend(w.log, v.log, Epoch(w.s, r));
      StoredAppend(w.log, v.log, Epoch(w.s, r.Peer()));
      OthersNumbered(w.log, v.log);
    }
    BothNumbered(v, r);
  }

  lemma {:induction false} OthersNumbered(log: seq<Post>, more: seq<Post>)
    requires forall x :: 0 <= x < |log| ==> NumberOk(log, x)
    requires |more| == |log| + 1 && more[..|log|] == log && NumberOk(more, |log|)
    ensures forall x :: 0 <= x < |more| ==> NumberOk(more, x)
  {
    forall x | 0 <= x < |more|
      ensures NumberOk(more, x)
    {
      if x < |log| {
        assert NumberOk(log, x);
        assert more[..x] == log[..x] && more[x] == more[..|log|][x];
      }
    }
  }

  lemma {:induction false} BothNumbered(v: Net, r: Role)
    requires Inv(v) && |v.s.keys| >= 3 && forall x :: 0 <= x < |v.log| ==> NumberOk(v.log, x)
    requires Linked(v.Client(r), r, v.link, v.s) && Linked(v.Client(r.Peer()), r.Peer(), v.link, v.s)
    requires Kept(v, r).sendNo == Base(Epoch(v.s, r)) + StoredCount(v.log, Epoch(v.s, r))
    requires Kept(v, r.Peer()).sendNo == Base(Epoch(v.s, r.Peer())) + StoredCount(v.log, Epoch(v.s, r.Peer()))
    ensures Numbered(v)
  {
    hide InSync, Running, PostsOk, InboxOk;
    forall o: Role
      ensures Linked(v.Client(o), o, v.link, v.s)
      ensures Kept(v, o).sendNo == Base(Epoch(v.s, o)) + StoredCount(v.log, Epoch(v.s, o))
    {
      assert o == r || o == r.Peer();
    }
  }

  lemma {:induction false} ArriveNumbers(w: Net, ev: Event)
    requires Inv(w) && Numbered(w) && Enabled(w, ev) && ev.Arrive?
    ensures Inv(After(w, ev)) && Numbered(After(w, ev))
  {
    hide Inv, Linked, Ratchet.Decrypt, InSync, Running, Schedule.Message, After, Reloaded, PostOk, Enabled;
    InvLinked(w, ev.to);
    var x := ArriveEffect(w, ev);
    var v, r := After(w, ev), ev.to;
    if v != w {
      InvLinked(w, r.Peer());
      KeptSame(w, v, r.Peer());
      assert Kept(w, r).sendNo == Base(Epoch(w.s, r)) + StoredCount(w.log, Epoch(w.s, r));
      assert Kept(w, r.Peer()).sendNo == Base(Epoch(w.s, r.Peer())) + StoredCount(w.log, Epoch(w.s, r.Peer()));
      if v.s != w.s {
        NewChain(w);
      }
      BothNumbered(v, r);
    }
  }

  /** Nothing has been sent on a chain that is not in the schedule yet. */
  lemma {:induction false} NewChain(w: Net)
    requires Inv(w)
    ensures StoredCount(w.log, |w.s.keys|) == 0
  {
    hide Linked, InboxOk;
    forall x | 0 <= x < |w.log|
      ensures w.log[x].chain != |w.s.keys|
    {
      assert PostOk(w.log[x], w.link, w.s);
    }
    StoredAbsent(w.log, |w.s.keys|);
  }

  /** Numbers count what was stored, in every run. */
  lemma {:induction false} RunNumbers(v: Net, evs: seq<Event>, w: Net)
    requires Inv(v) && Numbered(v) && Run(v, evs, w)
    ensures Inv(w) && Numbered(w)
    decreases |evs|
  {
    hide Inv, Numbered, Enabled, After;
    if |evs| > 0 {
      if evs[0].Send? {
        SendNumbers(v, evs[0]);
      } else {
        ArriveNumbers(v, evs[0]);
      }
      RunNumbers(After(v, evs[0]), evs[1..], w);
    }
  }

  // ---------- Message keys ----------

  /** Nothing was stored on a chain between two messages. */
  ghost predicate NoneStored(log: seq<Post>, x: nat, y: nat, i: int)
    requires x <= y <= |log|
  {
    forall z :: x <= z < y && log[z].chain == i ==> !log[z].stored
  }

  lemma {:induction false} StoredBetween(log: seq<Post>, x: nat, y: nat, i: int)
    requires x <= y <= |log|
    ensures StoredCount(log[..x], i) <= StoredCount(log[..y], i)
    ensures StoredCount(log[..x], i) == StoredCount(log[..y], i) <==> NoneStored(log, x, y, i)
  {
    if x < y {
      StoredBetween(log, x, y - 1, i);
      assert log[..y][..y - 1] == log[..y - 1];
    }
  }

  /**
   Message keys at client level, exactly.  In every run from a world as a handshake leaves it, two
   messages are sealed with the same key if and only if they are on the same chain and nothing was
   stored on it from the earlier one on: a client whose message was made but not posted seals the
   next one with the same key.
   */
  lemma {:induction false} KeySharedIff(v: Net, evs: seq<Event>, w: Net, x: nat, y: nat)
    requires Inv(v) && Numbered(v) && Run(v, evs, w) && x < y < |w.log|
    ensures w.log[x].msg.Data? && w.log[x].msg.payload.Packet? && w.log[x].msg.payload.body.Box?
    ensures w.log[y].msg.Data? && w.log[y].msg.payload.Packet? && w.log[y].msg.payload.body.Box?
    ensures w.log[x].msg.payload.body.key == w.log[y].msg.payload.body.key <==>
            w.log[x].chain == w.log[y].chain && NoneStored(w.log, x, y, w.log[x].chain)
  {
    hide Run, Inv, Numbered, NoneStored, MessageKey, StoredCount;
    RunNumbers(v, evs, w);
    KeyOf(w, x);
    KeyOf(w, y);
    var i, j := w.log[x].chain, w.log[y].chain;
    var n, m := Base(i) + StoredCount(w.log[..x], i), Base(j) + StoredCount(w.log[..y], j);
    StoredBetween(w.log, x, y, i);
    if w.log[x].msg.payload.body.key == w.log[y].msg.payload.body.key {
      MessageKeyInjective(w.s.keys, w.s.seed, i, n, j, m);
    }
  }

  /** The key of a message, from its chain and what was stored on it before. */
  lemma {:induction false} KeyOf(w: Net, x: nat)
    requires Inv(w) && Numbered(w) && x < |w.log|
    ensures w.log[x].msg.Data? && w.log[x].msg.payload.Packet? && w.log[x].msg.payload.body.Box?
    ensures var i := w.log[x].chain;
            && 0 < i < |w.s.keys|
            && w.log[x].msg.payload.body.key ==
               MessageKey(w.s.keys, w.s.seed, i, Base(i) + StoredCount(w.log[..x], i))
  {
    hide Linked, InboxOk, MessageKey, StoredCount;
    assert PostOk(w.log[x], w.link, w.s) && NumberOk(w.log, x);
  }

  // ---------- Skipped numbers ----------

  /** The chain whose skipped keys a client keeps, if any: the oldest one it ever cached. */
  ghost function Oldest(p: Ratchet): Option<Pub> {
    if |p.buffer| == 0 then None else Some(p.buffer[|p.buffer| - 1].dhPub)
  }

  lemma {:induction false} InsertKeepsOldest(buffer: seq<SkippedKeys.Chain>, op: Op)
    requires 0 < |buffer| < MAX_SKIP_CHAINS
    ensures var next := Apply(buffer, op);
            && |buffer| <= |next| <= |buffer| + 1
            && (Cached(buffer, op.dhPub) ==> |next| == |buffer|)
            && next[|next| - 1].dhPub == buffer[|buffer| - 1].dhPub
            && Cached(next, op.dhPub)
  {
    FindAfterInsert(buffer, op.dhPub, op.msgNo, op.msgKey, op.msgNo);
  }

  /** Skipping on one chain adds one chain at most, and leaves the oldest one where it is. */
  lemma {:induction false} SkipKeepsOldest(buffer: seq<SkippedKeys.Chain>, peer: Pub, chain: Key, from: nat, until: nat)
    requires 0 < |buffer| < MAX_SKIP_CHAINS - 1 || (0 < |buffer| < MAX_SKIP_CHAINS && Cached(buffer, peer))
    ensures var next := Play(buffer, SkipOps(peer, chain, from, until));
            && 0 < |next| <= |buffer| + (if Cached(buffer, peer) then 0 else 1)
            && next[|next| - 1].dhPub == buffer[|buffer| - 1].dhPub
    decreases until - from
  {
    if from < until {
      var op := Op(peer, from, MessageOf(chain));
      InsertKeepsOldest(buffer, op);
      SkipKeepsOldest(Apply(buffer, op), peer, NextOf(chain), from + 1, until);
      assert SkipOps(peer, chain, from, until)[1..] == SkipOps(peer, NextOf(chain), from + 1, until);
    }
  }

  lemma {:induction false} SkipOfKeepsOldest(buffer: seq<SkippedKeys.Chain>, p: Ratchet, until: nat)
    requires 0 < |buffer| < MAX_SKIP_CHAINS - 1 && (p.recv.Some? ==> p.peer.Some?)
    ensures var next := Play(buffer, SkipOpsOf(p, until));
            0 < |next| <= |buffer| + 1 && next[|next| - 1].dhPub == buffer[|buffer| - 1].dhPub
  {
    if p.recv.Some? && until <= p.recvNo + MAX_SKIP_ELEMENTS {
      SkipKeepsOldest(buffer, p.peer.value, p.recv.value, p.recvNo, until);
    }
  }

  /** A loaded ratchet has at most one chain cached, so a Decrypt cannot push it out. */
  lemma {:induction false} DecryptKeepsOldest(p: Ratchet, c: Ciphertext, draw: KeyId)
    requires p.Valid() && |p.buffer| == 1
    ensures Oldest(Reloaded(p.Decrypt(c, draw).state)) == Oldest(p)
  {
    hide SkipOpsOf, Ratchet.Decrypt, Ratchet.Rekey, SkipOps;
    DecryptBuffer(p, c, draw);
    if c.Packet? {
      var h := c.header;
      SkipOfKeepsOldest(p.buffer, p, h.msgNo);
      SkipOfKeepsOldest(p.buffer, p, h.prevNo);
      if p.peer != Some(h.dhPub) {
        SkipValid(p, h.prevNo);
        var moved := p.Rekey(h, draw);
        var ops := SkipOpsOf(p, h.prevNo);
        assert ops + [] == ops;
        if moved.result.Ok? {
          RekeyValid(p, h, draw);
          PlayAppend(p.buffer, ops, ReceiveOps(moved.state, h));
          SkipOfKeepsOldest(Play(p.buffer, ops), moved.state, h.msgNo);
        }
      }
    }
  }

  lemma {:induction false} RekeyValid(p: Ratchet, h: Header, draw: KeyId)
    requires p.Valid()
    ensures p.Rekey(h, draw).state.recv.Some? ==> p.Rekey(h, draw).state.peer.Some?
  {
    SkipValid(p, h.prevNo);
  }

  /** Once a client keeps a chain, it keeps that chain for good. */
  lemma {:induction false} OldestStays(w: Net, ev: Event, r: Role)
    requires Inv(w) && Enabled(w, ev) && Linked(w.Client(r), r, w.link, w.s) && Oldest(Kept(w, r)).Some?
    ensures Inv(After(w, ev)) && Linked(After(w, ev).Client(r), r, After(w, ev).link, After(w, ev).s)
    ensures Oldest(Kept(After(w, ev), r)) == Oldest(Kept(w, r))
  {
    hide Inv, Linked, Ratchet.Decrypt, Ratchet.Encrypt, InSync, Running, After, PostOk, Enabled;
    InvLinked(w, r);
    var p, v := Kept(w, r), After(w, ev);
    ReloadIsExactIff(p);
    if ev.Send? {
      SendEffect(w, ev);
      if ev.from == r {
        SendKeepsBuffer(p, r, w.s, ev.text, ev.draw);
        ReloadedBuffer(p.Encrypt(ev.text, ev.draw).state, p);
      } else {
        KeptSame(w, v, r);
      }
    } else {
      var x := ArriveEffect(w, ev);
      if ev.to == r {
        DecryptKeepsOldest(p, ev.msg.payload, ev.draws.0);
      } else {
        KeptSame(w, v, r);
      }
    }
  }

  lemma {:induction false} SendKeepsBuffer(p: Ratchet, r: Role, s: Schedule, text: Bytes, draw: KeyId)
    requires InSync(p, r, s) && Running(p, r, s)
    ensures p.Encrypt(text, draw).state.buffer == p.buffer
  {
  }

  lemma {:induction false} ReloadedBuffer(q: Ratchet, p: Ratchet)
    requires q.buffer == p.buffer
    ensures Oldest(Reloaded(q)) == Oldest(p)
  {
  }

  lemma {:induction false} RunKeepsOldest(v: Net, evs: seq<Event>, w: Net, r: Role)
    requires Inv(v) && Run(v, evs, w) && Linked(v.Client(r), r, v.link, v.s) && Oldest(Kept(v, r)).Some?
    ensures Inv(w) && Linked(w.Client(r), r, w.link, w.s) && Oldest(Kept(w, r)) == Oldest(Kept(v, r))
    decreases |evs|
  {
    hide Inv, Linked, Enabled, After, Kept;
    if |evs| > 0 {
      OldestStays(v, evs[0], r);
      RunKeepsOldest(After(v, evs[0]), evs[1..], w, r);
    }
  }

  /**
   Retention at client level.  Once a client has cached a chain, no number that it passes over on
   any other chain is ever opened again, in no run: of messages on other chains only those are
   accepted that come next on a live chain, with a number not passed yet and within the limit.
   */
  lemma {:induction false} PassedOverIsLost(
    v: Net, evs: seq<Event>, w: Net, r: Role, x: nat, made: Uuid, peer: KeyId, draws: (KeyId, KeyId), noise: Bytes)
    requires Inv(v) && Run(v, evs, w) && Linked(v.Client(r), r, v.link, v.s) && Oldest(Kept(v, r)).Some?
    requires x < |w.log| && w.log[x].sender == r.Peer() && draws.0 !in w.s.keys
    requires w.log[x].msg.Data? && w.log[x].msg.payload.Packet?
    requires Oldest(Kept(v, r)) != Some(w.log[x].msg.payload.header.dhPub)
    ensures Inv(w) && w.Client(r).Valid() && Linked(w.Client(r), r, w.link, w.s)
    ensures var p, e, i, n := Kept(w, r), Epoch(w.s, r), w.log[x].chain, w.log[x].msg.payload.header.msgNo;
            w.Client(r).Handle(w.log[x].msg, made, peer, draws, noise).result == Ok(Some(Plaintext(w.log[x].plaintext)))
            <==> (i == e - 1 && p.recvNo <= n <= p.recvNo + MAX_SKIP_ELEMENTS) || (i == e + 1 && n <= MAX_SKIP_ELEMENTS)
  {
    hide Run, Ratchet.Decrypt, InSync, Running, ClientState.Handle, InboxOk;
    RunKeepsOldest(v, evs, w, r);
    InvLinked(w, r);
    ClientAcceptsIff(w, r, x, made, peer, draws, noise);
    assert PostOk(w.log[x], w.link, w.s);
    var p := Kept(w, r);
    ReloadIsExactIff(p);
    OtherChain(p, w.log[x].msg.payload.header.dhPub, w.log[x].msg.payload.header.msgNo);
  }

  lemma {:induction false} OtherChain(p: Ratchet, dhPub: Pub, n: nat)
    requires |p.buffer| == 1 && Oldest(p) != Some(dhPub)
    ensures !HasKey(p, dhPub, n)
  {
    IndexOfUnique(p.buffer, dhPub, 1);
  }
}
