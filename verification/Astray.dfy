/**
 A ratchet after a stale packet within the skip limit.  It has left the schedule that its peer
 follows, and never finds back; what it still opens are keys that were cached before.
 */
module Astray {
  import opened Wrappers
  import opened Keys
  import opened SkippedKeys
  import opened Ratchets
  import opened Inserts
  import opened Sync
  import opened Bounds

  // ---------- A history of calls as a history of inserts ----------

  /** The inserts of a whole history of calls. */
  ghost function ServeOps(p: Ratchet, calls: seq<Call>): seq<Op>
    requires p.Valid()
    decreases |calls|
  {
    if |calls| == 0 then []
    else
      match calls[0]
      case Seal(plaintext, draw) =>
        OperationsKeepValid(p, plaintext, Short, draw);
        ServeOps(p.Encrypt(plaintext, draw).state, calls[1..])
      case Open(c, draw) =>
        OperationsKeepValid(p, [], c, draw);
        DecryptOps(p, c, draw) + ServeOps(p.Decrypt(c, draw).state, calls[1..])
  }

  // ---------- Keys behind a fork ----------

  /** A DH step against a key that the peer has left: the root key before it and the two key pairs. */
  datatype Fork = Fork(root: Key, own: KeyId, other: KeyId) {
    function Taken(): Key {
      RootOf(root, Agree(own, other))
    }

    function Start(): Key {
      ChainOf(root, Agree(own, other))
    }
  }

  /** A root key derived from another one. */
  predicate Below(root: Key, top: Key) {
    root == top || (root.RootOf? && Below(root.root, top))
  }

  /** Where a chain key comes from. */
  function Origin(chain: Key): Key {
    if chain.NextOf? then Origin(chain.chain) else chain
  }

  /** A chain that is derived from the step at the fork. */
  predicate StrayChain(chain: Key, f: Fork) {
    var start := Origin(chain);
    start == f.Start() || (start.ChainOf? && Below(start.root, f.Taken()))
  }

  predicate StrayKey(key: Key, f: Fork) {
    key.MessageOf? && StrayChain(key.chain, f)
  }

  ghost predicate AllStray(ops: seq<Op>, f: Fork) {
    forall o :: 0 <= o < |ops| ==> StrayKey(ops[o].msgKey, f)
  }

  lemma {:induction false} OriginOfAdvance(chain: Key, n: nat)
    ensures Origin(Advance(chain, n)) == Origin(chain)
  {
    if n > 0 {
      OriginOfAdvance(chain, n - 1);
    }
  }

  lemma {:induction false} SkipOpsStray(peer: Pub, chain: Key, from: nat, until: nat, f: Fork)
    requires StrayChain(chain, f)
    ensures AllStray(SkipOps(peer, chain, from, until), f)
    decreases until - from
  {
    if from < until {
      SkipOpsStray(peer, NextOf(chain), from + 1, until, f);
    }
  }

  // ---------- The ratchet that went astray ----------

  /** Root key and both chains lie behind the fork. */
  ghost predicate Strayed(q: Ratchet, f: Fork) {
    && q.Valid() && q.peer.Some? && q.send.Some? && q.recv.Some?
    && (q.dhr.active ==> q.dhr.initialized)
    && Below(q.dhr.root, f.Taken()) && StrayChain(q.recv.value, f) && StrayChain(q.send.value, f)
  }

  /** A packet of somebody who did not take the step at the fork. */
  predicate Other(c: Ciphertext, f: Fork) {
    c.Packet? && c.header.dhPub.Point? && (c.body.Box? ==> !StrayKey(c.body.key, f))
  }

  /** A packet of somebody who did. */
  predicate MadeAstray(c: Ciphertext, f: Fork) {
    c.Packet? && c.body.Box? && StrayKey(c.body.key, f)
  }

  ghost predicate AllOther(calls: seq<Call>, f: Fork) {
    forall n :: 0 <= n < |calls| && calls[n].Open? ==> Other(calls[n].ciphertext, f)
  }

  /** The key that seals a packet is cached for its chain and number. */
  predicate Holds(buffer: seq<Chain>, c: Ciphertext) {
    c.Packet? && c.body.Box? && Find(buffer, c.header.dhPub, c.header.msgNo) == Ok(c.body.key)
  }

  /** The step itself, of any ratchet against any key. */
  lemma {:induction false} StepStrays(p: Ratchet, h: Header, k: KeyId)
    requires p.Valid() && (p.dhr.active ==> p.dhr.initialized)
    requires h.dhPub.Point? && p.peer != Some(h.dhPub) && h.prevNo <= p.recvNo + MAX_SKIP_ELEMENTS
    ensures var m := p.Rekey(h, k);
            && m.result.Ok? && Strayed(m.state, Fork(p.dhr.root, p.dhr.priv, h.dhPub.id))
            && m.state.recvNo == 0 && m.state.peer == Some(h.dhPub) && m.state.ad == p.ad
            && m.state.buffer == p.Skip(h.prevNo).state.buffer
  {
    hide Ratchet.SkipTo;
    SkipValid(p, h.prevNo);
    var top := Fork(p.dhr.root, p.dhr.priv, h.dhPub.id).Taken();
    assert Below(top, top) && Below(RootOf(top, Agree(k, h.dhPub.id)), top);
  }

  /** Receiving on the present chain: nothing opens but what is cached. */
  lemma {:induction false} StrayedReceives(q: Ratchet, f: Fork, c: Ciphertext)
    requires Strayed(q, f) && Other(c, f) && q.peer == Some(c.header.dhPub)
    ensures var o := q.Receive(c.header, c.body);
            && Strayed(o.state, f) && AllStray(ReceiveOps(q, c.header), f)
            && o.state.peer == q.peer && o.state.dhr == q.dhr && o.state.ad == q.ad
            && (o.result.Ok? <==> c.header.msgNo < q.recvNo && Holds(q.buffer, c) && c.body.ad == q.ad)
            && (o.result.Ok? ==> o.result == Ok(c.body.plaintext))
            && (c.header.msgNo <= q.recvNo + MAX_SKIP_ELEMENTS ==>
                  o.state.recvNo == if c.header.msgNo < q.recvNo then q.recvNo else c.header.msgNo + 1)
  {
    hide Find, Below;
    var n := c.header.msgNo;
    if n >= q.recvNo {
      SkipValid(q, n);
      SkipToIs(q, n);
      OriginOfAdvance(q.recv.value, n - q.recvNo);
      SkipOpsStray(q.peer.value, q.recv.value, q.recvNo, n, f);
    }
  }

  /** Moving to another chain: it is astray there as well. */
  lemma {:induction false} StrayedMoves(q: Ratchet, f: Fork, h: Header, draw: KeyId)
    requires Strayed(q, f) && h.dhPub.Point? && q.peer != Some(h.dhPub)
    requires h.prevNo <= q.recvNo + MAX_SKIP_ELEMENTS
    ensures var o := q.Rekey(h, draw);
            && o.result.Ok? && o.state.recvNo == 0 && o.state.peer == Some(h.dhPub) && o.state.ad == q.ad
            && Strayed(o.state, f) && AllStray(SkipOpsOf(q, h.prevNo), f)
  {
    hide Ratchet.SkipTo;
    SkipValid(q, h.prevNo);
    SkipOpsStray(q.peer.value, q.recv.value, q.recvNo, h.prevNo, f);
    BelowTwice(q.dhr.root, Agree(q.dhr.priv, h.dhPub.id), Agree(draw, h.dhPub.id), f.Taken());
  }

  lemma {:induction false} BelowTwice(root: Key, a: Key, b: Key, top: Key)
    requires Below(root, top)
    ensures Below(RootOf(RootOf(root, a), b), top)
  {
    assert Below(RootOf(root, a), top);
  }

  /** One delivery, exactly: only a cached key of the present chain opens. */
  lemma {:induction false} StrayedOpensIff(q: Ratchet, f: Fork, c: Ciphertext, draw: KeyId)
    requires Strayed(q, f) && Other(c, f)
    ensures var o := q.Decrypt(c, draw);
            && Strayed(o.state, f) && o.state.ad == q.ad && AllStray(DecryptOps(q, c, draw), f)
            && (o.result.Ok? <==>
                  && q.peer == Some(c.header.dhPub) && c.header.msgNo < q.recvNo
                  && Holds(q.buffer, c) && c.body.ad == q.ad)
            && (o.result.Ok? ==> o.result == Ok(c.body.plaintext))
  {
    hide Find, Ratchet.Receive, Ratchet.Rekey, ReceiveOps, SkipOpsOf, StrayKey, Strayed, Holds;
    StrayedValid(q, f);
    if q.peer == Some(c.header.dhPub) {
      StrayedReceives(q, f, c);
    } else {
      SkipValid(q, c.header.prevNo);
      if c.header.prevNo <= q.recvNo + MAX_SKIP_ELEMENTS {
        StrayedMoves(q, f, c.header, draw);
        StrayedReceives(q.Rekey(c.header, draw).state, f, c);
      } else {
        RekeyRefuses(q, c.header, draw);
      }
    }
  }

  lemma {:induction false} StrayedValid(q: Ratchet, f: Fork)
    requires Strayed(q, f)
    ensures q.Valid()
  {
  }

  lemma {:induction false} RekeyRefuses(q: Ratchet, h: Header, draw: KeyId)
    requires q.Valid() && h.prevNo > q.recvNo + MAX_SKIP_ELEMENTS
    ensures q.Rekey(h, draw).state == q && q.Rekey(h, draw).result.Err? && SkipOpsOf(q, h.prevNo) == []
  {
  }

  lemma {:induction false} StrayedSpeaks(q: Ratchet, f: Fork, plaintext: Bytes, draw: KeyId)
    requires Strayed(q, f)
    ensures var o := q.Encrypt(plaintext, draw);
            && Strayed(o.state, f) && o.state.buffer == q.buffer && o.state.ad == q.ad
            && (o.result.Ok? ==> MadeAstray(o.result.value, f))
  {
  }

  /** Over every history of calls: still astray, and nothing but stray keys was inserted. */
  lemma {:induction false} StrayedServes(q: Ratchet, f: Fork, calls: seq<Call>)
    requires Strayed(q, f) && AllOther(calls, f)
    ensures q.Valid() && Strayed(Serve(q, calls), f) && Serve(q, calls).ad == q.ad && AllStray(ServeOps(q, calls), f)
    ensures Serve(q, calls).buffer == Play(q.buffer, ServeOps(q, calls))
    decreases |calls|
  {
    hide Strayed, Other, StrayKey, DecryptOps, Ratchet.Encrypt, Ratchet.Decrypt;
    StrayedValid(q, f);
    if |calls| > 0 {
      assert forall n :: 0 <= n < |calls| - 1 ==> calls[1..][n] == calls[n + 1];
      match calls[0] {
        case Seal(plaintext, draw) =>
          StrayedSpeaks(q, f, plaintext, draw);
          StrayedServes(q.Encrypt(plaintext, draw).state, f, calls[1..]);
        case Open(c, draw) =>
          StrayedOpensIff(q, f, c, draw);
          DecryptBuffer(q, c, draw);
          var moved := q.Decrypt(c, draw).state;
          StrayedServes(moved, f, calls[1..]);
          PlayAppend(q.buffer, DecryptOps(q, c, draw), ServeOps(moved, calls[1..]));
      }
    }
  }

  // ---------- What survives in the cache ----------

  /** A key cached at the start is found after a history of inserts that does not overwrite it or push it out. */
  predicate Survives(buffer: seq<Chain>, ops: seq<Op>, dhPub: Pub, n: nat, key: Key) {
    && Find(buffer, dhPub, n) == Ok(key)
    && (forall o :: 0 <= o < |ops| ==> (ops[o].dhPub, ops[o].msgNo) != (dhPub, n))
    && IndexOf(buffer, dhPub) + Added(buffer, ops) < MAX_SKIP_CHAINS
  }

  /** An insert of another key does not bring a key back. */
  lemma {:induction false} InsertKeepsAway(buffer: seq<Chain>, op: Op, dhPub: Pub, n: nat, key: Key)
    requires WellFormed(buffer) && Find(buffer, dhPub, n) != Ok(key) && op.msgKey != key
    ensures Find(Apply(buffer, op), dhPub, n) != Ok(key)
  {
    if op.dhPub == dhPub {
      FindAfterInsert(buffer, dhPub, op.msgNo, op.msgKey, n);
    } else {
      InsertElsewhere(buffer, op, dhPub, n);
    }
  }

  /** An insert into another chain leaves a lookup as it is or makes it fail. */
  lemma {:induction false} InsertElsewhere(buffer: seq<Chain>, op: Op, dhPub: Pub, n: nat)
    requires WellFormed(buffer) && op.dhPub != dhPub
    ensures var found := Find(Apply(buffer, op), dhPub, n); found.Err? || found == Find(buffer, dhPub, n)
  {
    hide IndexOf;
    var i := IndexOf(buffer, dhPub);
    if Cached(buffer, op.dhPub) {
      IndexOfUnique(Apply(buffer, op), dhPub, i);
    } else {
      AddShifts(buffer, Chain(op.dhPub, map[op.msgNo := op.msgKey]), dhPub);
    }
  }

  lemma {:induction false} PlayKeepsAway(buffer: seq<Chain>, ops: seq<Op>, dhPub: Pub, n: nat, key: Key)
    requires WellFormed(buffer) && Find(buffer, dhPub, n) != Ok(key)
    requires forall o :: 0 <= o < |ops| ==> ops[o].msgKey != key
    ensures Find(Play(buffer, ops), dhPub, n) != Ok(key)
    decreases |ops|
  {
    hide Find;
    if |ops| > 0 {
      InsertKeepsAway(buffer, ops[0], dhPub, n, key);
      InsertWellFormed(buffer, ops[0].dhPub, ops[0].msgNo, ops[0].msgKey);
      PlayKeepsAway(Apply(buffer, ops[0]), ops[1..], dhPub, n, key);
    }
  }

  /** A key that was overwritten once is gone. */
  lemma {:induction false} PlayOverwrites(buffer: seq<Chain>, ops: seq<Op>, o: nat, dhPub: Pub, n: nat, key: Key)
    requires WellFormed(buffer) && o < |ops| && (ops[o].dhPub, ops[o].msgNo) == (dhPub, n)
    requires forall o :: 0 <= o < |ops| ==> ops[o].msgKey != key
    ensures Find(Play(buffer, ops), dhPub, n) != Ok(key)
  {
    hide Find, Insert;
    PlayWellFormed(buffer, ops[..o]);
    var b := Play(buffer, ops[..o]);
    FindAfterInsert(b, dhPub, n, ops[o].msgKey, n);
    InsertWellFormed(b, dhPub, n, ops[o].msgKey);
    PlayKeepsAway(Apply(b, ops[o]), ops[o + 1..], dhPub, n, key);
    assert ops[o..][1..] == ops[o + 1..] && ops == ops[..o] + ops[o..];
    PlayAppend(buffer, ops[..o], ops[o..]);
  }

  /** Survival, exactly, for inserts of other keys only. */
  lemma {:induction false} SurvivesIff(buffer: seq<Chain>, ops: seq<Op>, dhPub: Pub, n: nat, key: Key)
    requires WellFormed(buffer) && forall o :: 0 <= o < |ops| ==> ops[o].msgKey != key
    ensures Find(Play(buffer, ops), dhPub, n) == Ok(key) <==> Survives(buffer, ops, dhPub, n, key)
  {
    if Find(buffer, dhPub, n) != Ok(key) {
      PlayKeepsAway(buffer, ops, dhPub, n, key);
    } else if o :| 0 <= o < |ops| && (ops[o].dhPub, ops[o].msgNo) == (dhPub, n) {
      PlayOverwrites(buffer, ops, o, dhPub, n, key);
    } else {
      PlayShifts(buffer, Op(dhPub, n, key), IndexOf(buffer, dhPub), ops);
    }
  }

  // ---------- After a step, whoever took it ----------

  /** The inserts since a step: those of the packet's own number, and those of all later calls. */
  ghost function OpsSince(p: Ratchet, first: Ciphertext, k: KeyId, calls: seq<Call>): seq<Op>
    requires p.Valid() && first.Packet?
  {
    OperationsKeepValid(p, [], first, k);
    SkipValid(p, first.header.prevNo);
    ReceiveOps(p.Rekey(first.header, k).state, first.header) + ServeOps(p.Decrypt(first, k).state, calls)
  }

  /** A packet of the present chain, already passed, whose key was cached at the step and has survived. */
  ghost predicate StillOpen(p: Ratchet, first: Ciphertext, k: KeyId, calls: seq<Call>, q: Ratchet, c: Ciphertext)
    requires p.Valid() && first.Packet? && c.Packet?
  {
    && c.body.Box? && c.body.ad == p.ad
    && q.peer == Some(c.header.dhPub) && c.header.msgNo < q.recvNo
    && Survives(p.Skip(first.header.prevNo).state.buffer, OpsSince(p, first, k, calls),
                c.header.dhPub, c.header.msgNo, c.body.key)
  }

  /** What a ratchet accepts after a step, of packets by somebody who did not take that step. */
  lemma {:induction false} AcceptedAfterStepIff(
    p: Ratchet, first: Ciphertext, k: KeyId, calls: seq<Call>, c: Ciphertext, draw: KeyId)
    requires p.Valid() && (p.dhr.active ==> p.dhr.initialized)
    requires first.Packet? && first.header.dhPub.Point? && p.peer != Some(first.header.dhPub)
    requires first.header.prevNo <= p.recvNo + MAX_SKIP_ELEMENTS
    requires var f := Fork(p.dhr.root, p.dhr.priv, first.header.dhPub.id);
             Other(first, f) && AllOther(calls, f) && Other(c, f)
    ensures p.Decrypt(first, k).result.Err? && p.Decrypt(first, k).state.Valid()
    ensures var q := Serve(p.Decrypt(first, k).state, calls);
            && q.Valid()
            && (q.Decrypt(c, draw).result.Ok? <==> StillOpen(p, first, k, calls, q, c))
            && (q.Decrypt(c, draw).result.Ok? ==> q.Decrypt(c, draw).result == Ok(c.body.plaintext))
  {
    hide Strayed, StrayKey, Survives, Find, Serve, ServeOps, ReceiveOps, Ratchet.Receive, Ratchet.Rekey, Ratchet.Skip;
    var f, h := Fork(p.dhr.root, p.dhr.priv, first.header.dhPub.id), first.header;
    StepStrays(p, h, k);
    var m := p.Rekey(h, k).state;
    StrayedValid(m, f);
    StrayedReceives(m, f, first);
    ReceiveBuffer(m, h, first.body);
    var q0 := p.Decrypt(first, k).state;
    assert q0 == m.Receive(h, first.body).state;
    StrayedServes(q0, f, calls);
    var q := Serve(q0, calls);
    StrayedValid(q, f);
    StrayedOpensIff(q, f, c, draw);
    var own, later := ReceiveOps(m, h), ServeOps(q0, calls);
    PlayAppend(m.buffer, own, later);
    if c.body.Box? {
      StrayIsOther(own + later, f, c.body.key);
      SurvivesIff(m.buffer, own + later, c.header.dhPub, c.header.msgNo, c.body.key);
    }
  }

  lemma {:induction false} StrayIsOther(ops: seq<Op>, f: Fork, key: Key)
    requires AllStray(ops, f) && !StrayKey(key, f)
    ensures forall o :: 0 <= o < |ops| ==> ops[o].msgKey != key
  {
    hide StrayKey;
  }

  // ---------- What the peer makes ----------

  /** A root key from which the peer of a fork starts: neither before the fork nor behind it. */
  ghost predicate Clear(root: Key, f: Fork) {
    !Below(root, f.Taken()) && RootDepth(root) % 2 != RootDepth(f.root) % 2
  }

  /** The peer of a ratchet that went astray. */
  ghost predicate Elsewhere(a: Ratchet, f: Fork) {
    && a.Valid() && a.dhr.pub.Point? && (a.dhr.active ==> a.dhr.initialized)
    && Clear(a.dhr.root, f) && (a.send.Some? ==> !StrayChain(a.send.value, f))
    && (a.recv.Some? ==> !StrayChain(a.recv.value, f)) && Clean(a.buffer, f)
  }

  /** Nothing behind the fork is cached. */
  ghost predicate Clean(buffer: seq<Chain>, f: Fork) {
    forall c, n :: 0 <= c < |buffer| && n in buffer[c].msgKeys ==> !StrayKey(buffer[c].msgKeys[n], f)
  }

  ghost predicate NoneStray(ops: seq<Op>, f: Fork) {
    forall o :: 0 <= o < |ops| ==> !StrayKey(ops[o].msgKey, f)
  }

  lemma {:induction false} SkipOpsClean(peer: Pub, chain: Key, from: nat, until: nat, f: Fork)
    requires !StrayChain(chain, f)
    ensures NoneStray(SkipOps(peer, chain, from, until), f)
    decreases until - from
  {
    if from < until {
      SkipOpsClean(peer, NextOf(chain), from + 1, until, f);
    }
  }

  lemma {:induction false} SkipOfClean(p: Ratchet, until: nat, f: Fork)
    requires (p.recv.Some? ==> p.peer.Some?) && (p.recv.Some? ==> !StrayChain(p.recv.value, f))
    ensures NoneStray(SkipOpsOf(p, until), f)
  {
    hide StrayChain;
    if p.recv.Some? {
      SkipOpsClean(p.peer.value, p.recv.value, p.recvNo, until, f);
    }
  }

  lemma {:induction false} InsertClean(buffer: seq<Chain>, op: Op, f: Fork)
    requires Clean(buffer, f) && !StrayKey(op.msgKey, f)
    ensures Clean(Apply(buffer, op), f)
  {
    hide StrayKey;
    var next := Apply(buffer, op);
    forall c, n | 0 <= c < |next| && n in next[c].msgKeys
      ensures !StrayKey(next[c].msgKeys[n], f)
    {
      if !Cached(buffer, op.dhPub) && c > 0 {
        assert next[c] == buffer[c - 1];
      }
    }
  }

  lemma {:induction false} PlayClean(buffer: seq<Chain>, ops: seq<Op>, f: Fork)
    requires Clean(buffer, f) && NoneStray(ops, f)
    ensures Clean(Play(buffer, ops), f)
    decreases |ops|
  {
    hide StrayKey, Clean;
    if |ops| > 0 {
      InsertClean(buffer, ops[0], f);
      PlayClean(Apply(buffer, ops[0]), ops[1..], f);
    }
  }

  lemma {:induction false} FoundClean(buffer: seq<Chain>, f: Fork, dhPub: Pub, n: nat)
    requires Clean(buffer, f) && Find(buffer, dhPub, n).Ok?
    ensures !StrayKey(Find(buffer, dhPub, n).value, f)
  {
  }

  predicate DrawsApart(draw: KeyId, f: Fork) {
    draw != f.own && draw != f.other
  }

  ghost predicate AllApart(calls: seq<Call>, f: Fork) {
    forall n :: 0 <= n < |calls| ==> DrawsApart(calls[n].draw, f)
  }

  /** A step of the peer, against any key: its two new roots and its new chain stay off the fork. */
  lemma {:induction false} ClearSteps(root: Key, priv: KeyId, y: KeyId, draw: KeyId, f: Fork)
    requires Clear(root, f) && DrawsApart(draw, f)
    ensures var mid := RootOf(root, Agree(priv, y));
            && Clear(RootOf(mid, Agree(draw, y)), f) && !StrayChain(ChainOf(mid, Agree(draw, y)), f)
            && !StrayChain(ChainOf(root, Agree(priv, y)), f)
  {
    var mid := RootOf(root, Agree(priv, y));
    assert RootDepth(mid) == RootDepth(root) + 1;
    assert RootDepth(RootOf(mid, Agree(draw, y))) == RootDepth(mid) + 1;
    assert mid != f.Taken();
    assert !Below(mid, f.Taken());
    assert Agree(draw, y) != Agree(f.own, f.other);
  }

  lemma {:induction false} ElsewhereSteps(a: Ratchet, f: Fork, draw: KeyId)
    requires Elsewhere(a, f) && DrawsApart(draw, f)
    ensures var o := a.DhStep(draw).state;
            && o.dhr.pub.Point? && (o.dhr.active ==> o.dhr.initialized) && Clear(o.dhr.root, f)
            && (o.send.Some? ==> !StrayChain(o.send.value, f)) && o.buffer == a.buffer && o.peer == a.peer
            && (o.recv.Some? ==> o.peer.Some? && !StrayChain(o.recv.value, f))
  {
    hide Clear, StrayChain;
    if a.peer.Some? && a.peer.value.Point? {
      ClearSteps(a.dhr.root, a.dhr.priv, a.peer.value.id, draw, f);
    }
  }

  /** Encrypting keeps the peer off the fork, and what it makes is not sealed with a stray key. */
  lemma {:induction false} ElsewhereSpeaks(a: Ratchet, f: Fork, plaintext: Bytes, draw: KeyId)
    requires Elsewhere(a, f) && DrawsApart(draw, f)
    ensures var o := a.Encrypt(plaintext, draw);
            Elsewhere(o.state, f) && (o.result.Ok? ==> Other(o.result.value, f))
  {
    hide Clear, Ratchet.DhStep, Below;
    OperationsKeepValid(a, plaintext, Short, draw);
    if a.send.None? {
      ElsewhereSteps(a, f, draw);
    }
  }

  /** Receiving on the present chain: nothing behind the fork is derived, cached or opened. */
  lemma {:induction false} ElsewhereReceives(a: Ratchet, f: Fork, h: Header, body: Body)
    requires Elsewhere(a, f)
    ensures var o := a.Receive(h, body);
            Elsewhere(o.state, f) && (o.result.Ok? ==> body.Box? && !StrayKey(body.key, f))
  {
    hide Clear, StrayChain, Clean, Find, Ratchet.SkipTo;
    SkipValid(a, h.msgNo);
    ReceiveBuffer(a, h, body);
    SkipOfClean(a, h.msgNo, f);
    PlayClean(a.buffer, ReceiveOps(a, h), f);
    if h.msgNo < a.recvNo {
      if Find(a.buffer, h.dhPub, h.msgNo).Ok? {
        FoundClean(a.buffer, f, h.dhPub, h.msgNo);
      }
    } else if a.recv.Some? {
      SkipToIs(a, h.msgNo);
      StrayAlong(a.recv.value, h.msgNo - a.recvNo, f);
    }
  }

  lemma {:induction false} StrayAlong(chain: Key, n: nat, f: Fork)
    ensures StrayChain(Advance(chain, n), f) == StrayChain(chain, f)
    ensures StrayChain(NextOf(Advance(chain, n)), f) == StrayChain(chain, f)
  {
    OriginOfAdvance(chain, n);
    OriginOfAdvance(chain, n + 1);
  }

  /** Following a key, whosever it is. */
  lemma {:induction false} ElsewhereMoves(a: Ratchet, f: Fork, h: Header, draw: KeyId)
    requires Elsewhere(a, f) && DrawsApart(draw, f)
    ensures Elsewhere(a.Rekey(h, draw).state, f)
  {
    hide Clear, Ratchet.DhStep, StrayChain, Ratchet.SkipTo, Clean;
    SkipValid(a, h.prevNo);
    SkipBuffer(a, h.prevNo);
    SkipOfClean(a, h.prevNo, f);
    PlayClean(a.buffer, SkipOpsOf(a, h.prevNo), f);
    var skipped := a.Skip(h.prevNo);
    SkippedChain(a, h.prevNo, f);
    if skipped.result.Ok? {
      ElsewhereSteps(skipped.state.(peer := Some(h.dhPub)), f, draw);
    }
  }

  lemma {:induction false} SkippedChain(a: Ratchet, until: nat, f: Fork)
    requires a.Valid() && (a.recv.Some? ==> !StrayChain(a.recv.value, f))
    ensures var q := a.Skip(until).state; q.recv.Some? ==> !StrayChain(q.recv.value, f)
  {
    hide StrayChain;
    SkipValid(a, until);
    if a.recv.Some? && a.recvNo <= until {
      SkipToIs(a, until);
      StrayAlong(a.recv.value, until - a.recvNo, f);
    }
  }

  /** Decrypting keeps the peer off the fork, whatever it is given, and opens nothing that was made behind it. */
  lemma {:induction false} ElsewhereHears(a: Ratchet, f: Fork, c: Ciphertext, draw: KeyId)
    requires Elsewhere(a, f) && DrawsApart(draw, f)
    ensures var o := a.Decrypt(c, draw); Elsewhere(o.state, f) && (MadeAstray(c, f) ==> o.result.Err?)
  {
    hide Elsewhere, Ratchet.Rekey, Ratchet.Receive, StrayKey;
    ElsewhereValid(a, f);
    if c.Packet? {
      if a.peer == Some(c.header.dhPub) {
        ElsewhereReceives(a, f, c.header, c.body);
      } else {
        ElsewhereMoves(a, f, c.header, draw);
        ElsewhereValid(a.Rekey(c.header, draw).state, f);
        ElsewhereReceives(a.Rekey(c.header, draw).state, f, c.header, c.body);
      }
    }
  }

  /** Over every history of calls, whatever the peer is given, it stays off the fork. */
  lemma {:induction false} ElsewhereServes(a: Ratchet, f: Fork, calls: seq<Call>)
    requires Elsewhere(a, f) && AllApart(calls, f)
    ensures a.Valid() && Elsewhere(Serve(a, calls), f)
    decreases |calls|
  {
    hide Elsewhere, Other, MadeAstray, Ratchet.Encrypt, Ratchet.Decrypt;
    ElsewhereValid(a, f);
    if |calls| > 0 {
      assert forall n :: 0 <= n < |calls| - 1 ==> calls[1..][n] == calls[n + 1];
      match calls[0] {
        case Seal(text, k) =>
          ElsewhereSpeaks(a, f, text, k);
          ElsewhereServes(a.Encrypt(text, k).state, f, calls[1..]);
        case Open(c, k) =>
          ElsewhereHears(a, f, c, k);
          ElsewhereServes(a.Decrypt(c, k).state, f, calls[1..]);
      }
    }
  }

  /** Everything that the peer makes, now or ever after, was made off the fork. */
  lemma {:induction false} PeerNeverStrays(a: Ratchet, f: Fork, calls: seq<Call>, plaintext: Bytes, draw: KeyId)
    requires Elsewhere(a, f) && AllApart(calls, f) && DrawsApart(draw, f)
    ensures a.Valid()
    ensures var o := Serve(a, calls).Encrypt(plaintext, draw); o.result.Ok? ==> Other(o.result.value, f)
  {
    hide Elsewhere, Other, Ratchet.Encrypt, Serve;
    ElsewhereServes(a, f, calls);
    ElsewhereSpeaks(Serve(a, calls), f, plaintext, draw);
  }

  lemma {:induction false} ElsewhereValid(a: Ratchet, f: Fork)
    requires Elsewhere(a, f)
    ensures a.Valid()
  {
  }

  // ---------- After a stale packet ----------

  /** A packet on a chain of the schedule, as its sender made it. */
  ghost predicate MadeOn(c: Ciphertext, s: Schedule, j: nat) {
    && 0 < j < |s.keys| && c.Packet? && c.header.dhPub == s.Pub(j)
    && c.body.Box? && c.body == Box(s.Message(j, c.header.msgNo), s.ad, c.body.plaintext)
  }

  /** A packet that the peer made: on the schedule so far, or after any further calls, whatever it was given. */
  ghost predicate MadeByPeer(c: Ciphertext, a: Ratchet, s: Schedule)
    requires a.Valid()
  {
    || (exists j: nat :: MadeOn(c, s, j))
    || (exists calls, plaintext, draw: KeyId :: MadeLater(c, a, s, calls, plaintext, draw))
  }

  ghost predicate MadeLater(c: Ciphertext, a: Ratchet, s: Schedule, calls: seq<Call>, plaintext: Bytes, draw: KeyId)
    requires a.Valid()
  {
    && (forall n :: 0 <= n < |calls| ==> calls[n].draw !in s.keys) && draw !in s.keys
    && Serve(a, calls).Encrypt(plaintext, draw).result == Ok(c)
  }

  ghost predicate AllByPeer(calls: seq<Call>, a: Ratchet, s: Schedule)
    requires a.Valid()
  {
    forall n :: 0 <= n < |calls| && calls[n].Open? ==> MadeByPeer(calls[n].ciphertext, a, s)
  }

  /** The fork at which a stale packet of chain `i` leaves the schedule. */
  function ForkAt(s: Schedule, e: nat, i: nat): Fork
    requires i < |s.keys| && e < |s.keys|
  {
    Fork(Root(s.keys, s.seed, e), s.keys[e], s.keys[i])
  }

  lemma {:induction false} DepthBelow(root: Key, top: Key)
    requires Below(root, top)
    ensures RootDepth(root) >= RootDepth(top)
  {
    if root != top {
      DepthBelow(root.root, top);
    }
  }

  /** No root key of the schedule lies behind the fork. */
  lemma {:induction false} RootsAreClear(s: Schedule, e: nat, i: nat, j: nat)
    requires s.Valid() && 0 < i < e - 1 && e < |s.keys| <= e + 2 && j < |s.keys|
    ensures !Below(Root(s.keys, s.seed, j), ForkAt(s, e, i).Taken())
    ensures RootDepth(Root(s.keys, s.seed, j)) == RootDepth(s.seed) + j
  {
    RootDepthOf(s.keys, s.seed, j);
    RootDepthOf(s.keys, s.seed, e);
    var top := ForkAt(s, e, i).Taken();
    assert RootDepth(top) == RootDepth(s.seed) + e + 1;
    if Below(Root(s.keys, s.seed, j), top) {
      DepthBelow(Root(s.keys, s.seed, j), top);
      assert j == e + 1;
      if Root(s.keys, s.seed, j) != top {
        DepthBelow(Root(s.keys, s.seed, j).root, top);
      }
    }
  }

  /** Nothing made on the schedule is sealed with a stray key. */
  lemma {:induction false} ScheduleIsOther(s: Schedule, e: nat, i: nat, j: nat, n: nat)
    requires s.Valid() && 0 < i < e - 1 && e < |s.keys| <= e + 2 && 0 < j < |s.keys|
    ensures !StrayChain(s.Chain(j, n), ForkAt(s, e, i)) && !StrayKey(s.Message(j, n), ForkAt(s, e, i))
  {
    hide Below;
    OriginOfAdvance(ChainStart(s.keys, s.seed, j), n);
    RootsAreClear(s, e, i, j - 1);
    RootsAreClear(s, e, i, e);
  }

  /** The peer's ratchet at the time of the stale packet is off the fork. */
  lemma {:induction false} PeerIsElsewhere(a: Ratchet, r: Role, s: Schedule, i: nat)
    requires InSync(a, r.Peer(), s) && 0 < i < Epoch(s, r) - 1
    ensures Elsewhere(a, ForkAt(s, Epoch(s, r), i))
  {
    hide CacheSound, Below, StrayChain, Schedule.Message, StrayKey;
    var e, f := Epoch(s, r), Epoch(s, r.Peer());
    RootsAreClear(s, e, i, f);
    RootsAreClear(s, e, i, e);
    ScheduleIsOther(s, e, i, f, a.sendNo);
    ScheduleIsOther(s, e, i, f - 1, a.recvNo);
    SoundIsClean(a.buffer, r, s, i);
  }

  lemma {:induction false} SoundIsClean(buffer: seq<Chain>, r: Role, s: Schedule, i: nat)
    requires s.Valid() && CacheSound(buffer, r.Peer(), s) && 0 < i < Epoch(s, r) - 1
    ensures Clean(buffer, ForkAt(s, Epoch(s, r), i))
  {
    hide StrayKey, Schedule.Message;
    var e := Epoch(s, r);
    forall c, n | 0 <= c < |buffer| && n in buffer[c].msgKeys
      ensures !StrayKey(buffer[c].msgKeys[n], ForkAt(s, e, i))
    {
      assert KeySound(r.Peer(), s, buffer[c].dhPub, n, buffer[c].msgKeys[n]);
      var j :| && 0 < j < |s.keys| && Owns(r.Peer().Peer(), j)
               && buffer[c].dhPub == s.Pub(j) && buffer[c].msgKeys[n] == s.Message(j, n);
      ScheduleIsOther(s, e, i, j, n);
    }
  }

  /** Whatever the peer made is sealed with a key off the fork. */
  lemma {:induction false} MadeByPeerIsOther(c: Ciphertext, a: Ratchet, r: Role, s: Schedule, i: nat)
    requires InSync(a, r.Peer(), s) && a.Valid() && 0 < i < Epoch(s, r) - 1 && MadeByPeer(c, a, s)
    ensures Other(c, ForkAt(s, Epoch(s, r), i))
  {
    hide Elsewhere, StrayKey, InSync, Serve, Ratchet.Encrypt;
    InSyncValid(a, r.Peer(), s);
    var e := Epoch(s, r);
    var f := ForkAt(s, e, i);
    if j: nat :| MadeOn(c, s, j) {
      ScheduleIsOther(s, e, i, j, c.header.msgNo);
    } else {
      var calls, plaintext, draw: KeyId :| MadeLater(c, a, s, calls, plaintext, draw);
      PeerIsElsewhere(a, r, s, i);
      assert AllApart(calls, f) && DrawsApart(draw, f);
      PeerNeverStrays(a, f, calls, plaintext, draw);
    }
  }

  lemma {:induction false} AllByPeerIsOther(calls: seq<Call>, a: Ratchet, r: Role, s: Schedule, i: nat)
    requires InSync(a, r.Peer(), s) && a.Valid() && 0 < i < Epoch(s, r) - 1 && AllByPeer(calls, a, s)
    ensures AllOther(calls, ForkAt(s, Epoch(s, r), i))
  {
    hide Other, InSync, MadeByPeer;
    forall n | 0 <= n < |calls| && calls[n].Open?
      ensures Other(calls[n].ciphertext, ForkAt(s, Epoch(s, r), i))
    {
      MadeByPeerIsOther(calls[n].ciphertext, a, r, s, i);
    }
  }

  /** A stale packet within the limit, at a party whose peer is in step as well. */
  ghost predicate StaleAt(p: Ratchet, a: Ratchet, r: Role, s: Schedule, i: nat, stale: Ciphertext) {
    && InSync(p, r, s) && Running(p, r, s) && InSync(a, r.Peer(), s)
    && 0 < i < Epoch(s, r) - 1 && MadeOn(stale, s, i)
    && stale.header.prevNo <= p.recvNo + MAX_SKIP_ELEMENTS
  }

  lemma {:induction false} StaleForks(p: Ratchet, a: Ratchet, r: Role, s: Schedule, i: nat, stale: Ciphertext)
    requires StaleAt(p, a, r, s, i, stale)
    ensures p.Valid() && a.Valid() && s.Valid() && (p.dhr.active ==> p.dhr.initialized) && p.ad == s.ad
    ensures p.peer != Some(stale.header.dhPub) && stale.header.dhPub == s.Pub(i)
    ensures Fork(p.dhr.root, p.dhr.priv, s.keys[i]) == ForkAt(s, Epoch(s, r), i)
    ensures MadeByPeer(stale, a, s)
  {
    hide CacheSound, Schedule.Message, Schedule.Chain;
  }

  /**
   After a stale packet within the limit and any later calls, exactly this is accepted of what the
   peer made before or makes ever after: a packet of the present chain, with a number already passed,
   whose key was cached when the stale step was taken and was neither overwritten nor pushed out since.
   */
  lemma {:induction false} AcceptedAfterStaleIff(
    p: Ratchet, a: Ratchet, r: Role, s: Schedule, i: nat, stale: Ciphertext, k: KeyId,
    calls: seq<Call>, c: Ciphertext, draw: KeyId)
    requires StaleAt(p, a, r, s, i, stale) && a.Valid() && AllByPeer(calls, a, s) && MadeByPeer(c, a, s)
    ensures p.Valid() && c.Packet? && p.Decrypt(stale, k).result.Err? && p.Decrypt(stale, k).state.Valid()
    ensures var q := Serve(p.Decrypt(stale, k).state, calls);
            && q.Valid()
            && (q.Decrypt(c, draw).result.Ok? <==> StillOpen(p, stale, k, calls, q, c))
            && (q.Decrypt(c, draw).result.Ok? ==> q.Decrypt(c, draw).result == Ok(c.body.plaintext))
  {
    hide Other, MadeByPeer, AllOther, AllByPeer, StillOpen, Serve, Ratchet.Decrypt, InSync, Running, MadeOn;
    StaleForks(p, a, r, s, i, stale);
    StalePacket(p, a, r, s, i, stale);
    MadeByPeerIsOther(stale, a, r, s, i);
    MadeByPeerIsOther(c, a, r, s, i);
    AllByPeerIsOther(calls, a, r, s, i);
    OtherIsPacket(c, ForkAt(s, Epoch(s, r), i));
    AcceptedAfterStepIff(p, stale, k, calls, c, draw);
  }

  lemma {:induction false} StalePacket(p: Ratchet, a: Ratchet, r: Role, s: Schedule, i: nat, stale: Ciphertext)
    requires StaleAt(p, a, r, s, i, stale)
    ensures stale.Packet? && stale.header.dhPub.Point? && stale.header.dhPub.id == s.keys[i]
    ensures InSync(a, r.Peer(), s) && stale.header.prevNo <= p.recvNo + MAX_SKIP_ELEMENTS
  {
    hide InSync, Running;
  }

  lemma {:induction false} OtherIsPacket(c: Ciphertext, f: Fork)
    requires Other(c, f)
    ensures c.Packet?
  {
  }

  /** Nothing whose key was not cached when the stale step was taken is ever accepted again. */
  lemma {:induction false} NothingNewIsAccepted(
    p: Ratchet, a: Ratchet, r: Role, s: Schedule, i: nat, stale: Ciphertext, k: KeyId,
    calls: seq<Call>, c: Ciphertext, draw: KeyId)
    requires StaleAt(p, a, r, s, i, stale) && a.Valid() && AllByPeer(calls, a, s) && MadeByPeer(c, a, s)
    requires p.Valid() && !Holds(p.Skip(stale.header.prevNo).state.buffer, c)
    ensures p.Decrypt(stale, k).state.Valid()
    ensures Serve(p.Decrypt(stale, k).state, calls).Valid()
    ensures Serve(p.Decrypt(stale, k).state, calls).Decrypt(c, draw).result.Err?
  {
    hide StaleAt, MadeByPeer, AllByPeer, Serve, Ratchet.Decrypt, Ratchet.Skip, OpsSince, Find;
    AcceptedAfterStaleIff(p, a, r, s, i, stale, k, calls, c, draw);
  }

  /**
   The other half.  Of what the strayed party makes after the step, whatever it hears of its peer, its
   peer accepts nothing, ever after and whatever it is given.
   */
  lemma {:induction false} PeerAcceptsNothing(
    p: Ratchet, a: Ratchet, r: Role, s: Schedule, i: nat, stale: Ciphertext, k: KeyId,
    calls: seq<Call>, plaintext: Bytes, draw: KeyId, peerCalls: seq<Call>, draw': KeyId)
    requires StaleAt(p, a, r, s, i, stale) && a.Valid() && AllByPeer(calls, a, s)
    requires draw' !in s.keys && forall n :: 0 <= n < |peerCalls| ==> peerCalls[n].draw !in s.keys
    ensures p.Valid() && p.Decrypt(stale, k).state.Valid() && Serve(a, peerCalls).Valid()
    ensures var o := Serve(p.Decrypt(stale, k).state, calls).Encrypt(plaintext, draw);
            o.result.Ok? ==> Serve(a, peerCalls).Decrypt(o.result.value, draw').result.Err?
  {
    hide Other, MadeByPeer, AllOther, AllByPeer, Serve, InSync, Running, MadeOn, Elsewhere, Strayed, MadeAstray;
    hide Ratchet.Rekey, Ratchet.Receive, Ratchet.Encrypt;
    var f := ForkAt(s, Epoch(s, r), i);
    StaleForks(p, a, r, s, i, stale);
    StalePacket(p, a, r, s, i, stale);
    MadeByPeerIsOther(stale, a, r, s, i);
    AllByPeerIsOther(calls, a, r, s, i);
    StepStrays(p, stale.header, k);
    var m := p.Rekey(stale.header, k).state;
    StrayedValid(m, f);
    StrayedReceives(m, f, stale);
    var q0 := p.Decrypt(stale, k).state;
    assert q0 == m.Receive(stale.header, stale.body).state;
    StrayedServes(q0, f, calls);
    StrayedSpeaks(Serve(q0, calls), f, plaintext, draw);
    PeerIsElsewhere(a, r, s, i);
    assert AllApart(peerCalls, f) && DrawsApart(draw', f);
    ElsewhereServes(a, f, peerCalls);
    var b := Serve(a, peerCalls);
    ElsewhereValid(b, f);
    var o := Serve(q0, calls).Encrypt(plaintext, draw);
    if o.result.Ok? {
      ElsewhereHears(b, f, o.result.value, draw');
    }
  }

  // ---------- Two inputs that open on the second try ----------

  lemma {:induction false} AddsNothing(buffer: seq<Chain>, peer: Pub, chain: Key, from: nat, until: nat)
    requires WellFormed(buffer) && Cached(buffer, peer)
    ensures Added(buffer, SkipOps(peer, chain, from, until)) == 0
    ensures forall o :: 0 <= o < |SkipOps(peer, chain, from, until)| ==>
              SkipOps(peer, chain, from, until)[o].dhPub == peer && SkipOps(peer, chain, from, until)[o].msgNo < until
    decreases until - from
  {
    if from < until {
      var next := Insert(buffer, peer, from, MessageOf(chain));
      InsertWellFormed(buffer, peer, from, MessageOf(chain));
      FindAfterInsert(buffer, peer, from, MessageOf(chain), from);
      AddsNothing(next, peer, NextOf(chain), from + 1, until);
      assert SkipOps(peer, chain, from, until)[1..] == SkipOps(peer, NextOf(chain), from + 1, until);
    }
  }

  lemma {:induction false} FoundIsCached(buffer: seq<Chain>, dhPub: Pub, n: nat)
    requires WellFormed(buffer) && Find(buffer, dhPub, n).Ok?
    ensures Cached(buffer, dhPub) && IndexOf(buffer, dhPub) < MAX_SKIP_CHAINS
  {
  }

  lemma {:induction false} NoTail(p: Ratchet, until: nat)
    requires p.Valid() && until <= p.recvNo
    ensures p.Skip(until).state == p
  {
  }

  /** What is cached for a packet made on the schedule is its own key. */
  lemma {:induction false} FoundIsHeld(p: Ratchet, r: Role, s: Schedule, c: Ciphertext, j: nat)
    requires InSync(p, r, s) && MadeOn(c, s, j) && Find(p.buffer, c.header.dhPub, c.header.msgNo).Ok?
    ensures Holds(p.buffer, c)
  {
    FindSound(p, r, s, j, c.header.msgNo);
  }

  lemma {:induction false} MadeOnIsByPeer(c: Ciphertext, a: Ratchet, s: Schedule, j: nat)
    requires MadeOn(c, s, j) && a.Valid()
    ensures MadeByPeer(c, a, s) && c.Packet? && c.body.Box? && c.body.ad == s.ad && c.header.dhPub == s.Pub(j)
  {
  }

  /** A stale packet whose key is cached is refused at first and opens when it is delivered again. */
  lemma {:induction false} StaleOpensAgain(
    p: Ratchet, a: Ratchet, r: Role, s: Schedule, i: nat, stale: Ciphertext, k: KeyId, k': KeyId)
    requires StaleAt(p, a, r, s, i, stale)
    requires stale.header.prevNo <= p.recvNo && stale.header.msgNo <= MAX_SKIP_ELEMENTS
    requires Find(p.buffer, stale.header.dhPub, stale.header.msgNo).Ok?
    ensures p.Valid() && p.Decrypt(stale, k).result.Err? && p.Decrypt(stale, k).state.Valid()
    ensures p.Decrypt(stale, k).state.Decrypt(stale, k').result == Ok(stale.body.plaintext)
  {
    hide Find, Ratchet.Receive, Ratchet.Rekey, Ratchet.Skip, MadeByPeer, InSync, Running, Strayed, MadeOn, Other;
    StaleForks(p, a, r, s, i, stale);
    StalePacket(p, a, r, s, i, stale);
    MadeOnIsByPeer(stale, a, s, i);
    MadeByPeerIsOther(stale, a, r, s, i);
    FoundIsHeld(p, r, s, stale, i);
    AcceptedAfterStaleIff(p, a, r, s, i, stale, k, [], stale, k');
    StepStrays(p, stale.header, k);
    var m := p.Rekey(stale.header, k).state;
    StrayedReceives(m, ForkAt(s, Epoch(s, r), i), stale);
    NoTail(p, stale.header.prevNo);
    FoundIsCached(p.buffer, stale.header.dhPub, stale.header.msgNo);
    StrayedChain(m, ForkAt(s, Epoch(s, r), i));
    AddsNothing(p.buffer, stale.header.dhPub, m.recv.value, 0, stale.header.msgNo);
    var own := ReceiveOps(m, stale.header);
    assert OpsSince(p, stale, k, []) == own;
    assert own == SkipOps(stale.header.dhPub, m.recv.value, 0, stale.header.msgNo);
  }

  lemma {:induction false} StrayedChain(q: Ratchet, f: Fork)
    requires Strayed(q, f)
    ensures q.recv.Some? && q.peer.Some? && q.Valid()
  {
  }

  /** After a stale first packet of its chain, a live packet whose key is cached is refused once and then opens. */
  lemma {:induction false} LiveOpensAgain(
    p: Ratchet, a: Ratchet, r: Role, s: Schedule, i: nat, stale: Ciphertext, live: Ciphertext,
    k: KeyId, k': KeyId, k'': KeyId)
    requires StaleAt(p, a, r, s, i, stale) && stale.header.prevNo <= p.recvNo && stale.header.msgNo == 0
    requires MadeOn(live, s, Epoch(s, r) - 1) && live.header.prevNo <= 1 && live.header.msgNo <= MAX_SKIP_ELEMENTS
    requires Find(p.buffer, live.header.dhPub, live.header.msgNo).Ok?
    ensures p.Valid() && p.Decrypt(stale, k).state.Valid()
    ensures var q := p.Decrypt(stale, k).state;
            && q.Decrypt(live, k').result.Err? && q.Decrypt(live, k').state.Valid()
            && q.Decrypt(live, k').state.Decrypt(live, k'').result == Ok(live.body.plaintext)
  {
    hide Find, Ratchet.Receive, Ratchet.Rekey, Ratchet.Skip, MadeByPeer, InSync, Running, MadeOn, ReceiveOps, SkipOpsOf;
    var e := Epoch(s, r);
    StaleForks(p, a, r, s, i, stale);
    StalePacket(p, a, r, s, i, stale);
    MadeOnIsByPeer(live, a, s, e - 1);
    FoundIsHeld(p, r, s, live, e - 1);
    var h := live.header;
    AcceptedAfterStaleIff(p, a, r, s, i, stale, k, [], live, k');
    LiveMoves(p, a, r, s, i, stale, live, k, k');
    var q0 := p.Decrypt(stale, k).state;
    var calls := [Open(live, k')];
    AcceptedAfterStaleIff(p, a, r, s, i, stale, k, calls, live, k'');
    NoTail(p, stale.header.prevNo);
    FoundIsCached(p.buffer, h.dhPub, h.msgNo);
    var chain := q0.Rekey(h, k').state.recv.value;
    AddsNothing(p.buffer, h.dhPub, chain, 0, h.msgNo);
    OperationsKeepValid(q0, [], live, k');
    assert calls[1..] == [];
    assert Serve(q0, calls) == q0.Decrypt(live, k').state;
    assert ServeOps(q0, calls) == DecryptOps(q0, live, k') + ServeOps(q0.Decrypt(live, k').state, calls[1..]);
    assert ServeOps(q0, calls) == DecryptOps(q0, live, k');
    assert OpsSince(p, stale, k, calls) == SkipOps(h.dhPub, chain, 0, h.msgNo);
  }

  /** The two steps of the ratchet in LiveOpensAgain, and the inserts they perform. */
  lemma {:induction false} LiveMoves(
    p: Ratchet, a: Ratchet, r: Role, s: Schedule, i: nat, stale: Ciphertext, live: Ciphertext, k: KeyId, k': KeyId)
    requires StaleAt(p, a, r, s, i, stale) && stale.header.prevNo <= p.recvNo && stale.header.msgNo == 0
    requires MadeOn(live, s, Epoch(s, r) - 1) && live.header.prevNo <= 1 && live.header.msgNo <= MAX_SKIP_ELEMENTS
    ensures p.Valid() && p.Decrypt(stale, k).state.Valid()
    ensures p.Rekey(stale.header, k).state.recv.Some? ==> p.Rekey(stale.header, k).state.peer.Some?
    ensures ReceiveOps(p.Rekey(stale.header, k).state, stale.header) == []
    ensures var q, h := p.Decrypt(stale, k).state, live.header;
            && q.peer == Some(stale.header.dhPub) && q.Rekey(h, k').state.recv.Some?
            && DecryptOps(q, live, k') == SkipOps(h.dhPub, q.Rekey(h, k').state.recv.value, 0, h.msgNo)
            && q.Decrypt(live, k').state.peer == Some(h.dhPub) && q.Decrypt(live, k').state.recvNo == h.msgNo + 1
  {
    hide Find, Ratchet.Receive, Ratchet.Rekey, MadeByPeer, InSync, Running, MadeOn, Strayed, Other;
    var f := ForkAt(s, Epoch(s, r), i);
    StaleForks(p, a, r, s, i, stale);
    StalePacket(p, a, r, s, i, stale);
    MadeOnIsByPeer(live, a, s, Epoch(s, r) - 1);
    MadeByPeerIsOther(stale, a, r, s, i);
    MadeByPeerIsOther(live, a, r, s, i);
    StepStrays(p, stale.header, k);
    var m := p.Rekey(stale.header, k).state;
    StrayedChain(m, f);
    StrayedReceives(m, f, stale);
    var q := p.Decrypt(stale, k).state;
    assert q == m.Receive(stale.header, stale.body).state && q.recvNo == 1;
    StrayedChain(q, f);
    StrayedMoves(q, f, live.header, k');
    StrayedChain(q.Rekey(live.header, k').state, f);
    StrayedReceives(q.Rekey(live.header, k').state, f, live);
    SkipValid(q, live.header.prevNo);
  }
}
