/**
 The same lossy but ordered traffic, once between ratchets in memory and once between clients that
 reload before every operation.  Clients that store every outcome keep up with the ratchets in
 memory.  Clients that store what succeeded keep up with three exceptions, characterised exactly.
 */
module Simulation {
  import opened Wrappers
  import opened Keys
  import opened SkippedKeys
  import opened Ratchets
  import opened Persistence
  import opened Sync
  import opened Logs
  import opened Sides

  /** Both sides, and how many of the peer's messages each party has been offered. */
  datatype Pair = Pair(policy: Policy, m: Side, c: Side, aliceNext: nat, bobNext: nat) {
    function Next(r: Role): nat {
      if r == Alice then aliceNext else bobNext
    }

    function Offered(r: Role, n: nat): Pair {
      if r == Alice then this.(aliceNext := n) else this.(bobNext := n)
    }
  }

  datatype Event = Encrypt(from: Role, plaintext: Bytes, draw: KeyId) | Deliver(to: Role, x: nat, draw: KeyId)

  ghost predicate Loads(v: Side) {
    |v.s.keys| >= 2 && forall r: Role :: v.Party(r).recv.Some? ==> v.Party(r).peer.Some?
  }

  /** Drawn key pairs are new; each party is offered its peer's messages in order, without those that are lost. */
  ghost predicate Enabled(p: Pair, ev: Event) {
    && ev.draw !in p.m.s.keys && ev.draw !in p.c.s.keys
    && (ev.Deliver? ==> p.Next(ev.to) <= ev.x < |p.m.Log(ev.to.Peer())| && ev.x < |p.c.Log(ev.to.Peer())|)
  }

  /** An Encrypt call is logged on both sides, or on neither if it finds no sending chain on both. */
  function After(p: Pair, ev: Event): Pair
    requires Loads(p.m) && Loads(p.c) && Enabled(p, ev)
  {
    match ev
    case Encrypt(r, plaintext, draw) =>
      if && p.m.Party(r).Encrypt(plaintext, draw).state.send.None?
         && p.c.Party(r).Encrypt(plaintext, draw).state.send.None?
      then p.(m := p.m.With(r, Speaker(p.m, r, plaintext, draw, InMemory), draw),
              c := p.c.With(r, Speaker(p.c, r, plaintext, draw, p.policy), draw))
      else p.(m := Encrypted(p.m, r, plaintext, draw, InMemory), c := Encrypted(p.c, r, plaintext, draw, p.policy))
    case Deliver(r, x, draw) =>
      p.(m := Delivered(p.m, r, x, draw, InMemory), c := Delivered(p.c, r, x, draw, p.policy)).Offered(r, x + 1)
  }

  /** What a party takes from its peer's message `x`, if anything. */
  function Accepted(v: Side, r: Role, x: nat, draw: KeyId): Option<Bytes>
    requires x < |v.Log(r.Peer())| && (v.Party(r).recv.Some? ==> v.Party(r).peer.Some?)
  {
    if !v.Log(r.Peer())[x].Made() then None
    else
      var result := v.Party(r).Decrypt(v.Log(r.Peer())[x].out.value, draw).result;
      if result.Ok? then Some(result.value) else None
  }

  /** The client sends what is sent in memory, and accepts what is accepted in memory, with the same plaintext. */
  ghost predicate KeepsUp(p: Pair, ev: Event)
    requires Loads(p.m) && Loads(p.c) && Enabled(p, ev)
  {
    match ev
    case Encrypt(r, plaintext, draw) =>
      p.m.Party(r).Encrypt(plaintext, draw).result.Ok? ==> p.c.Party(r).Encrypt(plaintext, draw).result.Ok?
    case Deliver(r, x, draw) =>
      Accepted(p.m, r, x, draw).Some? ==> Accepted(p.c, r, x, draw) == Accepted(p.m, r, x, draw)
  }

  // ---------- The exceptions, read off counters and headers before the event ----------

  /**
   The packet announces a new key in memory and the current one at the client; in memory both its
   gaps are within the limit, one by one, but not together.
   */
  ghost predicate Shortcut(p: Pair, ev: Event) {
    && ev.Deliver? && ev.x < |p.m.Log(ev.to.Peer())| && ev.x < |p.c.Log(ev.to.Peer())|
    && var u, v := p.m.Log(ev.to.Peer())[ev.x], p.c.Log(ev.to.Peer())[ev.x];
       && u.Made() && v.Made()
       && p.m.Party(ev.to).peer != Some(u.Head().dhPub) && p.c.Party(ev.to).peer == Some(v.Head().dhPub)
       && var h, recvNo := u.Head(), p.m.Party(ev.to).recvNo;
          && h.prevNo <= recvNo + MAX_SKIP_ELEMENTS && h.msgNo <= MAX_SKIP_ELEMENTS
          && h.prevNo + h.msgNo > recvNo + MAX_SKIP_ELEMENTS
  }

  /** The client has used up the numbers of a chain that was given up in memory. */
  ghost predicate Exhausted(p: Pair, ev: Event) {
    ev.Encrypt? && MaySend(p.m, ev.from) && p.c.Party(ev.from).sendNo >= NUMBER_LIMIT
  }

  /** Bob's bare ratchet has a sending chain in memory and none where it is reloaded: he has opened nothing yet. */
  ghost predicate Unopened(p: Pair, ev: Event) {
    ev.Encrypt? && MaySend(p.m, ev.from) && !HasChain(p.c, ev.from)
  }

  ghost predicate Exception(p: Pair, ev: Event) {
    Shortcut(p, ev) || Exhausted(p, ev) || Unopened(p, ev)
  }

  // ---------- The relation between the two sides ----------

  /** Equal but for what a reload loses and for the sending chain. */
  ghost predicate Alike(p: Ratchet, q: Ratchet) {
    q == p.(prevSendNo := q.prevSendNo, buffer := q.buffer, send := q.send, sendNo := q.sendNo)
  }

  /** The client's ratchet is the one in memory, unless both have no numbers left on their chain. */
  ghost predicate Related(p: Ratchet, q: Ratchet) {
    && Alike(p, q) && q.prevSendNo == 0 && q.sendNo <= p.sendNo
    && (p.sendNo < NUMBER_LIMIT || q.sendNo < NUMBER_LIMIT ==> q.send == p.send && q.sendNo == p.sendNo)
  }

  function ZeroPrev(c: Ciphertext): Ciphertext {
    if c.Packet? then c.(header := c.header.(prevNo := 0)) else c
  }

  function Zeroed(e: Sent): Sent {
    e.(out := if e.out.Some? then Some(ZeroPrev(e.out.value)) else None)
  }

  ghost predicate SameLog(a: seq<Sent>, b: seq<Sent>) {
    |a| == |b| && forall x :: 0 <= x < |a| ==> b[x] == Zeroed(a[x])
  }

  /** The two sides run in lock step. */
  ghost predicate Lock(m: Side, c: Side) {
    && m.s == c.s
    && m.aliceAt == c.aliceAt && m.bobAt == c.bobAt
    && Related(m.alice, c.alice) && Related(m.bob, c.bob)
    && SameLog(m.aliceLog, c.aliceLog) && SameLog(m.bobLog, c.bobLog)
  }

  /** From a position on there is one chain only, with numbers above a limit. */
  ghost predicate Beyond(log: seq<Sent>, next: nat, chain: int, limit: nat) {
    forall x :: next <= x < |log| ==> log[x].chain == chain && (log[x].Made() ==> log[x].Head().msgNo > limit)
  }

  /**
   In memory `b` has overstepped: it sends on a new chain, and can read nothing that its peer
   sends on the present one.  The client has not stored that step and goes on numbering.
   */
  ghost predicate Deaf(p: Pair, b: Role) {
    var a, m, c := b.Peer(), p.m, p.c;
    && p.policy == OnSuccess
    && m.s.Valid() && c.s.Valid() && |m.s.keys| == |c.s.keys| + 1
    && Epoch(m.s, b) == |m.s.keys| - 1
    && m.Party(b).recvNo == 0
    && (m.Party(b).prevSendNo < NUMBER_LIMIT ==> m.Party(b).prevSendNo == Count(m.Log(b), |m.s.keys| - 3))
    && (c.Party(b).sendNo < NUMBER_LIMIT ==> c.Party(b).sendNo == m.Party(b).prevSendNo + m.Party(b).sendNo)
    && m.Party(a).sendNo > MAX_SKIP_ELEMENTS && c.Party(a).sendNo > MAX_SKIP_ELEMENTS
    && Beyond(m.Log(a), p.Next(b), |m.s.keys| - 2, MAX_SKIP_ELEMENTS)
    && Beyond(c.Log(a), p.Next(b), |m.s.keys| - 2, MAX_SKIP_ELEMENTS)
    && m.At(a) == c.At(a) && m.Party(a).recvNo == c.Party(a).recvNo
    && |m.Log(b)| == |c.Log(b)| && (forall x :: 0 <= x < |m.Log(b)| && c.Log(b)[x].Made() ==> m.Log(b)[x].Made())
  }

  /** A client that stores every outcome is never behind on numbers. */
  ghost predicate Frugal(p: Pair) {
    p.policy == Always ==> forall r: Role :: p.c.Party(r).sendNo <= p.m.Party(r).sendNo
  }

  /** In memory `b` can read neither live chain of its peer, which reads no further than the client, or nothing. */
  ghost predicate Stuck(p: Pair, b: Role) {
    var a, m, c := b.Peer(), p.m, p.c;
    && m.s.Valid() && |m.s.keys| >= 3 && |c.s.keys| >= 3 && Frugal(p)
    && Epoch(m.s, b) == |m.s.keys| - 2
    && m.Party(a).prevSendNo > m.Party(b).recvNo + MAX_SKIP_ELEMENTS
    && (forall x :: p.Next(b) <= x < |m.Log(a)| && m.Log(a)[x].Made() ==>
          m.Log(a)[x].chain == |m.s.keys| - 1 || m.Log(a)[x].Head().msgNo > m.Party(b).recvNo + MAX_SKIP_ELEMENTS)
    && (|| m.At(a) <= c.At(a)
        || (&& Beyond(m.Log(b), p.Next(a), |m.s.keys| - 2, m.Party(a).recvNo + MAX_SKIP_ELEMENTS)
            && m.Party(b).sendNo > m.Party(a).recvNo + MAX_SKIP_ELEMENTS))
  }

  /** In memory `b` cannot announce the length of its last chain and is never heard again. */
  ghost predicate Mute(p: Pair, b: Role) {
    var m, c := p.m, p.c;
    && m.s.Valid() && |m.s.keys| >= 3 && |c.s.keys| >= 3 && Frugal(p)
    && Epoch(m.s, b) == |m.s.keys| - 1
    && m.Party(b).prevSendNo >= NUMBER_LIMIT
    && m.aliceAt <= c.aliceAt && m.bobAt <= c.bobAt
  }

  /** What holds of both sides in every case. */
  ghost predicate Common(p: Pair, r: Role) {
    && |p.m.Log(r)| == |p.c.Log(r)|
    && (forall x :: 0 <= x < |p.m.Log(r)| ==>
          p.c.Log(r)[x].plaintext == p.m.Log(r)[x].plaintext && (p.m.Log(r)[x].Made() ==> p.c.Log(r)[x].Made()))
    && (forall x :: 0 <= x < |p.c.Log(r)| && p.c.Log(r)[x].Made() ==> p.c.Log(r)[x].Head().prevNo == 0)
    && Reloaded(p.c.Party(r)) == p.c.Party(r)
    && p.m.At(r) <= p.Next(r) && p.c.At(r) <= p.Next(r)
  }

  /** Lock step, or one of the three ways in which it ends. */
  ghost predicate Mode(p: Pair) {
    || Lock(p.m, p.c)
    || (exists b: Role :: Deaf(p, b))
    || (exists b: Role :: Stuck(p, b))
    || (exists b: Role :: Mute(p, b))
  }

  ghost predicate PairInv(p: Pair) {
    && p.policy != InMemory
    && SideInv(p.m) && SideInv(p.c)
    && Common(p, Alice) && Common(p, Bob)
    && Mode(p)
  }

  lemma {:induction false} PairLoads(p: Pair)
    requires PairInv(p)
    ensures Loads(p.m) && Loads(p.c) && Common(p, Alice) && Common(p, Bob)
    ensures p.c.alice.prevSendNo == 0 && p.c.bob.prevSendNo == 0
  {
    hide SideInv, Mode, SenderOk, CursorOk;
    InvOf(p.m, Alice);
    InvOf(p.m, Bob);
    InvOf(p.c, Alice);
    InvOf(p.c, Bob);
  }

  // ---------- Related ratchets do the same ----------

  lemma {:induction false} AlikeSkip(p: Ratchet, q: Ratchet, n: nat)
    requires p.Valid() && q.Valid() && Alike(p, q)
    ensures var u, v := p.Skip(n), q.Skip(n);
            && u.result == v.result && Alike(u.state, v.state) && u.state.Valid() && v.state.Valid()
            && u.state.send == p.send && u.state.sendNo == p.sendNo
            && v.state.send == q.send && v.state.sendNo == q.sendNo && v.state.prevSendNo == q.prevSendNo
  {
    SkipValid(p, n);
    SkipValid(q, n);
    if p.recv.Some? && p.recvNo <= n {
      SkipToIs(p, n);
      SkipToIs(q, n);
    }
  }

  lemma {:induction false} AlikeReceive(p: Ratchet, q: Ratchet, h: Header, g: Header, body: Body)
    requires p.Valid() && q.Valid() && Alike(p, q)
    requires h.dhPub == g.dhPub && h.msgNo == g.msgNo && p.recvNo <= h.msgNo
    ensures var u, v := p.Receive(h, body), q.Receive(g, body);
            && u.result == v.result && Alike(u.state, v.state) && v.state.prevSendNo == q.prevSendNo
            && u.state.send == p.send && u.state.sendNo == p.sendNo
            && v.state.send == q.send && v.state.sendNo == q.sendNo
  {
    hide Ratchet.SkipTo;
    AlikeSkip(p, q, h.msgNo);
  }

  /** Following a next chain, with different lengths announced for the one before, both within the limit. */
  lemma {:induction false} AlikeRekey(p: Ratchet, q: Ratchet, h: Header, g: Header, k: KeyId)
    requires p.Valid() && q.Valid() && Alike(p, q) && h.dhPub == g.dhPub
    requires h.prevNo <= p.recvNo + MAX_SKIP_ELEMENTS && g.prevNo <= p.recvNo + MAX_SKIP_ELEMENTS
    ensures var u, v := p.Rekey(h, k), q.Rekey(g, k);
            && u.result == v.result && Alike(u.state, v.state) && u.state.Valid() && v.state.Valid()
            && u.state.recvNo == 0 && v.state.send == u.state.send && v.state.sendNo == u.state.sendNo == 0
  {
    hide Ratchet.SkipTo;
    SkipValid(p, h.prevNo);
    SkipValid(q, g.prevNo);
  }

  /** In order, and if the announced length is within the limit, related ratchets open the same messages. */
  lemma {:induction false} RelatedDecrypt(p: Ratchet, q: Ratchet, c: Ciphertext, k: KeyId)
    requires p.Valid() && q.Valid() && Related(p, q) && c.Packet?
    requires p.peer == Some(c.header.dhPub) ==> p.recvNo <= c.header.msgNo
    requires p.peer != Some(c.header.dhPub) ==> c.header.prevNo <= p.recvNo + MAX_SKIP_ELEMENTS
    ensures var u, v := p.Decrypt(c, k), q.Decrypt(ZeroPrev(c), k);
            u.result == v.result && Related(u.state, Reloaded(v.state)) && v.state.dhr == u.state.dhr
  {
    hide Ratchet.Rekey, Ratchet.Receive;
    var h, g := c.header, ZeroPrev(c).header;
    if p.peer == Some(h.dhPub) {
      AlikeReceive(p, q, h, g, c.body);
    } else {
      AlikeRekey(p, q, h, g, k);
      var u, v := p.Rekey(h, k), q.Rekey(g, k);
      if u.result.Ok? {
        AlikeReceive(u.state, v.state, h, g, c.body);
      }
    }
  }

  // ---------- Sending ----------

  lemma {:induction false} SameLogSends(a: seq<Sent>, b: seq<Sent>, e: Sent)
    requires SameLog(a, b)
    ensures SameLog(a + [e], b + [Zeroed(e)])
  {
  }

  /** In lock step the client does what the ratchet in memory does, unless the latter cannot announce a length. */
  lemma {:induction false} RelatedSpeaks(v: Side, w: Side, r: Role, plaintext: Bytes, draw: KeyId, policy: Policy)
    requires SideInv(v) && SideInv(w) && w.s == v.s && HasChain(v, r) && policy != InMemory
    requires Related(v.Party(r), w.Party(r))
    requires v.Party(r).prevSendNo >= NUMBER_LIMIT ==> v.Party(r).sendNo >= NUMBER_LIMIT
    ensures Related(Speaker(v, r, plaintext, draw, InMemory), Speaker(w, r, plaintext, draw, policy))
    ensures EntryOf(w, r, plaintext, draw) == Zeroed(EntryOf(v, r, plaintext, draw))
  {
    hide CacheSound, LogOk, CursorOk, SideInv, Root, Schedule.Message, Schedule.Chain, Reloaded, Count;
    InvOf(v, r);
    InvOf(w, r);
    ReloadIsExactIff(w.Party(r).Encrypt(plaintext, draw).state);
  }

  /** In lock step the client can send whenever the ratchet in memory can. */
  lemma {:induction false} LockedMaySend(p: Pair, r: Role)
    requires Lock(p.m, p.c) && MaySend(p.m, r)
    ensures MaySend(p.c, r)
  {
  }

  lemma {:induction false} EncryptBoth(p: Pair, r: Role, plaintext: Bytes, draw: KeyId)
    requires PairInv(p) && Loads(p.m) && Loads(p.c) && Enabled(p, Encrypt(r, plaintext, draw))
    requires HasChain(p.m, r) && HasChain(p.c, r)
    ensures var q := After(p, Encrypt(r, plaintext, draw));
            && SideInv(q.m) && SideInv(q.c) && q.policy == p.policy
            && Grew(p.m, q.m, r, InMemory) && Grew(p.c, q.c, r, p.policy)
            && q.aliceNext == p.aliceNext && q.bobNext == p.bobNext
            && (KeepsUp(p, Encrypt(r, plaintext, draw)) <==> !Exception(p, Encrypt(r, plaintext, draw)))
            && (!Exception(p, Encrypt(r, plaintext, draw)) ==> Common(q, Alice) && Common(q, Bob))
  {
    hide InSync, SideInv, Ratchet.Encrypt, Encrypted, Mode, Speaker, EntryOf, Common, Loads;
    PairLoads(p);
    ChainAfter(p.m, r, plaintext, draw);
    EncryptKeeps(p.m, r, plaintext, draw, InMemory);
    EncryptKeeps(p.c, r, plaintext, draw, p.policy);
    if !Exception(p, Encrypt(r, plaintext, draw)) {
      EncryptCommon(p, r, plaintext, draw);
    }
  }

  /** Two logs that grow by one entry for the same plaintext stay comparable. */
  lemma {:induction false} CommonSends(p: Pair, q: Pair, r: Role)
    requires BothGrew(p, q, r) && Common(p, r) && Common(p, r.Peer())
    requires MaySend(p.m, r) ==> MaySend(p.c, r)
    requires q.c.Log(r)[|p.c.Log(r)|].plaintext == q.m.Log(r)[|p.m.Log(r)|].plaintext
    requires Reloaded(q.c.Party(r)) == q.c.Party(r)
    ensures Common(q, Alice) && Common(q, Bob)
  {
    hide Reloaded, MaySend, HasChain;
    var m, c := p.m.Log(r), p.c.Log(r);
    forall x | 0 <= x < |m| ensures q.m.Log(r)[x] == m[x] && q.c.Log(r)[x] == c[x] {
      assert q.m.Log(r)[..|m|][x] == m[x] && q.c.Log(r)[..|c|][x] == c[x];
    }
    assert Common(q, r) && Common(q, r.Peer());
  }

  lemma {:induction false} EncryptCommon(p: Pair, r: Role, plaintext: Bytes, draw: KeyId)
    requires PairInv(p) && Loads(p.m) && Loads(p.c) && Enabled(p, Encrypt(r, plaintext, draw))
    requires HasChain(p.m, r) && HasChain(p.c, r) && !Exception(p, Encrypt(r, plaintext, draw))
    ensures var q := After(p, Encrypt(r, plaintext, draw)); Common(q, Alice) && Common(q, Bob)
  {
    hide SideInv, Ratchet.Encrypt, Encrypted, Mode, EntryOf, Reloaded, Loads, Shortcut, Common;
    PairLoads(p);
    ChainAfter(p.m, r, plaintext, draw);
    EncryptKeeps(p.m, r, plaintext, draw, InMemory);
    EncryptKeeps(p.c, r, plaintext, draw, p.policy);
    ReloadIsExactIff(p.c.Party(r).Encrypt(plaintext, draw).state);
    CommonIsReloaded(p, r);
    CommonSends(p, After(p, Encrypt(r, plaintext, draw)), r);
  }

  lemma {:induction false} CommonIsReloaded(p: Pair, r: Role)
    requires Common(p, r)
    ensures Reloaded(p.c.Party(r)) == p.c.Party(r)
  {
  }

  lemma {:induction false} EncryptLocked(p: Pair, r: Role, plaintext: Bytes, draw: KeyId)
    requires PairInv(p) && Lock(p.m, p.c) && Loads(p.m) && Loads(p.c) && Enabled(p, Encrypt(r, plaintext, draw))
    requires HasChain(p.m, r)
    ensures var q := After(p, Encrypt(r, plaintext, draw)); Lock(q.m, q.c) || Mute(q, r)
    ensures var q := After(p, Encrypt(r, plaintext, draw));
            p.m.Party(r).prevSendNo < NUMBER_LIMIT ==> Lock(q.m, q.c)
  {
    hide SideInv, After, Mode, Common, Related, SameLog, Grew;
    var q := After(p, Encrypt(r, plaintext, draw));
    EncryptBoth(p, r, plaintext, draw);
    PairLoads(p);
    if p.m.Party(r).prevSendNo >= NUMBER_LIMIT && p.m.Party(r).sendNo < NUMBER_LIMIT {
      BecomesMute(p, q, r);
    } else {
      LockGoesOn(p, r, plaintext, draw);
    }
  }

  lemma {:induction false} LockGoesOn(p: Pair, r: Role, plaintext: Bytes, draw: KeyId)
    requires PairInv(p) && Lock(p.m, p.c) && Loads(p.m) && Loads(p.c) && Enabled(p, Encrypt(r, plaintext, draw))
    requires HasChain(p.m, r) && (p.m.Party(r).prevSendNo >= NUMBER_LIMIT ==> p.m.Party(r).sendNo >= NUMBER_LIMIT)
    ensures var q := After(p, Encrypt(r, plaintext, draw)); Lock(q.m, q.c)
  {
    hide SideInv, Ratchet.Encrypt, Encrypted, Mode, Speaker, EntryOf, SameLog, Common, Loads, Related, Zeroed;
    PairLoads(p);
    ChainAfter(p.m, r, plaintext, draw);
    EncryptKeeps(p.m, r, plaintext, draw, InMemory);
    EncryptKeeps(p.c, r, plaintext, draw, p.policy);
    RelatedSpeaks(p.m, p.c, r, plaintext, draw, p.policy);
    SameLogSends(p.m.Log(r), p.c.Log(r), EntryOf(p.m, r, plaintext, draw));
  }

  lemma {:induction false} BecomesMute(p: Pair, q: Pair, r: Role)
    requires Lock(p.m, p.c) && SideInv(p.m) && BothGrew(p, q, r)
    requires p.m.Party(r).prevSendNo >= NUMBER_LIMIT
    ensures Mute(q, r)
  {
    hide SideInv, SameLog, Alike, LogOk, InSync, CursorOk;
    InvOf(p.m, r);
    LockFrugal(p);
    FrugalSends(p, q, r);
    assert q.m.At(r) == p.m.At(r) && q.m.At(r.Peer()) == p.m.At(r.Peer());
    assert q.c.At(r) == p.c.At(r) && q.c.At(r.Peer()) == p.c.At(r.Peer());
  }

  lemma {:induction false} LockFrugal(p: Pair)
    requires Lock(p.m, p.c)
    ensures Frugal(p)
  {
    hide SameLog, Alike;
  }

  /** A chain that only the ratchet in memory has is fresh. */
  lemma {:induction false} ChainMissing(p: Pair, r: Role)
    requires PairInv(p) && HasChain(p.m, r) != HasChain(p.c, r)
    ensures MaySend(p.m, r) && !HasChain(p.c, r)
  {
    hide SideInv, Common, InSync;
    if !HasChain(p.c, r) {
      NoChainYet(p.c, r, [], 0);
    }
  }

  /**
   One send.  The client sends what is sent in memory if and only if the send is not an exception;
   and then the relation between the two sides holds afterwards.
   */
  lemma {:induction false} EncryptKeepsPair(p: Pair, r: Role, plaintext: Bytes, draw: KeyId)
    requires PairInv(p) && Loads(p.m) && Loads(p.c) && Enabled(p, Encrypt(r, plaintext, draw))
    ensures KeepsUp(p, Encrypt(r, plaintext, draw)) <==> !Exception(p, Encrypt(r, plaintext, draw))
    ensures !Exception(p, Encrypt(r, plaintext, draw)) ==> PairInv(After(p, Encrypt(r, plaintext, draw)))
  {
    hide SideInv, Common, Encrypted, Ratchet.Encrypt, Lock, Deaf, Stuck, Mute, Grew, Loads, Exhausted;
    var q := After(p, Encrypt(r, plaintext, draw));
    if HasChain(p.m, r) && HasChain(p.c, r) {
      EncryptBoth(p, r, plaintext, draw);
      if !Exception(p, Encrypt(r, plaintext, draw)) {
        EncryptMode(p, r, plaintext, draw);
      }
    } else if !HasChain(p.m, r) && !HasChain(p.c, r) {
      NobodySends(p, r, plaintext, draw);
    } else {
      ChainMissing(p, r);
      NoChainYet(p.c, r, plaintext, draw);
      EncryptKeeps(p.m, r, plaintext, draw, InMemory);
    }
  }

  lemma {:induction false} NobodySends(p: Pair, r: Role, plaintext: Bytes, draw: KeyId)
    requires PairInv(p) && Loads(p.m) && Loads(p.c) && Enabled(p, Encrypt(r, plaintext, draw))
    requires !HasChain(p.m, r) && !HasChain(p.c, r)
    ensures After(p, Encrypt(r, plaintext, draw)) == p
    ensures KeepsUp(p, Encrypt(r, plaintext, draw)) && !Exception(p, Encrypt(r, plaintext, draw))
  {
    hide SideInv, Ratchet.Encrypt, Mode;
    NoChainYet(p.m, r, plaintext, draw);
    NoChainYet(p.c, r, plaintext, draw);
    assert Common(p, r);
  }

  lemma {:induction false} EncryptMode(p: Pair, r: Role, plaintext: Bytes, draw: KeyId)
    requires PairInv(p) && Loads(p.m) && Loads(p.c) && Enabled(p, Encrypt(r, plaintext, draw))
    requires HasChain(p.m, r) && HasChain(p.c, r) && !Exception(p, Encrypt(r, plaintext, draw))
    ensures Mode(After(p, Encrypt(r, plaintext, draw)))
  {
    hide SideInv, Common, After, Lock, Deaf, Stuck, Mute, Grew, Exception;
    var q := After(p, Encrypt(r, plaintext, draw));
    EncryptBoth(p, r, plaintext, draw);
    PairLoads(p);
    if Lock(p.m, p.c) {
      EncryptLocked(p, r, plaintext, draw);
    } else if b: Role :| Deaf(p, b) {
      DeafSends(p, q, r, b);
    } else if b: Role :| Stuck(p, b) {
      StuckSends(p, q, r, b);
    } else {
      var b: Role :| Mute(p, b);
      MuteSends(p, q, r, b);
    }
  }

  lemma {:induction false} BeyondGrows(v: Side, w: Side, r: Role, next: nat, limit: nat, policy: Policy)
    requires |v.s.keys| >= 2 && Grew(v, w, r, policy)
    requires Beyond(v.Log(r), next, Epoch(v.s, r), limit) && v.Party(r).sendNo > limit
    ensures Beyond(w.Log(r), next, Epoch(v.s, r), limit) && w.Party(r).sendNo > limit
  {
    forall x | next <= x < |w.Log(r)|
      ensures w.Log(r)[x].chain == Epoch(v.s, r) && (w.Log(r)[x].Made() ==> w.Log(r)[x].Head().msgNo > limit)
    {
      if x < |v.Log(r)| {
        assert w.Log(r)[x] == w.Log(r)[..|v.Log(r)|][x];
      }
    }
  }

  /** What both sides make of one send. */
  ghost predicate BothGrew(p: Pair, q: Pair, r: Role) {
    && |p.m.s.keys| >= 2 && |p.c.s.keys| >= 2 && q.policy == p.policy != InMemory
    && HasChain(p.m, r) && HasChain(p.c, r) && p.c.Party(r).prevSendNo == 0
    && Grew(p.m, q.m, r, InMemory) && Grew(p.c, q.c, r, p.policy)
    && q.aliceNext == p.aliceNext && q.bobNext == p.bobNext
  }

  lemma {:induction false} DeafSends(p: Pair, q: Pair, r: Role, b: Role)
    requires Deaf(p, b) && BothGrew(p, q, r)
    ensures Deaf(q, b)
  {
    hide Beyond;
    if r == b {
      var log := p.m.Log(b);
      CountAppend(log, q.m.Log(b)[|log|], |p.m.s.keys| - 3);
      assert q.m.Log(b) == log + [q.m.Log(b)[|log|]];
      forall x | 0 <= x < |q.m.Log(b)| && q.c.Log(b)[x].Made()
        ensures q.m.Log(b)[x].Made()
      {
        if x < |log| {
          assert q.m.Log(b)[x] == q.m.Log(b)[..|log|][x] && q.c.Log(b)[x] == q.c.Log(b)[..|log|][x];
        }
      }
    } else {
      BeyondGrows(p.m, q.m, r, p.Next(b), MAX_SKIP_ELEMENTS, InMemory);
      BeyondGrows(p.c, q.c, r, p.Next(b), MAX_SKIP_ELEMENTS, p.policy);
    }
  }

  lemma {:induction false} StuckSends(p: Pair, q: Pair, r: Role, b: Role)
    requires Stuck(p, b) && BothGrew(p, q, r)
    ensures Stuck(q, b)
  {
    FrugalSends(p, q, r);
    if r == b {
      if !(p.m.At(b.Peer()) <= p.c.At(b.Peer())) {
        BeyondGrows(p.m, q.m, r, p.Next(b.Peer()), p.m.Party(b.Peer()).recvNo + MAX_SKIP_ELEMENTS, InMemory);
      }
    } else {
      forall x | q.Next(b) <= x < |q.m.Log(r)| && q.m.Log(r)[x].Made()
        ensures q.m.Log(r)[x].chain == |q.m.s.keys| - 1
                || q.m.Log(r)[x].Head().msgNo > q.m.Party(b).recvNo + MAX_SKIP_ELEMENTS
      {
        if x < |p.m.Log(r)| {
          assert q.m.Log(r)[x] == q.m.Log(r)[..|p.m.Log(r)|][x];
        }
      }
    }
  }

  lemma {:induction false} MuteSends(p: Pair, q: Pair, r: Role, b: Role)
    requires Mute(p, b) && BothGrew(p, q, r)
    ensures Mute(q, b)
  {
    FrugalSends(p, q, r);
    assert q.m.At(r) == p.m.At(r) && q.m.At(r.Peer()) == p.m.At(r.Peer());
    assert q.c.At(r) == p.c.At(r) && q.c.At(r.Peer()) == p.c.At(r.Peer());
  }

  lemma {:induction false} FrugalSends(p: Pair, q: Pair, r: Role)
    requires Frugal(p) && BothGrew(p, q, r)
    ensures Frugal(q)
  {
    if p.policy == Always {
      forall o: Role
        ensures q.c.Party(o).sendNo <= q.m.Party(o).sendNo
      {
        assert p.c.Party(o).sendNo <= p.m.Party(o).sendNo;
      }
    }
  }

  // ---------- Distances in a log ----------

  /** A message not more than 32 places past the last one accepted always fits, if it announces nothing. */
  lemma {:induction false} NearFits(v: Side, r: Role, x: nat)
    requires SideInv(v) && v.At(r) <= x < |v.Log(r.Peer())| && x - v.At(r) <= MAX_SKIP_ELEMENTS
    requires v.Log(r.Peer())[x].Made() && v.Log(r.Peer())[x].Head().prevNo == 0
    ensures |v.s.keys| >= 2 && Fits(v, r, x)
  {
    hide InSync, Running, Waiting, Listening, SideInv, LogOk, Schedule.Message;
    InvOf(v, r);
    ChainOfNext(v, r, x);
    var log, at, i := v.Log(r.Peer()), v.At(r), v.Log(r.Peer())[x].chain;
    var e: int := Epoch(v.s, r);
    CountRange(log, at, x, i);
    if i != e - 1 {
      forall y | 0 <= y < at
        ensures log[..at][y].chain != i
      {
      }
      CountAbsent(log[..at], i);
    }
  }

  /** On the present chain, numbers are distances from the cursor. */
  lemma {:induction false} DistanceOn(
    s: Schedule, a: Role, log: seq<Sent>, prevSendNo: nat, recvNo: nat, at: nat, x: nat)
    requires s.Valid() && LogOk(s, log, a.Peer(), prevSendNo) && CursorOk(recvNo, Epoch(s, a), log, at)
    requires Epoch(s, a) >= 2 && at <= x < |log| && log[x].Made() && log[x].chain == Epoch(s, a) - 1
    ensures log[x].Head().msgNo == recvNo + (x - at)
  {
    var e: int := Epoch(s, a);
    assert EntryOk(s, log, a.Peer(), prevSendNo, x);
    CountRange(log, at, x, e - 1);
  }

  /** Across the end of one chain, the distance is the unread rest of that chain and the number on the next. */
  lemma {:induction false} DistanceAcross(
    s: Schedule, a: Role, log: seq<Sent>, prevSendNo: nat, recvNo: nat, at: nat, x: nat)
    requires s.Valid() && LogOk(s, log, a.Peer(), prevSendNo) && CursorOk(recvNo, Epoch(s, a), log, at)
    requires Epoch(s, a) == |s.keys| - 2 && at <= x < |log| && log[x].Made() && log[x].chain == |s.keys| - 1
    ensures recvNo <= Count(log, |s.keys| - 3)
    ensures x - at == Count(log, |s.keys| - 3) - recvNo + log[x].Head().msgNo
  {
    var i: int := |s.keys| - 1;
    ChainBeginIs(s, log, a.Peer(), prevSendNo, x);
    var from := ChainBegin(log, x);
    forall y | at <= y < from
      ensures log[y].chain == i - 2
    {
      assert EntryOk(s, log, a.Peer(), prevSendNo, y);
    }
    assert from >= at;
    CountRange(log, at, from, i - 2);
    CountRange(log, from, |log|, i - 2);
    assert log[..|log|] == log;
    if Epoch(s, a) < 2 {
      NoChainZero(s, log, a.Peer(), prevSendNo);
      assert log[..0] == [];
    }
  }

  lemma {:induction false} NoChainZero(s: Schedule, log: seq<Sent>, r: Role, prevSendNo: nat)
    requires LogOk(s, log, r, prevSendNo)
    ensures Count(log, 0) == 0
  {
    forall x | 0 <= x < |log|
      ensures log[x].chain != 0
    {
      assert EntryOk(s, log, r, prevSendNo, x);
    }
    CountAbsent(log, 0);
  }

  /** What follows a message on the newest chain of the schedule has higher numbers. */
  lemma {:induction false} BeyondAfter(s: Schedule, log: seq<Sent>, r: Role, prevSendNo: nat, x: nat)
    requires |s.keys| >= 2 && LogOk(s, log, r, prevSendNo) && x < |log| && log[x].chain == |s.keys| - 1
    requires log[x].Made() && log[x].Head().msgNo > MAX_SKIP_ELEMENTS
    ensures Beyond(log, x + 1, |s.keys| - 1, MAX_SKIP_ELEMENTS) && Count(log, |s.keys| - 1) > MAX_SKIP_ELEMENTS
  {
    assert EntryOk(s, log, r, prevSendNo, x);
    LaterChains(s, log, r, prevSendNo, x);
    forall y | x + 1 <= y < |log| && log[y].Made()
      ensures log[y].Head().msgNo > MAX_SKIP_ELEMENTS
    {
      assert EntryOk(s, log, r, prevSendNo, y);
      CountRange(log, x, y, |s.keys| - 1);
    }
    CountRange(log, x, |log|, |s.keys| - 1);
    assert log[..|log|] == log;
  }

  /** Nothing can follow the newest chain of the schedule. */
  lemma {:induction false} LaterChains(s: Schedule, log: seq<Sent>, a: Role, prevSendNo: nat, x: nat)
    requires |s.keys| >= 2 && LogOk(s, log, a, prevSendNo) && x < |log| && log[x].chain == |s.keys| - 1
    ensures forall y :: x <= y < |log| ==> log[y].chain == |s.keys| - 1
  {
    forall y | x <= y < |log|
      ensures log[y].chain == |s.keys| - 1
    {
      assert EntryOk(s, log, a, prevSendNo, y);
    }
  }

  // ---------- Delivering ----------

  lemma {:induction false} NextMoves(p: Pair, r: Role, x: nat, k: KeyId)
    requires Loads(p.m) && Loads(p.c) && Enabled(p, Deliver(r, x, k))
    ensures var q := After(p, Deliver(r, x, k));
            && q.Next(r) == x + 1 && q.Next(r.Peer()) == p.Next(r.Peer()) && q.policy == p.policy
            && q.m == Delivered(p.m, r, x, k, InMemory) && q.c == Delivered(p.c, r, x, k, p.policy)
  {
    hide Delivered;
  }

  lemma {:induction false} PartyValid(v: Side, r: Role)
    requires SideInv(v)
    ensures v.Party(r).Valid() && InSync(v.Party(r), r, v.s)
  {
    InvOf(v, r);
  }

  lemma {:induction false} AcceptedIs(v: Side, r: Role, x: nat, k: KeyId)
    requires SideInv(v) && k !in v.s.keys && v.At(r) <= x < |v.Log(r.Peer())|
    ensures |v.s.keys| >= 2 && (v.Party(r).recv.Some? ==> v.Party(r).peer.Some?)
    ensures Accepted(v, r, x, k) == if Fits(v, r, x) then Some(v.Log(r.Peer())[x].plaintext) else None
  {
    hide InSync, SideInv, Ratchet.Decrypt, Fits;
    InvOf(v, r);
    if v.Log(r.Peer())[x].Made() {
      DecryptNext(v, r, x, k);
    } else {
      NotMadeNotFit(v, r, x);
    }
  }

  lemma {:induction false} NotMadeNotFit(v: Side, r: Role, x: nat)
    requires |v.s.keys| >= 2 && x < |v.Log(r.Peer())| && !v.Log(r.Peer())[x].Made()
    ensures !Fits(v, r, x) && !Oversteps(v, r, x)
  {
  }

  /** Facts about one delivery on both sides that do not depend on how the sides are related. */
  ghost predicate BothMove(p: Pair, r: Role, x: nat, k: KeyId)
    requires Loads(p.m) && Loads(p.c) && Enabled(p, Deliver(r, x, k))
  {
    var q, a := After(p, Deliver(r, x, k)), r.Peer();
    && SideInv(p.m) && SideInv(p.c) && SideInv(q.m) && SideInv(q.c)
    && Common(p, Alice) && Common(p, Bob) && Common(q, Alice) && Common(q, Bob)
    && q.Next(r) == x + 1 && q.Next(a) == p.Next(a) && q.policy == p.policy != InMemory
    && Moved(p.m, q.m, r, x, InMemory) && Moved(p.c, q.c, r, x, p.policy)
    && (KeepsUp(p, Deliver(r, x, k)) <==> (Fits(p.m, r, x) ==> Fits(p.c, r, x)))
  }

  lemma {:induction false} DeliverBoth(p: Pair, r: Role, x: nat, k: KeyId)
    requires PairInv(p) && Loads(p.m) && Loads(p.c) && Enabled(p, Deliver(r, x, k))
    ensures BothMove(p, r, x, k)
  {
    hide InSync, SideInv, Accepted, Delivered, Mode, Fits, Oversteps, Reloaded, After;
    var q := After(p, Deliver(r, x, k));
    assert Common(p, r) && Common(p, r.Peer());
    NextMoves(p, r, x, k);
    DeliverKeeps(p.m, r, x, k, InMemory);
    DeliverKeeps(p.c, r, x, k, p.policy);
    AcceptedIs(p.m, r, x, k);
    AcceptedIs(p.c, r, x, k);
    assert Common(q, r) && Common(q, r.Peer());
  }

  /**
   One delivery.  The client accepts what the ratchet in memory accepts if and only if the
   delivery is not a shortcut; and then the relation between the two sides holds afterwards.
   */
  lemma {:induction false} DeliverKeepsPair(p: Pair, r: Role, x: nat, k: KeyId)
    requires PairInv(p) && Loads(p.m) && Loads(p.c) && Enabled(p, Deliver(r, x, k))
    ensures KeepsUp(p, Deliver(r, x, k)) <==> !Shortcut(p, Deliver(r, x, k))
    ensures !Shortcut(p, Deliver(r, x, k)) ==> PairInv(After(p, Deliver(r, x, k)))
    ensures p.policy == Always ==> !Shortcut(p, Deliver(r, x, k))
  {
    hide Lock, Deaf, Stuck, Mute, SideInv, Common, Delivered, Shortcut, KeepsUp, Fits, Oversteps, Moved, After;
    DeliverBoth(p, r, x, k);
    if Lock(p.m, p.c) {
      DeliverLocked(p, r, x, k);
    } else if b: Role :| Deaf(p, b) {
      DeafStores(p, b);
      if r == b {
        DeliverToDeaf(p, x, k, b);
      } else {
        DeliverFromDeaf(p, x, k, b);
      }
    } else if b: Role :| Stuck(p, b) {
      DeliverStuck(p, r, x, k, b);
    } else {
      var b: Role :| Mute(p, b);
      DeliverMute(p, r, x, k, b);
    }
  }

  lemma {:induction false} DeafStores(p: Pair, b: Role)
    requires Deaf(p, b)
    ensures p.policy == OnSuccess
  {
  }

  // ---------- Delivering in lock step ----------

  /** In lock step both receivers see the message at the same place of the same schedule. */
  lemma {:induction false} ChainsLocked(p: Pair, r: Role, x: nat)
    requires Lock(p.m, p.c) && x < |p.m.Log(r.Peer())|
    ensures x < |p.c.Log(r.Peer())| && p.c.s == p.m.s
    ensures var a, b := p.m.Log(r.Peer())[x], p.c.Log(r.Peer())[x];
            && b == Zeroed(a) && (a.Made() <==> b.Made())
            && (a.Made() ==> b.Head() == a.Head().(prevNo := 0))
            && p.c.Party(r).recvNo == p.m.Party(r).recvNo && p.c.Party(r).peer == p.m.Party(r).peer
            && p.m.At(r) == p.c.At(r) && p.m.At(r.Peer()) == p.c.At(r.Peer())
  {
  }

  lemma {:induction false} DeliverLocked(p: Pair, r: Role, x: nat, k: KeyId)
    requires PairInv(p) && Lock(p.m, p.c) && Loads(p.m) && Loads(p.c) && Enabled(p, Deliver(r, x, k))
    requires BothMove(p, r, x, k)
    ensures KeepsUp(p, Deliver(r, x, k)) && !Shortcut(p, Deliver(r, x, k)) && Mode(After(p, Deliver(r, x, k)))
  {
    hide InSync, SideInv, Common, Delivered, CursorOk, LogOk, KeepsUp, Stuck, Deaf, Mute, SameLog, After, Related;
    ChainsLocked(p, r, x);
    if !p.m.Log(r.Peer())[x].Made() {
      NotMadeNotFit(p.m, r, x);
      NotMadeNotFit(p.c, r, x);
    } else {
      var h := p.m.Log(r.Peer())[x].Head();
      var next := p.m.Log(r.Peer())[x].chain != Epoch(p.m.s, r) - 1;
      if next && h.prevNo > p.m.Party(r).recvNo + MAX_SKIP_ELEMENTS {
        BecomesStuck(p, r, x, k);
      } else if Oversteps(p.m, r, x) && p.policy == OnSuccess {
        BecomesDeaf(p, r, x, k);
      } else {
        StaysLocked(p, r, x, k);
      }
    }
  }

  /** Both sides do the same. */
  lemma {:induction false} StaysLocked(p: Pair, r: Role, x: nat, k: KeyId)
    requires PairInv(p) && Lock(p.m, p.c) && Loads(p.m) && Loads(p.c) && Enabled(p, Deliver(r, x, k))
    requires BothMove(p, r, x, k) && p.m.Log(r.Peer())[x].Made()
    requires || p.m.Log(r.Peer())[x].chain == Epoch(p.m.s, r) - 1
             || p.m.Log(r.Peer())[x].Head().prevNo <= p.m.Party(r).recvNo + MAX_SKIP_ELEMENTS
    requires Oversteps(p.m, r, x) ==> p.policy == Always
    ensures Lock(After(p, Deliver(r, x, k)).m, After(p, Deliver(r, x, k)).c)
  {
    hide InSync, SideInv, Ratchet.Decrypt, CursorOk, LogOk, Waiting, Listening, Reloaded, After, Delivered;
    hide Moved, KeepsUp, SameLog, Mode, Alike, Schedule.Message;
    var e, q := p.m.Log(r.Peer())[x], After(p, Deliver(r, x, k));
    assert Common(p, r);
    ChainsLocked(p, r, x);
    ChainOfNext(p.m, r, x);
    PartyValid(p.m, r);
    PartyValid(p.c, r);
    NextMoves(p, r, x, k);
    RelatedDecrypt(p.m.Party(r), p.c.Party(r), e.out.value, k);
    SameDelivery(p.m, p.c, r, x, k, p.policy);
  }

  /** Two deliveries with the same outcome, but for what a reload loses. */
  lemma {:induction false} SameDelivery(v: Side, w: Side, r: Role, x: nat, k: KeyId, policy: Policy)
    requires SideInv(v) && SideInv(w) && Lock(v, w) && policy != InMemory && k !in v.s.keys
    requires v.At(r) <= x < |v.Log(r.Peer())| && v.Log(r.Peer())[x].Made() && Reloaded(w.Party(r)) == w.Party(r)
    requires x < |w.Log(r.Peer())| && w.Log(r.Peer())[x] == Zeroed(v.Log(r.Peer())[x])
    requires |v.s.keys| >= 2 && (Oversteps(v, r, x) ==> policy == Always)
    requires v.Party(r).recv.Some? ==> v.Party(r).peer.Some?
    requires w.Party(r).recv.Some? ==> w.Party(r).peer.Some?
    requires var c := v.Log(r.Peer())[x].out.value;
             var a, b := v.Party(r).Decrypt(c, k), w.Party(r).Decrypt(ZeroPrev(c), k);
             a.result == b.result && Related(a.state, Reloaded(b.state)) && b.state.dhr == a.state.dhr
    ensures Lock(Delivered(v, r, x, k, InMemory), Delivered(w, r, x, k, policy))
  {
    hide InSync, SideInv, Ratchet.Decrypt, Reloaded, Related, SameLog, Fits, Delivered;
    DecryptNext(v, r, x, k);
    DeliveredIs(v, r, x, k, InMemory);
    DeliveredIs(w, r, x, k, policy);
    var c := v.Log(r.Peer())[x].out.value;
    var a, b := v.Party(r).Decrypt(c, k), w.Party(r).Decrypt(ZeroPrev(c), k);
    RelatedPubs(a.state, b.state);
    RelatedPubs'(v.Party(r), w.Party(r));
    if a.result.Err? && !Oversteps(v, r, x) && policy == Always {
      QuietFailure(v, w, r, x, k);
    }
  }

  lemma {:induction false} RelatedPubs(u: Ratchet, v: Ratchet)
    requires Related(u, Reloaded(v))
    ensures v.dhr == u.dhr && Reloaded(v).dhr == u.dhr
  {
  }

  lemma {:induction false} RelatedPubs'(u: Ratchet, v: Ratchet)
    requires Related(u, v)
    ensures v.dhr == u.dhr
  {
  }

  /** A client that stores every outcome stores a failure that changed nothing as it was. */
  lemma {:induction false} QuietFailure(v: Side, w: Side, r: Role, x: nat, k: KeyId)
    requires Lock(v, w) && x < |v.Log(r.Peer())| && v.Log(r.Peer())[x].Made() && Reloaded(w.Party(r)) == w.Party(r)
    requires x < |w.Log(r.Peer())| && w.Log(r.Peer())[x] == Zeroed(v.Log(r.Peer())[x])
    requires v.Party(r).recv.Some? ==> v.Party(r).peer.Some?
    requires w.Party(r).recv.Some? ==> w.Party(r).peer.Some?
    requires var c := v.Log(r.Peer())[x].out.value;
             var a, b := v.Party(r).Decrypt(c, k), w.Party(r).Decrypt(ZeroPrev(c), k);
             && a.result.Err? && a.result == b.result && a.state == v.Party(r)
             && Related(a.state, Reloaded(b.state)) && b.state.dhr == a.state.dhr
    ensures Lock(Delivered(v, r, x, k, InMemory), Delivered(w, r, x, k, Always))
  {
    hide Ratchet.Decrypt, Related, SameLog, Reloaded;
    RelatedPubs'(v.Party(r), w.Party(r));
    RelatedPubs(v.Party(r), w.Party(r).Decrypt(ZeroPrev(v.Log(r.Peer())[x].out.value), k).state);
  }

  /** The ratchet in memory refuses the next chain because of its announced length, for good. */
  lemma {:induction false} BecomesStuck(p: Pair, r: Role, x: nat, k: KeyId)
    requires Lock(p.m, p.c) && Loads(p.m) && Loads(p.c) && Enabled(p, Deliver(r, x, k)) && BothMove(p, r, x, k)
    requires p.m.Log(r.Peer())[x].Made() && p.m.Log(r.Peer())[x].chain != Epoch(p.m.s, r) - 1
    requires p.m.Log(r.Peer())[x].Head().prevNo > p.m.Party(r).recvNo + MAX_SKIP_ELEMENTS
    ensures Stuck(After(p, Deliver(r, x, k)), r) && !Fits(p.m, r, x)
  {
    hide InSync, Running, CursorOk, Waiting, Listening, SideInv, Schedule.Message;
    hide LogOk, KeepsUp, SameLog, After, Alike;
    var m, a, log := p.m, r.Peer(), p.m.Log(r.Peer());
    assert Common(p, r);
    ChainOfNext(m, r, x);
    InvOf(m, a);
    LaterChains(m.s, log, a, m.Party(a).prevSendNo, x);
    LockSends(p, r);
    LockSends(p, a);
    ChainsLocked(p, r, x);
  }

  lemma {:induction false} LockSends(p: Pair, r: Role)
    requires Lock(p.m, p.c)
    ensures p.c.Party(r).sendNo <= p.m.Party(r).sendNo
    ensures p.m.Party(r).sendNo < NUMBER_LIMIT || p.c.Party(r).sendNo < NUMBER_LIMIT ==>
              p.c.Party(r).sendNo == p.m.Party(r).sendNo
    ensures p.c.Party(r).recvNo == p.m.Party(r).recvNo
  {
  }

  /** The ratchet in memory follows the next chain in vain; the client stays where it is. */
  lemma {:induction false} BecomesDeaf(p: Pair, r: Role, x: nat, k: KeyId)
    requires Lock(p.m, p.c) && Loads(p.m) && Loads(p.c) && Enabled(p, Deliver(r, x, k)) && BothMove(p, r, x, k)
    requires Oversteps(p.m, r, x) && p.policy == OnSuccess
    ensures Deaf(After(p, Deliver(r, x, k)), r) && !Fits(p.m, r, x)
  {
    hide InSync, CursorOk, SideInv, LogOk, KeepsUp, Beyond, After, Common, Lock, Count;
    var m, c, a, log := p.m, p.c, r.Peer(), p.m.Log(r.Peer());
    ChainsLocked(p, r, x);
    InvOf(m, a);
    InvOf(m, r);
    InvOf(c, a);
    LockSends(p, r);
    LockSends(p, a);
    BeyondAfter(m.s, log, a, m.Party(a).prevSendNo, x);
    BeyondAfter(c.s, c.Log(a), a, c.Party(a).prevSendNo, x);
    SameMade(p, r);
  }

  lemma {:induction false} SameMade(p: Pair, b: Role)
    requires Lock(p.m, p.c)
    ensures p.m.s == p.c.s && |p.m.Log(b)| == |p.c.Log(b)|
    ensures forall x :: 0 <= x < |p.m.Log(b)| && p.c.Log(b)[x].Made() ==> p.m.Log(b)[x].Made()
  {
    hide Related;
  }

  // ---------- Delivering after an overstep ----------

  /** The party that overstepped accepts nothing, on either side. */
  lemma {:induction false} DeliverToDeaf(p: Pair, x: nat, k: KeyId, b: Role)
    requires Deaf(p, b) && Loads(p.m) && Loads(p.c) && Enabled(p, Deliver(b, x, k)) && BothMove(p, b, x, k)
    ensures KeepsUp(p, Deliver(b, x, k)) && !Shortcut(p, Deliver(b, x, k)) && Deaf(After(p, Deliver(b, x, k)), b)
  {
    hide InSync, Running, CursorOk, Waiting, Listening, SideInv, Schedule.Message, LogOk, KeepsUp, After, EntryOk;
    assert Common(p, b);
    if p.m.Log(b.Peer())[x].Made() {
      ChainOfNext(p.m, b, x);
    }
  }

  /** What the peer's client makes of a message of it: a number on the present chain. */
  lemma {:induction false} FromDeafClient(p: Pair, x: nat, b: Role)
    requires Deaf(p, b) && SideInv(p.c) && p.c.At(b.Peer()) <= x < |p.c.Log(b)| && p.c.Log(b)[x].Made()
    ensures var a, c := b.Peer(), p.c;
            && c.Log(b)[x].chain == Epoch(c.s, a) - 1 && |c.s.keys| >= 3
            && c.Party(a).peer == Some(c.Log(b)[x].Head().dhPub)
            && c.Log(b)[x].Head().msgNo == c.Party(a).recvNo + (x - c.At(a))
  {
    hide InSync, Running, CursorOk, Waiting, Listening, SideInv, Schedule.Message, LogOk, Beyond, Count;
    var a, c := b.Peer(), p.c;
    InvOf(c, a);
    InvOf(c, b);
    ChainOfNext(c, a, x);
    DistanceOn(c.s, a, c.Log(b), c.Party(b).prevSendNo, c.Party(a).recvNo, c.At(a), x);
  }

  /** What the peer makes of it in memory: a number on the present chain, or a new chain behind the rest of it. */
  lemma {:induction false} FromDeafMemory(p: Pair, x: nat, b: Role)
    requires Deaf(p, b) && SideInv(p.m) && p.m.At(b.Peer()) <= x < |p.m.Log(b)| && p.m.Log(b)[x].Made()
    ensures var a, m := b.Peer(), p.m;
            var d, e, i, h := x - m.At(a), Epoch(m.s, a), m.Log(b)[x].chain, m.Log(b)[x].Head();
            && e == |m.s.keys| - 2
            && (i == e - 1 ==> m.Party(a).peer == Some(h.dhPub) && h.msgNo == m.Party(a).recvNo + d)
            && (i != e - 1 ==>
                  && i == |m.s.keys| - 1 && m.Party(a).peer != Some(h.dhPub)
                  && d == h.prevNo - m.Party(a).recvNo + h.msgNo && h.prevNo >= m.Party(a).recvNo)
  {
    hide InSync, Running, CursorOk, Waiting, Listening, SideInv, Schedule.Message, LogOk, Beyond, Count;
    var a, m := b.Peer(), p.m;
    InvOf(m, a);
    InvOf(m, b);
    ChainOfNext(m, a, x);
    if m.Log(b)[x].chain == Epoch(m.s, a) - 1 {
      DistanceOn(m.s, a, m.Log(b), m.Party(b).prevSendNo, m.Party(a).recvNo, m.At(a), x);
    } else {
      DistanceAcross(m.s, a, m.Log(b), m.Party(b).prevSendNo, m.Party(a).recvNo, m.At(a), x);
    }
  }

  lemma {:induction false} DeliverFromDeaf(p: Pair, x: nat, k: KeyId, b: Role)
    requires Deaf(p, b) && Loads(p.m) && Loads(p.c)
    requires Enabled(p, Deliver(b.Peer(), x, k)) && BothMove(p, b.Peer(), x, k)
    ensures KeepsUp(p, Deliver(b.Peer(), x, k)) <==> !Shortcut(p, Deliver(b.Peer(), x, k))
    ensures !Shortcut(p, Deliver(b.Peer(), x, k)) ==> Mode(After(p, Deliver(b.Peer(), x, k)))
  {
    hide InSync, SideInv, Schedule.Message, KeepsUp, After, Beyond, Lock, Stuck, Mute, Moved, Deaf, BothMove, Count;
    var a, m, q := b.Peer(), p.m, After(p, Deliver(b.Peer(), x, k));
    DeafFacts(p, x, k, b);
    if !m.Log(b)[x].Made() {
      NotMadeNotFit(m, a, x);
      NotMadeNotFit(p.c, a, x);
      DeafGoesOn(p, x, k, b);
    } else {
      FromDeafMemory(p, x, b);
      FromDeafClient(p, x, b);
      if Oversteps(m, a, x) {
        BothDeaf(p, x, k, b);
      } else if m.Log(b)[x].chain != Epoch(m.s, a) - 1 && Fits(m, a, x) {
        if Fits(p.c, a, x) {
          PeerFollows(p, x, k, b);
        }
      } else {
        DeafGoesOn(p, x, k, b);
      }
    }
  }

  lemma {:induction false} DeafFacts(p: Pair, x: nat, k: KeyId, b: Role)
    requires Deaf(p, b) && Loads(p.m) && Loads(p.c)
    requires Enabled(p, Deliver(b.Peer(), x, k)) && BothMove(p, b.Peer(), x, k)
    ensures SideInv(p.m) && SideInv(p.c) && p.m.At(b.Peer()) == p.c.At(b.Peer()) <= x
    ensures p.m.Log(b)[x].Made() <==> p.c.Log(b)[x].Made()
    ensures p.m.Party(b.Peer()).recvNo == p.c.Party(b.Peer()).recvNo
    ensures KeepsUp(p, Deliver(b.Peer(), x, k)) <==> (Fits(p.m, b.Peer(), x) ==> Fits(p.c, b.Peer(), x))
  {
    hide SideInv, Moved, KeepsUp, Fits, After, Beyond, Count;
    assert Common(p, b.Peer()) && Common(p, b);
  }

  /** Neither side moves on: both accept a number of the present chain, or both refuse. */
  lemma {:induction false} DeafGoesOn(p: Pair, x: nat, k: KeyId, b: Role)
    requires Deaf(p, b) && Loads(p.m) && Loads(p.c)
    requires Enabled(p, Deliver(b.Peer(), x, k)) && BothMove(p, b.Peer(), x, k)
    requires !Oversteps(p.m, b.Peer(), x) && (Fits(p.m, b.Peer(), x) <==> Fits(p.c, b.Peer(), x))
    requires Fits(p.m, b.Peer(), x) ==>
               && p.m.Log(b)[x].chain == Epoch(p.m.s, b.Peer()) - 1 && p.c.Log(b)[x].chain == Epoch(p.c.s, b.Peer()) - 1
               && p.m.Log(b)[x].Head().msgNo == p.c.Log(b)[x].Head().msgNo
    ensures Deaf(After(p, Deliver(b.Peer(), x, k)), b)
  {
    hide SideInv, KeepsUp, Fits, Oversteps, After, Beyond, Count, Common;
  }

  lemma {:induction false} PeerFollows(p: Pair, x: nat, k: KeyId, b: Role)
    requires Deaf(p, b) && Loads(p.m) && Loads(p.c)
    requires Enabled(p, Deliver(b.Peer(), x, k)) && BothMove(p, b.Peer(), x, k)
    requires p.m.Log(b)[x].chain != Epoch(p.m.s, b.Peer()) - 1 && Fits(p.m, b.Peer(), x) && Fits(p.c, b.Peer(), x)
    requires |p.c.s.keys| >= 3
    ensures Stuck(After(p, Deliver(b.Peer(), x, k)), b)
  {
    hide InSync, SideInv, KeepsUp, After, Common, Fits, Count;
  }

  /** Now the peer oversteps as well: in memory nothing is accepted any more. */
  lemma {:induction false} BothDeaf(p: Pair, x: nat, k: KeyId, b: Role)
    requires Deaf(p, b) && Loads(p.m) && Loads(p.c)
    requires Enabled(p, Deliver(b.Peer(), x, k)) && BothMove(p, b.Peer(), x, k)
    requires Oversteps(p.m, b.Peer(), x) && |p.c.s.keys| >= 3
    ensures Stuck(After(p, Deliver(b.Peer(), x, k)), b)
  {
    hide InSync, CursorOk, SideInv, LogOk, KeepsUp, After, Common, Fits, Count;
    var m := p.m;
    InvOf(m, b);
    BeyondAfter(m.s, m.Log(b), b, m.Party(b).prevSendNo, x);
  }

  // ---------- Delivering when a party is stuck or mute ----------

  lemma {:induction false} DeliverStuck(p: Pair, r: Role, x: nat, k: KeyId, b: Role)
    requires Stuck(p, b) && Loads(p.m) && Loads(p.c) && Enabled(p, Deliver(r, x, k)) && BothMove(p, r, x, k)
    ensures KeepsUp(p, Deliver(r, x, k)) && !Shortcut(p, Deliver(r, x, k)) && Stuck(After(p, Deliver(r, x, k)), b)
  {
    hide SideInv, KeepsUp, After, Stuck, Fits, Oversteps, Moved, BothMove, Shortcut;
    if r == b {
      DeliverToStuck(p, x, k, b);
    } else {
      DeliverFromStuck(p, x, k, b);
    }
  }

  lemma {:induction false} FrugalMoves(p: Pair, q: Pair, r: Role, x: nat)
    requires Frugal(p) && q.policy == p.policy && |p.m.s.keys| >= 2 && |p.c.s.keys| >= 2
    requires x < |p.m.Log(r.Peer())| && x < |p.c.Log(r.Peer())|
    requires Moved(p.m, q.m, r, x, InMemory) && Moved(p.c, q.c, r, x, p.policy)
    requires q.m.Party(r).sendNo == p.m.Party(r).sendNo
    ensures Frugal(q)
  {
    hide Fits, Oversteps;
    if p.policy == Always {
      assert p.c.Party(r).sendNo <= p.m.Party(r).sendNo && p.c.Party(r.Peer()).sendNo <= p.m.Party(r.Peer()).sendNo;
      forall o: Role
        ensures q.c.Party(o).sendNo <= q.m.Party(o).sendNo
      {
        assert o == r || o == r.Peer();
      }
    }
  }

  lemma {:induction false} DeliverToStuck(p: Pair, x: nat, k: KeyId, b: Role)
    requires Stuck(p, b) && Loads(p.m) && Loads(p.c) && Enabled(p, Deliver(b, x, k)) && BothMove(p, b, x, k)
    ensures KeepsUp(p, Deliver(b, x, k)) && !Shortcut(p, Deliver(b, x, k)) && Stuck(After(p, Deliver(b, x, k)), b)
  {
    hide InSync, CursorOk, SideInv, Schedule.Message, LogOk, KeepsUp, After, Fits, Oversteps, Beyond, Frugal;
    assert Common(p, b);
    var q := After(p, Deliver(b, x, k));
    StuckRefuses(p, x, b);
    FrugalMoves(p, q, b, x);
  }

  lemma {:induction false} DeliverFromStuck(p: Pair, x: nat, k: KeyId, b: Role)
    requires Stuck(p, b) && Loads(p.m) && Loads(p.c)
    requires Enabled(p, Deliver(b.Peer(), x, k)) && BothMove(p, b.Peer(), x, k)
    ensures KeepsUp(p, Deliver(b.Peer(), x, k)) && !Shortcut(p, Deliver(b.Peer(), x, k))
    ensures Stuck(After(p, Deliver(b.Peer(), x, k)), b)
  {
    hide InSync, CursorOk, SideInv, Schedule.Message, LogOk, KeepsUp, After, Fits, Oversteps, Frugal;
    var a, q := b.Peer(), After(p, Deliver(b.Peer(), x, k));
    assert Common(p, a) && Common(p, b);
    StuckReads(p, x, b);
    if Fits(p.m, a, x) {
      FitMade(p.m, a, x);
      NearFits(p.c, a, x);
    }
    FrugalMoves(p, q, a, x);
  }

  lemma {:induction false} FitMade(v: Side, r: Role, x: nat)
    requires |v.s.keys| >= 2 && x < |v.Log(r.Peer())| && Fits(v, r, x)
    ensures v.Log(r.Peer())[x].Made()
  {
  }

  /** In memory, the party that is stuck accepts nothing. */
  lemma {:induction false} StuckRefuses(p: Pair, x: nat, b: Role)
    requires SideInv(p.m) && Stuck(p, b)
    requires p.m.At(b) <= p.Next(b) <= x < |p.m.Log(b.Peer())|
    ensures !Fits(p.m, b, x) && !Oversteps(p.m, b, x)
    ensures p.m.Log(b.Peer())[x].Made() ==>
              var h := p.m.Log(b.Peer())[x].Head();
              p.m.Party(b).peer == Some(h.dhPub) || h.prevNo > p.m.Party(b).recvNo + MAX_SKIP_ELEMENTS
  {
    hide InSync, Running, Waiting, Listening, SideInv, Schedule.Message, Beyond, LogOk;
    InvOf(p.m, b);
    if p.m.Log(b.Peer())[x].Made() {
      ChainOfNext(p.m, b, x);
    }
  }

  /** In memory, its peer accepts only what is near, or nothing. */
  lemma {:induction false} StuckReads(p: Pair, x: nat, b: Role)
    requires SideInv(p.m) && Stuck(p, b)
    requires p.m.At(b.Peer()) <= p.Next(b.Peer()) <= x < |p.m.Log(b)|
    ensures var a := b.Peer();
            && !Oversteps(p.m, a, x)
            && (p.m.Log(b)[x].Made() ==>
                  && p.m.Log(b)[x].chain == Epoch(p.m.s, a) - 1
                  && p.m.Party(a).peer == Some(p.m.Log(b)[x].Head().dhPub))
            && (Fits(p.m, a, x) ==> p.m.At(a) <= p.c.At(a) && x - p.m.At(a) <= MAX_SKIP_ELEMENTS)
  {
    hide InSync, Running, Waiting, Listening, LogOk, CursorOk, SideInv, Schedule.Message;
    var m, a := p.m, b.Peer();
    InvOf(m, a);
    InvOf(m, b);
    if m.Log(b)[x].Made() {
      ChainOfNext(m, a, x);
      DistanceOn(m.s, a, m.Log(b), m.Party(b).prevSendNo, m.Party(a).recvNo, m.At(a), x);
    }
  }

  lemma {:induction false} DeliverMute(p: Pair, r: Role, x: nat, k: KeyId, b: Role)
    requires Mute(p, b) && Loads(p.m) && Loads(p.c) && Enabled(p, Deliver(r, x, k)) && BothMove(p, r, x, k)
    ensures KeepsUp(p, Deliver(r, x, k)) && !Shortcut(p, Deliver(r, x, k)) && Mute(After(p, Deliver(r, x, k)), b)
  {
    hide InSync, CursorOk, SideInv, Schedule.Message, LogOk, KeepsUp, After, Fits, Oversteps, Frugal;
    var q := After(p, Deliver(r, x, k));
    assert Common(p, r) && Common(p, r.Peer());
    MuteReads(p, x, b, r);
    if Fits(p.m, r, x) {
      FitMade(p.m, r, x);
      NearFits(p.c, r, x);
    }
    FrugalMoves(p, q, r, x);
    MuteCursors(p, q, r);
  }

  lemma {:induction false} MuteCursors(p: Pair, q: Pair, r: Role)
    requires p.m.At(r) <= p.c.At(r) && p.m.At(r.Peer()) <= p.c.At(r.Peer())
    requires q.m.At(r) <= q.c.At(r) && q.m.At(r.Peer()) <= q.c.At(r.Peer())
    ensures q.m.aliceAt <= q.c.aliceAt && q.m.bobAt <= q.c.bobAt
  {
  }

  /** In memory, both parties read on their present chains only. */
  lemma {:induction false} MuteReads(p: Pair, x: nat, b: Role, r: Role)
    requires SideInv(p.m) && Mute(p, b) && p.m.At(r) <= x < |p.m.Log(r.Peer())|
    ensures !Oversteps(p.m, r, x)
    ensures p.m.Log(r.Peer())[x].Made() ==>
              && p.m.Log(r.Peer())[x].chain == Epoch(p.m.s, r) - 1
              && p.m.Party(r).peer == Some(p.m.Log(r.Peer())[x].Head().dhPub)
    ensures Fits(p.m, r, x) ==> x - p.m.At(r) <= MAX_SKIP_ELEMENTS
  {
    hide InSync, Running, Waiting, Listening, LogOk, CursorOk, SideInv, Schedule.Message, EntryOk;
    var m, a := p.m, r.Peer();
    InvOf(m, r);
    InvOf(m, a);
    if m.Log(a)[x].Made() {
      ChainOfNext(m, r, x);
      PeerKeys(m, r, x);
      DistanceOn(m.s, r, m.Log(a), m.Party(a).prevSendNo, m.Party(r).recvNo, m.At(r), x);
    }
  }

  lemma {:induction false} PeerKeys(v: Side, r: Role, x: nat)
    requires |v.s.keys| >= 2 && x < |v.Log(r.Peer())| && v.Log(r.Peer())[x].Made()
    requires EntryOk(v.s, v.Log(r.Peer()), r.Peer(), v.Party(r.Peer()).prevSendNo, x)
    ensures v.Log(r.Peer())[x].chain < |v.s.keys|
    ensures v.Log(r.Peer())[x].Head().dhPub == v.s.Pub(v.Log(r.Peer())[x].chain)
  {
  }

  // ---------- Every run ----------

  /** The events can happen one after the other. */
  ghost predicate Possible(p: Pair, evs: seq<Event>)
    decreases |evs|
  {
    |evs| == 0 || (Loads(p.m) && Loads(p.c) && Enabled(p, evs[0]) && Possible(After(p, evs[0]), evs[1..]))
  }

  /** In every step of a run, the clients send and accept what is sent and accepted in memory. */
  ghost predicate ClientsKeepUp(p: Pair, evs: seq<Event>)
    requires Possible(p, evs)
    decreases |evs|
  {
    |evs| == 0 || (KeepsUp(p, evs[0]) && ClientsKeepUp(After(p, evs[0]), evs[1..]))
  }

  ghost predicate NoException(p: Pair, evs: seq<Event>)
    requires Possible(p, evs)
    decreases |evs|
  {
    |evs| == 0 || (!Exception(p, evs[0]) && NoException(After(p, evs[0]), evs[1..]))
  }

  ghost predicate NoShortcut(p: Pair, evs: seq<Event>)
    requires Possible(p, evs)
    decreases |evs|
  {
    |evs| == 0 || (!Shortcut(p, evs[0]) && NoShortcut(After(p, evs[0]), evs[1..]))
  }

  /** Both sides of a fresh session. */
  function Start(policy: Policy, seed: Key, ad: AssociatedData, spk: KeyId, own: KeyId): Pair {
    var v := Side(CreateActive(seed, ad, Point(spk), own), CreatePassive(seed, ad, Point(spk), spk),
                  Schedule([spk, own], seed, ad), [], [], 0, 0);
    Pair(policy, v, v, 0, 0)
  }

  /**
   Save and restore as a simulation.  In a run of lossy, ordered traffic, clients that store what
   succeeded keep up with the ratchets in memory if and only if the run contains no exception.
   */
  lemma {:induction false} SimulatesIff(seed: Key, ad: AssociatedData, spk: KeyId, own: KeyId, evs: seq<Event>)
    requires spk != own && Possible(Start(OnSuccess, seed, ad, spk, own), evs)
    ensures var p := Start(OnSuccess, seed, ad, spk, own); ClientsKeepUp(p, evs) <==> NoException(p, evs)
  {
    StartPair(OnSuccess, seed, ad, spk, own);
    SimulatesFrom(Start(OnSuccess, seed, ad, spk, own), evs);
  }

  /** Clients that store the outcome of every operation, failed ones included, keep up in every run. */
  lemma {:induction false} StoringAlwaysKeepsUp(seed: Key, ad: AssociatedData, spk: KeyId, own: KeyId, evs: seq<Event>)
    requires spk != own && Possible(Start(Always, seed, ad, spk, own), evs)
    ensures ClientsKeepUp(Start(Always, seed, ad, spk, own), evs)
  {
    StartPair(Always, seed, ad, spk, own);
    KeepsUpFrom(Start(Always, seed, ad, spk, own), evs);
  }

  lemma {:induction false} SimulatesFrom(p: Pair, evs: seq<Event>)
    requires PairInv(p) && Possible(p, evs)
    ensures ClientsKeepUp(p, evs) <==> NoException(p, evs)
    decreases |evs|
  {
    hide PairInv, After, Enabled, Loads, KeepsUp, Exception;
    if |evs| > 0 {
      OneStep(p, evs[0]);
      if !Exception(p, evs[0]) {
        SimulatesFrom(After(p, evs[0]), evs[1..]);
      }
    }
  }

  lemma {:induction false} KeepsUpFrom(p: Pair, evs: seq<Event>)
    requires PairInv(p) && p.policy == Always && Possible(p, evs)
    ensures ClientsKeepUp(p, evs)
    decreases |evs|
  {
    hide PairInv, After, Enabled, Loads, KeepsUp, Exception;
    if |evs| > 0 {
      OneStep(p, evs[0]);
      NeverAnException(p, evs[0]);
      KeepsUpFrom(After(p, evs[0]), evs[1..]);
    }
  }

  lemma {:induction false} OneStep(p: Pair, ev: Event)
    requires PairInv(p) && Loads(p.m) && Loads(p.c) && Enabled(p, ev)
    ensures KeepsUp(p, ev) <==> !Exception(p, ev)
    ensures !Exception(p, ev) ==> PairInv(After(p, ev))
    ensures After(p, ev).policy == p.policy
  {
    hide PairInv, Loads, KeepsUp, Shortcut, Enabled, Encrypted, Delivered, Speaker, Ratchet.Encrypt;
    match ev
    case Encrypt(r, plaintext, draw) => EncryptKeepsPair(p, r, plaintext, draw);
    case Deliver(r, x, draw) => DeliverKeepsPair(p, r, x, draw);
  }

  lemma {:induction false} NeverAnException(p: Pair, ev: Event)
    requires PairInv(p) && p.policy == Always && Loads(p.m) && Loads(p.c) && Enabled(p, ev)
    ensures !Exception(p, ev)
  {
    hide Loads, Enabled, SideInv, Common, Lock;
    match ev
    case Deliver(r, x, draw) => DeliverKeepsPair(p, r, x, draw);
    case Encrypt(r, _, _) =>
      if MaySend(p.m, r) {
        if Lock(p.m, p.c) {
          LockedMaySend(p, r);
        }
        assert p.c.Party(r).sendNo < NUMBER_LIMIT && HasChain(p.c, r);
      }
  }

  lemma {:induction false} StartPair(policy: Policy, seed: Key, ad: AssociatedData, spk: KeyId, own: KeyId)
    requires spk != own && policy != InMemory
    ensures PairInv(Start(policy, seed, ad, spk, own))
  {
    var p := Start(policy, seed, ad, spk, own);
    assert SenderOk(p.m, Alice) && SenderOk(p.m, Bob);
    assert Lock(p.m, p.c);
  }

  // ---------- Runs that start with a handshake ----------

  /** A handshake is a message of Alice that Bob reads. */
  predicate StartsWithHandshake(evs: seq<Event>) {
    |evs| >= 2 && evs[0].Encrypt? && evs[0].from == Alice && evs[1].Deliver? && evs[1].to == Bob && evs[1].x == 0
  }

  ghost predicate NoShortcutOrExhaustion(p: Pair, evs: seq<Event>)
    requires Possible(p, evs)
    decreases |evs|
  {
    || |evs| == 0
    || (!Shortcut(p, evs[0]) && !Exhausted(p, evs[0]) && NoShortcutOrExhaustion(After(p, evs[0]), evs[1..]))
  }

  /**
   Sessions of clients start with a handshake.  From there on the clients keep up with the ratchets in
   memory if and only if no event is a shortcut and no number has run out.
   */
  lemma {:induction false} AfterHandshakeIff(seed: Key, ad: AssociatedData, spk: KeyId, own: KeyId, evs: seq<Event>)
    requires spk != own && Possible(Start(OnSuccess, seed, ad, spk, own), evs) && StartsWithHandshake(evs)
    ensures var p := Start(OnSuccess, seed, ad, spk, own); ClientsKeepUp(p, evs) <==> NoShortcutOrExhaustion(p, evs)
  {
    hide PairInv, After, Enabled, Loads, KeepsUp, Exception, Shortcut, ClientsKeepUp, NoException, Possible;
    var p := Start(OnSuccess, seed, ad, spk, own);
    StartPair(OnSuccess, seed, ad, spk, own);
    SimulatesFrom(p, evs);
    AfterHandshakeFrom(p, evs, 0);
  }

  /** Where a run stands in the handshake: before it, with Alice's message under way, or after it. */
  ghost predicate Stage(p: Pair, evs: seq<Event>, n: nat) {
    match n
    case 0 =>
      && |p.c.s.keys| == 2 && StartsWithHandshake(evs)
      && |p.c.aliceLog| == p.c.alice.sendNo == p.c.alice.prevSendNo == 0
    case 1 =>
      && |evs| >= 1 && evs[0].Deliver? && evs[0].to == Bob && evs[0].x == 0 && |p.c.s.keys| == 2
      && |p.c.aliceLog| == 1 && p.c.aliceLog[0].Made() && p.c.aliceLog[0].Head().msgNo == 0
      && p.c.aliceLog[0].Head().prevNo == 0
    case _ => |p.c.s.keys| >= 3
  }

  lemma {:induction false} AfterHandshakeFrom(p: Pair, evs: seq<Event>, n: nat)
    requires PairInv(p) && p.policy == OnSuccess && Possible(p, evs) && Stage(p, evs, n)
    ensures NoException(p, evs) <==> NoShortcutOrExhaustion(p, evs)
    decreases |evs|
  {
    hide PairInv, After, Enabled, Loads, Exhausted, Unopened, Shortcut;
    if |evs| > 0 {
      OneStep(p, evs[0]);
      StageStep(p, evs, n);
      if !Exception(p, evs[0]) {
        AfterHandshakeFrom(After(p, evs[0]), evs[1..], n + 1);
      }
    }
  }

  /** One step of such a run: Bob has a chain when he needs one. */
  lemma {:induction false} StageStep(p: Pair, evs: seq<Event>, n: nat)
    requires PairInv(p) && p.policy == OnSuccess && |evs| > 0 && Stage(p, evs, n)
    requires Loads(p.m) && Loads(p.c) && Enabled(p, evs[0])
    ensures !Unopened(p, evs[0]) && Stage(After(p, evs[0]), evs[1..], n + 1)
    ensures evs[0].Encrypt? ==> HasChain(p.m, evs[0].from) && HasChain(p.c, evs[0].from)
  {
    hide Loads, Mode, SideInv, Common, After, KeepsUp, Oversteps;
    match evs[0]
    case Encrypt(r, plaintext, draw) =>
      StageChains(p, evs, n, r);
      EncryptBoth(p, r, plaintext, draw);
    case Deliver(r, x, draw) =>
      DeliverBoth(p, r, x, draw);
  }

  lemma {:induction false} StageChains(p: Pair, evs: seq<Event>, n: nat, r: Role)
    requires PairInv(p) && Stage(p, evs, n) && |evs| > 0 && evs[0].Encrypt? && evs[0].from == r
    ensures HasChain(p.m, r) && HasChain(p.c, r)
  {
    if HasChain(p.m, r) != HasChain(p.c, r) {
      ChainMissing(p, r);
    }
  }

  // ---------- Runs with few sends ----------

  /** How often a party tries to send. */
  function Sends(evs: seq<Event>, r: Role): nat {
    if |evs| == 0 then 0
    else (if evs[0].Encrypt? && evs[0].from == r then 1 else 0) + Sends(evs[1..], r)
  }

  /** The client's numbers suffice for all sends to come. */
  ghost predicate Enough(p: Pair, evs: seq<Event>) {
    forall r: Role :: p.c.Party(r).sendNo + Sends(evs, r) <= NUMBER_LIMIT
  }

  /** After a handshake, and with at most 65536 sends of each party, shortcuts are the only exception. */
  lemma {:induction false} FewSendsIff(seed: Key, ad: AssociatedData, spk: KeyId, own: KeyId, evs: seq<Event>)
    requires spk != own && Possible(Start(OnSuccess, seed, ad, spk, own), evs)
    requires StartsWithHandshake(evs) && forall r: Role :: Sends(evs, r) <= NUMBER_LIMIT
    ensures var p := Start(OnSuccess, seed, ad, spk, own); ClientsKeepUp(p, evs) <==> NoShortcut(p, evs)
  {
    hide PairInv, After, Enabled, Loads, KeepsUp, Shortcut, ClientsKeepUp, NoShortcutOrExhaustion, NoShortcut, Possible;
    var p := Start(OnSuccess, seed, ad, spk, own);
    StartPair(OnSuccess, seed, ad, spk, own);
    AfterHandshakeIff(seed, ad, spk, own, evs);
    assert forall r: Role :: p.c.Party(r).sendNo == 0;
    FewSendsFrom(p, evs, 0);
  }

  lemma {:induction false} FewSendsFrom(p: Pair, evs: seq<Event>, n: nat)
    requires PairInv(p) && p.policy == OnSuccess && Possible(p, evs) && Stage(p, evs, n) && Enough(p, evs)
    ensures NoShortcutOrExhaustion(p, evs) <==> NoShortcut(p, evs)
    decreases |evs|
  {
    hide PairInv, After, Enabled, Loads, Exhausted, Unopened, Shortcut, Enough;
    if |evs| > 0 {
      OneStep(p, evs[0]);
      StageStep(p, evs, n);
      EnoughStep(p, evs);
      if !Shortcut(p, evs[0]) {
        FewSendsFrom(After(p, evs[0]), evs[1..], n + 1);
      }
    }
  }

  lemma {:induction false} EnoughStep(p: Pair, evs: seq<Event>)
    requires PairInv(p) && p.policy == OnSuccess && |evs| > 0 && Enough(p, evs)
    requires Loads(p.m) && Loads(p.c) && Enabled(p, evs[0])
    requires evs[0].Encrypt? ==> HasChain(p.m, evs[0].from) && HasChain(p.c, evs[0].from)
    ensures !Exhausted(p, evs[0]) && Enough(After(p, evs[0]), evs[1..])
  {
    hide Loads, Mode, SideInv, Common, After, KeepsUp, Oversteps, Fits;
    var r := if evs[0].Encrypt? then evs[0].from else evs[0].to;
    assert p.c.Party(r).sendNo + Sends(evs, r) <= NUMBER_LIMIT;
    match evs[0] {
      case Encrypt(_, plaintext, draw) => EncryptBoth(p, r, plaintext, draw);
      case Deliver(_, x, draw) => DeliverBoth(p, r, x, draw);
    }
    var q := After(p, evs[0]);
    forall o: Role
      ensures q.c.Party(o).sendNo + Sends(evs[1..], o) <= NUMBER_LIMIT
    {
      assert p.c.Party(o).sendNo + Sends(evs, o) <= NUMBER_LIMIT;
      assert o == r || o == r.Peer();
    }
  }
}
