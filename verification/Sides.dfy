/**
 Two parties whose messages arrive in the order they were sent, some of them never: either in
 memory, or as clients that reload before every operation.
 */
module Sides {
  import opened Wrappers
  import opened Keys
  import opened SkippedKeys
  import opened Ratchets
  import opened Persistence
  import opened Sync
  import opened Logs

  /** Ratchets in memory, clients that store what succeeded, and clients that store every outcome. */
  datatype Policy = InMemory | OnSuccess | Always

  /** Both ratchets, the schedule, what each party sent, and how far each party has read the other. */
  datatype Side = Side(alice: Ratchet, bob: Ratchet, s: Schedule,
                       aliceLog: seq<Sent>, bobLog: seq<Sent>, aliceAt: nat, bobAt: nat)
  {
    function Party(r: Role): Ratchet {
      if r == Alice then alice else bob
    }

    function Log(r: Role): seq<Sent> {
      if r == Alice then aliceLog else bobLog
    }

    /** One past the last message that `r` accepted, or where a chain begins that `r` followed in vain. */
    function At(r: Role): nat {
      if r == Alice then aliceAt else bobAt
    }

    function With(r: Role, p: Ratchet, draw: KeyId): Side {
      var drawn := if p.dhr.pub != Party(r).dhr.pub then s.Draw(draw) else s;
      if r == Alice then this.(alice := p, s := drawn) else this.(bob := p, s := drawn)
    }

    function Sends(r: Role, e: Sent): Side {
      if r == Alice then this.(aliceLog := aliceLog + [e]) else this.(bobLog := bobLog + [e])
    }

    function Reads(r: Role, at: nat): Side {
      if r == Alice then this.(aliceAt := at) else this.(bobAt := at)
    }
  }

  /** A client stores what it restores next time; in memory a state is kept as it is. */
  function Keep(p: Ratchet, policy: Policy): Ratchet {
    if policy == InMemory then p else Reloaded(p)
  }

  /** The log entry of an Encrypt call. */
  function EntryOf(v: Side, r: Role, plaintext: Bytes, draw: KeyId): Sent
    requires |v.s.keys| >= 2
  {
    var o := v.Party(r).Encrypt(plaintext, draw);
    Sent(r, Epoch(v.s, r), plaintext, if o.result.Ok? then Some(o.result.value) else None)
  }

  /** The party's state after an Encrypt call. */
  function Speaker(v: Side, r: Role, plaintext: Bytes, draw: KeyId, policy: Policy): Ratchet {
    var o := v.Party(r).Encrypt(plaintext, draw);
    if o.result.Err? && policy == OnSuccess then v.Party(r) else Keep(o.state, policy)
  }

  function Encrypted(v: Side, r: Role, plaintext: Bytes, draw: KeyId, policy: Policy): Side
    requires |v.s.keys| >= 2
  {
    v.With(r, Speaker(v, r, plaintext, draw, policy), draw).Sends(r, EntryOf(v, r, plaintext, draw))
  }

  /** An Encrypt call that failed leaves nothing to deliver. */
  function Delivered(v: Side, r: Role, x: nat, draw: KeyId, policy: Policy): Side
    requires x < |v.Log(r.Peer())|
    requires v.Party(r).recv.Some? ==> v.Party(r).peer.Some?
  {
    if !v.Log(r.Peer())[x].Made() then v
    else
      var o := v.Party(r).Decrypt(v.Log(r.Peer())[x].out.value, draw);
      var w := v.With(r, Keep(o.state, policy), draw);
      if o.result.Ok? then w.Reads(r, x + 1)
      else if policy == OnSuccess then v
      else if o.state.dhr.pub == v.Party(r).dhr.pub then w
      else w.Reads(r, ChainBegin(v.Log(r.Peer()), x))
  }

  /** Where the chain of message `x` begins in its sender's log. */
  function ChainBegin(log: seq<Sent>, x: nat): nat
    requires x < |log| && log[x].Made()
  {
    if log[x].Head().msgNo <= x then x - log[x].Head().msgNo else x
  }

  // ---------- The invariant of one side ----------

  ghost predicate EntryOk(s: Schedule, log: seq<Sent>, sender: Role, prevSendNo: nat, x: nat)
    requires |s.keys| >= 2 && x < |log|
  {
    var i := log[x].chain;
    && 0 < i <= Epoch(s, sender) && Owns(sender, i)
    && (log[x].Made() ==>
          && log[x].Head().dhPub == s.Pub(i)
          && log[x].Head().msgNo == Count(log[..x], i)
          && log[x].out.value.body == Box(s.Message(i, log[x].Head().msgNo), s.ad, log[x].plaintext)
          && (i == Epoch(s, sender) ==> log[x].Head().prevNo == prevSendNo))
  }

  ghost predicate LogOk(s: Schedule, log: seq<Sent>, sender: Role, prevSendNo: nat) {
    && |s.keys| >= 2
    && (forall x :: 0 <= x < |log| ==> EntryOk(s, log, sender, prevSendNo, x))
    && forall x, y :: 0 <= x < y < |log| ==> log[x].chain <= log[y].chain
  }

  /** A length that cannot be announced is that of the chain before the newest one. */
  ghost predicate SenderOk(v: Side, r: Role)
    requires |v.s.keys| >= 2
  {
    && InSync(v.Party(r), r, v.s)
    && LogOk(v.s, v.Log(r), r, v.Party(r).prevSendNo)
    && (v.Party(r).sendNo < NUMBER_LIMIT ==> v.Party(r).sendNo == Count(v.Log(r), Epoch(v.s, r)))
    && (Epoch(v.s, r) <= 2 ==> v.Party(r).prevSendNo == 0)
    && (v.Party(r).prevSendNo >= NUMBER_LIMIT ==> Epoch(v.s, r) == |v.s.keys| - 1)
  }

  /** The receiver has read its current receiving chain up to its cursor, and nothing behind it. */
  ghost predicate CursorOk(recvNo: nat, e: nat, log: seq<Sent>, at: nat) {
    && at <= |log|
    && (e < 2 ==> at == 0 && recvNo == 0)
    && (e >= 2 ==>
          && recvNo == Count(log[..at], e - 1)
          && (forall x :: 0 <= x < at ==> log[x].chain <= e - 1)
          && (forall x :: at <= x < |log| ==> log[x].chain >= e - 1))
  }

  ghost predicate SideInv(v: Side) {
    && v.s.Valid()
    && SenderOk(v, Alice) && SenderOk(v, Bob)
    && CursorOk(v.alice.recvNo, Epoch(v.s, Alice), v.bobLog, v.aliceAt)
    && CursorOk(v.bob.recvNo, Epoch(v.s, Bob), v.aliceLog, v.bobAt)
  }

  lemma {:induction false} InvOf(v: Side, r: Role)
    requires SideInv(v)
    ensures SenderOk(v, r) && CursorOk(v.Party(r).recvNo, Epoch(v.s, r), v.Log(r.Peer()), v.At(r))
    ensures v.s.Valid() && (v.Party(r).recv.Some? ==> v.Party(r).peer.Some?)
  {
  }

  lemma {:induction false} InvFrom(v: Side, r: Role)
    requires v.s.Valid() && SenderOk(v, r) && SenderOk(v, r.Peer())
    requires CursorOk(v.Party(r).recvNo, Epoch(v.s, r), v.Log(r.Peer()), v.At(r))
    requires CursorOk(v.Party(r.Peer()).recvNo, Epoch(v.s, r.Peer()), v.Log(r), v.At(r.Peer()))
    ensures SideInv(v)
  {
    hide SenderOk, CursorOk;
  }

  // ---------- Encrypt ----------

  /** A party that has a sending chain: Bob's comes with the first message he reads. */
  predicate HasChain(v: Side, r: Role) {
    r == Alice || |v.s.keys| >= 3
  }

  /** A party that can send: it has a chain, and its numbers fit into a header. */
  predicate MaySend(v: Side, r: Role) {
    HasChain(v, r) && v.Party(r).sendNo < NUMBER_LIMIT && v.Party(r).prevSendNo < NUMBER_LIMIT
  }

  lemma {:induction false} KeepInSync(p: Ratchet, r: Role, s: Schedule, policy: Policy)
    requires InSync(p, r, s)
    ensures InSync(Keep(p, policy), r, s) && (Running(p, r, s) ==> Running(Keep(p, policy), r, s))
  {
    hide InSync, Running;
    ReloadInSync(p, r, s);
  }

  lemma {:induction false} KeepFields(p: Ratchet, policy: Policy)
    ensures var q := Keep(p, policy);
            && q == p.(prevSendNo := q.prevSendNo, buffer := q.buffer)
            && q.prevSendNo == if policy == InMemory then p.prevSendNo else 0
  {
  }

  lemma {:induction false} LogSends(s: Schedule, log: seq<Sent>, r: Role, prevSendNo: nat, e: Sent)
    requires s.Valid() && LogOk(s, log, r, prevSendNo)
    requires e.chain == Epoch(s, r) > 0
    requires e.Made() ==>
               && e.Head().dhPub == s.Pub(e.chain)
               && e.Head().msgNo == Count(log, e.chain) && e.Head().prevNo == prevSendNo
               && e.out.value.body == Box(s.Message(e.chain, e.Head().msgNo), s.ad, e.plaintext)
    ensures LogOk(s, log + [e], r, prevSendNo)
  {
    var next := log + [e];
    forall x | 0 <= x < |next|
      ensures EntryOk(s, next, r, prevSendNo, x) && next[x].chain <= e.chain
    {
      if x < |log| {
        assert EntryOk(s, log, r, prevSendNo, x);
        assert next[..x] == log[..x];
      } else {
        assert next[..x] == log;
      }
    }
  }

  lemma {:induction false} CursorSends(recvNo: nat, s: Schedule, r: Role, log: seq<Sent>, at: nat, e: Sent)
    requires |s.keys| >= 2 && CursorOk(recvNo, Epoch(s, r), log, at) && e.chain == Epoch(s, r.Peer())
    ensures CursorOk(recvNo, Epoch(s, r), log + [e], at)
  {
    assert (log + [e])[..at] == log[..at];
  }

  /** What a send does to a side, whether or not it succeeds. */
  ghost predicate Grew(v: Side, w: Side, r: Role, policy: Policy)
    requires |v.s.keys| >= 2
  {
    && w.s == v.s && w.Party(r.Peer()) == v.Party(r.Peer()) && w.Log(r.Peer()) == v.Log(r.Peer())
    && w.At(r) == v.At(r) && w.At(r.Peer()) == v.At(r.Peer())
    && |w.Log(r)| == |v.Log(r)| + 1 && w.Log(r)[..|v.Log(r)|] == v.Log(r)
    && w.Party(r).prevSendNo == v.Party(r).prevSendNo && w.Party(r).recvNo == v.Party(r).recvNo
    && var e := w.Log(r)[|v.Log(r)|];
       && e.chain == Epoch(v.s, r)
       && (e.Made() <==> MaySend(v, r))
       && (e.Made() ==> e.Head().msgNo == v.Party(r).sendNo && e.Head().prevNo == v.Party(r).prevSendNo)
       && w.Party(r).sendNo == v.Party(r).sendNo + if policy == OnSuccess && !e.Made() then 0 else 1
  }

  /** What EncryptInSync says about a party with a chain. */
  lemma {:induction false} SpeakerIs(v: Side, r: Role, plaintext: Bytes, draw: KeyId, policy: Policy)
    requires SideInv(v) && HasChain(v, r) && (policy != InMemory ==> v.Party(r).prevSendNo == 0)
    ensures var p, q, e := v.Party(r), Speaker(v, r, plaintext, draw, policy), EntryOf(v, r, plaintext, draw);
            && InSync(q, r, v.s) && q.dhr.pub == p.dhr.pub && Epoch(v.s, r) > 0
            && q.prevSendNo == p.prevSendNo && q.recvNo == p.recvNo
            && (e.out.Some? <==> MaySend(v, r)) && (e.out.Some? <==> e.Made())
            && (v.Party(r).Encrypt(plaintext, draw).result.Ok? <==> MaySend(v, r))
            && e.chain == Epoch(v.s, r) && e.plaintext == plaintext
            && q.sendNo == p.sendNo + (if policy == OnSuccess && !e.Made() then 0 else 1)
            && (e.Made() ==>
                  && e.Head() == Header(v.s.Pub(e.chain), p.prevSendNo, p.sendNo)
                  && e.out.value.body == Box(v.s.Message(e.chain, p.sendNo), v.s.ad, plaintext))
            && (policy == OnSuccess && !e.Made() ==> q == p)
  {
    hide CacheSound, Ratchet.Encrypt, LogOk, CursorOk, Keep, Schedule.Message, Root;
    InvOf(v, r);
    var p, o := v.Party(r), v.Party(r).Encrypt(plaintext, draw);
    EncryptInSync(p, r, v.s, plaintext, draw);
    KeepInSync(o.state, r, v.s, policy);
    KeepFields(o.state, policy);
  }

  lemma {:induction false} EncryptedIs(v: Side, r: Role, plaintext: Bytes, draw: KeyId, policy: Policy)
    requires |v.s.keys| >= 2 && Speaker(v, r, plaintext, draw, policy).dhr.pub == v.Party(r).dhr.pub
    ensures var w := Encrypted(v, r, plaintext, draw, policy);
            && w.s == v.s && w.Party(r) == Speaker(v, r, plaintext, draw, policy)
            && w.Party(r.Peer()) == v.Party(r.Peer()) && w.Log(r.Peer()) == v.Log(r.Peer())
            && w.Log(r) == v.Log(r) + [EntryOf(v, r, plaintext, draw)]
            && w.At(r) == v.At(r) && w.At(r.Peer()) == v.At(r.Peer())
  {
    hide Speaker, EntryOf;
  }

  /** A send by a party that has a chain, on either side; a client has no previous length to announce. */
  lemma {:induction false} EncryptKeeps(v: Side, r: Role, plaintext: Bytes, draw: KeyId, policy: Policy)
    requires SideInv(v) && HasChain(v, r) && (policy != InMemory ==> v.Party(r).prevSendNo == 0)
    ensures var w := Encrypted(v, r, plaintext, draw, policy);
            && SideInv(w) && Grew(v, w, r, policy)
            && w.Party(r) == Speaker(v, r, plaintext, draw, policy)
            && w.Log(r) == v.Log(r) + [EntryOf(v, r, plaintext, draw)]
            && EntryOf(v, r, plaintext, draw).plaintext == plaintext
            && (v.Party(r).Encrypt(plaintext, draw).result.Ok? <==> MaySend(v, r))
  {
    hide InSync, Ratchet.Encrypt, LogOk, CursorOk, Speaker, EntryOf, Encrypted, SideInv, Schedule.Message, SenderOk;
    SideValid(v);
    InvOf(v, r);
    InvOf(v, r.Peer());
    SpeakerIs(v, r, plaintext, draw, policy);
    EncryptedIs(v, r, plaintext, draw, policy);
    EncryptLogs(v, r, plaintext, draw, policy);
    var w := Encrypted(v, r, plaintext, draw, policy);
    SenderFrom(w, r);
    SenderSame(v, w, r.Peer());
    InvFrom(w, r);
  }

  /** The log and the counters after a send. */
  lemma {:induction false} EncryptLogs(v: Side, r: Role, plaintext: Bytes, draw: KeyId, policy: Policy)
    requires SideInv(v) && HasChain(v, r) && (policy != InMemory ==> v.Party(r).prevSendNo == 0)
    ensures var q, e := Speaker(v, r, plaintext, draw, policy), EntryOf(v, r, plaintext, draw);
            var log := v.Log(r) + [e];
            && LogOk(v.s, log, r, q.prevSendNo)
            && (q.sendNo < NUMBER_LIMIT ==> q.sendNo == Count(log, Epoch(v.s, r)))
            && (Epoch(v.s, r) <= 2 ==> q.prevSendNo == 0)
            && (q.prevSendNo >= NUMBER_LIMIT ==> Epoch(v.s, r) == |v.s.keys| - 1)
            && CursorOk(v.Party(r.Peer()).recvNo, Epoch(v.s, r.Peer()), log, v.At(r.Peer()))
  {
    hide InSync, Ratchet.Encrypt, LogOk, CursorOk, Speaker, EntryOf, SideInv, Schedule.Message;
    SideValid(v);
    InvOf(v, r);
    InvOf(v, r.Peer());
    SpeakerIs(v, r, plaintext, draw, policy);
    var e := EntryOf(v, r, plaintext, draw);
    LogSends(v.s, v.Log(r), r, v.Party(r).prevSendNo, e);
    CountAppend(v.Log(r), e, Epoch(v.s, r));
    CursorSends(v.Party(r.Peer()).recvNo, v.s, r.Peer(), v.Log(r), v.At(r.Peer()), e);
  }

  lemma {:induction false} SenderFrom(w: Side, r: Role)
    requires |w.s.keys| >= 2 && InSync(w.Party(r), r, w.s) && LogOk(w.s, w.Log(r), r, w.Party(r).prevSendNo)
    requires w.Party(r).sendNo < NUMBER_LIMIT ==> w.Party(r).sendNo == Count(w.Log(r), Epoch(w.s, r))
    requires Epoch(w.s, r) <= 2 ==> w.Party(r).prevSendNo == 0
    requires w.Party(r).prevSendNo >= NUMBER_LIMIT ==> Epoch(w.s, r) == |w.s.keys| - 1
    ensures SenderOk(w, r)
  {
    hide InSync, LogOk;
  }

  lemma {:induction false} SenderSame(v: Side, w: Side, q: Role)
    requires |v.s.keys| >= 2 && SenderOk(v, q) && w.s == v.s && w.Party(q) == v.Party(q) && w.Log(q) == v.Log(q)
    ensures SenderOk(w, q)
  {
    hide InSync, LogOk;
  }

  /** Bob before he has a chain cannot send, and an attempt changes nothing. */
  lemma {:induction false} NoChainYet(v: Side, r: Role, plaintext: Bytes, draw: KeyId)
    requires SideInv(v) && !HasChain(v, r)
    ensures var o := v.Party(r).Encrypt(plaintext, draw);
            o.result.Err? && o.state == v.Party(r) && o.state.send.None? && v.Party(r).sendNo == 0
  {
    hide CacheSound, Ratchet.Encrypt, LogOk, CursorOk;
    InvOf(v, r);
    EncryptInSync(v.Party(r), r, v.s, plaintext, draw);
  }

  lemma {:induction false} ChainAfter(v: Side, r: Role, plaintext: Bytes, draw: KeyId)
    requires SideInv(v) && HasChain(v, r)
    ensures v.Party(r).Encrypt(plaintext, draw).state.send.Some?
  {
    hide CacheSound, Ratchet.Encrypt, LogOk, CursorOk;
    InvOf(v, r);
    EncryptInSync(v.Party(r), r, v.s, plaintext, draw);
  }

  // ---------- Deliver ----------

  lemma {:induction false} ChainIs(
    s: Schedule, r: Role, log: seq<Sent>, prevSendNo: nat, recvNo: nat, at: nat, x: nat)
    requires s.Valid() && LogOk(s, log, r.Peer(), prevSendNo) && CursorOk(recvNo, Epoch(s, r), log, at)
    requires at <= x < |log|
    ensures EntryOk(s, log, r.Peer(), prevSendNo, x)
    ensures Count(log, log[x].chain) > 0
    ensures var i, e := log[x].chain, Epoch(s, r);
            || (i == e - 1 && e >= 2 && (log[x].Made() ==> log[x].Head().msgNo >= recvNo))
            || (i == e + 1 == |s.keys| - 1 && Epoch(s, r.Peer()) == |s.keys| - 1)
  {
    assert EntryOk(s, log, r.Peer(), prevSendNo, x);
    var i := log[x].chain;
    assert log[..|log|] == log;
    CountRange(log, x, x + 1, i);
    CountRange(log, x + 1, |log|, i);
    CountRange(log, at, x, i);
  }

  /** The next message to read is on the receiver's current receiving chain or on the peer's next chain. */
  lemma {:induction false} ChainOfNext(v: Side, r: Role, x: nat)
    requires SideInv(v) && v.At(r) <= x < |v.Log(r.Peer())| && v.Log(r.Peer())[x].Made()
    ensures var i, e, log := v.Log(r.Peer())[x].chain, Epoch(v.s, r), v.Log(r.Peer());
            && EntryOk(v.s, log, r.Peer(), v.Party(r.Peer()).prevSendNo, x)
            && ((&& i == e - 1 && e >= 2 && Running(v.Party(r), r, v.s) && v.Party(r).peer == Some(v.s.Pub(i))
                 && log[x].Head().msgNo >= v.Party(r).recvNo)
                || (&& i == e + 1 == |v.s.keys| - 1 && v.Party(r).peer != Some(v.s.Pub(i))
                    && Epoch(v.s, r.Peer()) == |v.s.keys| - 1 && !(r == Alice && Waiting(v.Party(r), v.s))
                    && Running(v.Party(r.Peer()), r.Peer(), v.s)
                    && v.Party(r.Peer()).prevSendNo < NUMBER_LIMIT))
  {
    hide LogOk, CursorOk, CacheSound, SideInv, Schedule.Message, Schedule.Chain, Root, Count;
    InvOf(v, r);
    InvOf(v, r.Peer());
    ChainIs(v.s, r, v.Log(r.Peer()), v.Party(r.Peer()).prevSendNo, v.Party(r).recvNo, v.At(r), x);
  }

  /** Whether the message that `r` reads next is accepted. */
  ghost predicate Fits(v: Side, r: Role, x: nat)
    requires |v.s.keys| >= 2 && x < |v.Log(r.Peer())|
  {
    v.Log(r.Peer())[x].Made() &&
    var h, p := v.Log(r.Peer())[x].Head(), v.Party(r);
    if v.Log(r.Peer())[x].chain == Epoch(v.s, r) - 1
    then h.msgNo <= p.recvNo + MAX_SKIP_ELEMENTS
    else h.prevNo <= p.recvNo + MAX_SKIP_ELEMENTS && h.msgNo <= MAX_SKIP_ELEMENTS
  }

  /** The peer's next chain is followed, and then the number turns out to be too far away. */
  ghost predicate Oversteps(v: Side, r: Role, x: nat)
    requires |v.s.keys| >= 2 && x < |v.Log(r.Peer())|
  {
    v.Log(r.Peer())[x].Made() &&
    var h, p := v.Log(r.Peer())[x].Head(), v.Party(r);
    && v.Log(r.Peer())[x].chain != Epoch(v.s, r) - 1
    && h.prevNo <= p.recvNo + MAX_SKIP_ELEMENTS && h.msgNo > MAX_SKIP_ELEMENTS
  }

  /** Decrypt of the message that `r` reads next, in terms of the schedule. */
  lemma {:induction false} DecryptNext(v: Side, r: Role, x: nat, k: KeyId)
    requires SideInv(v) && k !in v.s.keys && v.At(r) <= x < |v.Log(r.Peer())| && v.Log(r.Peer())[x].Made()
    ensures v.Party(r).recv.Some? ==> v.Party(r).peer.Some?
    ensures var log, p := v.Log(r.Peer()), v.Party(r);
            var o := p.Decrypt(log[x].out.value, k);
            var i := log[x].chain;
            var t := if i == Epoch(v.s, r) - 1 then v.s else v.s.Draw(k);
            && (o.result.Ok? <==> Fits(v, r, x))
            && (o.result.Ok? ==> o.result == Ok(log[x].plaintext))
            && (o.result.Ok? || Oversteps(v, r, x) ==>
                  && InSync(o.state, r, t) && Running(o.state, r, t) && Epoch(t, r) == i + 1
                  && o.state.recvNo == (if o.result.Ok? then log[x].Head().msgNo + 1 else 0)
                  && (o.state.dhr.pub != p.dhr.pub <==> i != Epoch(v.s, r) - 1)
                  && o.state.sendNo == (if i == Epoch(v.s, r) - 1 then p.sendNo else 0)
                  && o.state.prevSendNo == (if i == Epoch(v.s, r) - 1 then p.prevSendNo else p.sendNo))
            && (o.result.Err? && !Oversteps(v, r, x) ==> o.state == p)
  {
    hide InSync, Waiting, Listening, SenderOk, CursorOk, Running, Ratchet.Decrypt, Schedule.Message;
    ChainOfNext(v, r, x);
    InvOf(v, r);
    SenderInSync(v, r);
    var p, i, e := v.Party(r), v.Log(r.Peer())[x].chain, v.Log(r.Peer())[x];
    if i == Epoch(v.s, r) - 1 {
      DecryptCurrent(p, r, v.s, e.out.value, e.plaintext, k);
    } else {
      DecryptFollows(p, r, v.s, e.out.value, e.plaintext, k);
    }
  }

  lemma {:induction false} SenderInSync(v: Side, r: Role)
    requires |v.s.keys| >= 2 && SenderOk(v, r)
    ensures InSync(v.Party(r), r, v.s)
  {
  }

  lemma {:induction false} LogDraws(s: Schedule, log: seq<Sent>, r: Role, prevSendNo: nat, k: KeyId)
    requires s.Valid() && LogOk(s, log, r, prevSendNo) && Epoch(s, r) == |s.keys| - 1
    ensures LogOk(s.Draw(k), log, r, prevSendNo)
  {
    forall x | 0 <= x < |log|
      ensures EntryOk(s.Draw(k), log, r, prevSendNo, x)
    {
      assert EntryOk(s, log, r, prevSendNo, x);
      DrawKeeps(s, k, log[x].chain, if log[x].Made() then log[x].Head().msgNo else 0);
    }
  }

  /** The log of the party that moves on to a new chain. */
  lemma {:induction false} LogMoves(s: Schedule, log: seq<Sent>, r: Role, prevSendNo: nat, k: KeyId, any: nat)
    requires s.Valid() && LogOk(s, log, r, prevSendNo) && Epoch(s, r) == |s.keys| - 2
    ensures LogOk(s.Draw(k), log, r, any)
    ensures Count(log, |s.keys|) == 0
  {
    forall x | 0 <= x < |log|
      ensures EntryOk(s.Draw(k), log, r, any, x) && log[x].chain != |s.keys|
    {
      assert EntryOk(s, log, r, prevSendNo, x);
      DrawKeeps(s, k, log[x].chain, if log[x].Made() then log[x].Head().msgNo else 0);
    }
    CountAbsent(log, |s.keys|);
  }

  /** A party without a chain has sent nothing. */
  lemma {:induction false} NothingSent(v: Side, r: Role)
    requires SideInv(v) && Epoch(v.s, r) == 0
    ensures v.Party(r).sendNo == 0
  {
    InvOf(v, r);
  }

  lemma {:induction false} CursorMoves(log: seq<Sent>, x: nat, s: Schedule, r: Role, prevSendNo: nat)
    requires x < |log| && LogOk(s, log, r, prevSendNo) && log[x].Made()
    ensures CursorOk(log[x].Head().msgNo + 1, log[x].chain + 1, log, x + 1)
  {
    assert EntryOk(s, log, r, prevSendNo, x);
    assert log[..x + 1][..x] == log[..x];
  }

  lemma {:induction false} DeliveredIs(v: Side, r: Role, x: nat, k: KeyId, policy: Policy)
    requires x < |v.Log(r.Peer())| && (v.Party(r).recv.Some? ==> v.Party(r).peer.Some?) && v.Log(r.Peer())[x].Made()
    ensures var w, o := Delivered(v, r, x, k, policy), v.Party(r).Decrypt(v.Log(r.Peer())[x].out.value, k);
            && w.Log(r) == v.Log(r) && w.Log(r.Peer()) == v.Log(r.Peer())
            && w.Party(r.Peer()) == v.Party(r.Peer()) && w.At(r.Peer()) == v.At(r.Peer())
            && (o.result.Ok? ==>
                  && w.Party(r) == Keep(o.state, policy) && w.At(r) == x + 1
                  && w.s == if o.state.dhr.pub != v.Party(r).dhr.pub then v.s.Draw(k) else v.s)
            && (o.result.Err? && (policy == OnSuccess || Keep(o.state, policy) == v.Party(r)) ==> w == v)
            && (o.result.Err? && policy != OnSuccess && o.state.dhr.pub != v.Party(r).dhr.pub ==>
                  && w.Party(r) == Keep(o.state, policy) && w.s == v.s.Draw(k)
                  && w.At(r) == ChainBegin(v.Log(r.Peer()), x))
  {
    hide Ratchet.Decrypt;
    KeepFields(v.Party(r).Decrypt(v.Log(r.Peer())[x].out.value, k).state, policy);
  }

  /** A message of the current receiving chain was accepted. */
  lemma {:induction false} DeliverStays(v: Side, r: Role, x: nat, k: KeyId, policy: Policy)
    requires SideInv(v) && k !in v.s.keys && v.At(r) <= x < |v.Log(r.Peer())|
    requires policy != InMemory ==> v.Party(r).prevSendNo == 0
    requires v.Log(r.Peer())[x].chain == Epoch(v.s, r) - 1 && Fits(v, r, x)
    ensures v.Party(r).recv.Some? ==> v.Party(r).peer.Some?
    ensures var w := Delivered(v, r, x, k, policy);
            SideInv(w) && w.s == v.s
  {
    hide InSync, Running, LogOk, CursorOk, Ratchet.Decrypt, Keep, Waiting, Listening, Oversteps, Delivered;
    InvOf(v, r);
    InvOf(v, r.Peer());
    DecryptNext(v, r, x, k);
    DeliveredIs(v, r, x, k, policy);
    var log := v.Log(r.Peer());
    var o, w := v.Party(r).Decrypt(log[x].out.value, k), Delivered(v, r, x, k, policy);
    KeepFields(o.state, policy);
    KeepInSync(o.state, r, v.s, policy);
    CursorMoves(log, x, v.s, r.Peer(), v.Party(r.Peer()).prevSendNo);
    SenderFrom(w, r);
    SenderSame(v, w, r.Peer());
    InvFrom(w, r);
  }

  /** The receiver moves on to a new chain of its own, with the message accepted or out of reach. */
  lemma {:induction false} DeliverMoves(v: Side, r: Role, x: nat, k: KeyId, policy: Policy)
    requires SideInv(v) && k !in v.s.keys && v.At(r) <= x < |v.Log(r.Peer())|
    requires v.Log(r.Peer())[x].chain != Epoch(v.s, r) - 1
    requires Fits(v, r, x) || (policy != OnSuccess && Oversteps(v, r, x))
    ensures v.Party(r).recv.Some? ==> v.Party(r).peer.Some?
    ensures var w := Delivered(v, r, x, k, policy);
            SideInv(w) && w.s == v.s.Draw(k) && v.At(r) <= w.At(r) <= x + 1
  {
    hide InSync, Running, LogOk, CursorOk, Ratchet.Decrypt, Keep, Waiting, Listening, Delivered, SideInv;
    hide Schedule.Message, EntryOk;
    InvOf(v, r);
    InvOf(v, r.Peer());
    ChainOfNext(v, r, x);
    DecryptNext(v, r, x, k);
    DeliveredIs(v, r, x, k, policy);
    var log, p, q := v.Log(r.Peer()), v.Party(r), v.Party(r.Peer());
    var o, w := p.Decrypt(log[x].out.value, k), Delivered(v, r, x, k, policy);
    KeepFields(o.state, policy);
    KeepInSync(o.state, r, v.s.Draw(k), policy);
    CursorMoves(log, x, v.s, r.Peer(), q.prevSendNo);
    CursorRestarts(v.s, log, r.Peer(), q.prevSendNo, x);
    BeginsLater(v.s, r, log, q.prevSendNo, p.recvNo, v.At(r), x);
    PeerDraws(q, r.Peer(), v.s, k);
    LogDraws(v.s, log, r.Peer(), q.prevSendNo, k);
    LogMoves(v.s, v.Log(r), r, p.prevSendNo, k, w.Party(r).prevSendNo);
    if Epoch(v.s, r) == 0 {
      NothingSent(v, r);
    }
    SenderFrom(w, r);
    SenderFrom(w, r.Peer());
    InvFrom(w, r);
  }

  // ---------- Where a chain begins ----------

  /** The chain of a message is contiguous in its sender's log. */
  lemma {:induction false} ChainIsContiguous(s: Schedule, log: seq<Sent>, r: Role, prevSendNo: nat, x: nat)
    requires LogOk(s, log, r, prevSendNo) && x < |log|
    ensures Count(log[..x], log[x].chain) <= x
    ensures var from, i := x - Count(log[..x], log[x].chain), log[x].chain;
            && Count(log[..from], i) == 0
            && (forall y :: 0 <= y < from ==> log[y].chain < i)
            && (forall y :: from <= y <= x ==> log[y].chain == i)
  {
    var i := log[x].chain;
    if x > 0 && log[x - 1].chain == i {
      ChainIsContiguous(s, log, r, prevSendNo, x - 1);
      assert log[..x][..x - 1] == log[..x - 1];
    } else {
      assert forall y :: 0 <= y < x ==> log[y].chain <= log[x].chain;
      assert forall y :: 0 <= y < x - 1 ==> log[y].chain <= log[x - 1].chain;
      CountAbsent(log[..x], i);
    }
  }

  lemma {:induction false} ChainBeginIs(s: Schedule, log: seq<Sent>, r: Role, prevSendNo: nat, x: nat)
    requires LogOk(s, log, r, prevSendNo) && x < |log| && log[x].Made()
    ensures var from, i := ChainBegin(log, x), log[x].chain;
            && from == x - log[x].Head().msgNo && 0 <= from && Count(log[..from], i) == 0
            && (forall y :: 0 <= y < from ==> log[y].chain < i)
            && (forall y :: from <= y <= x ==> log[y].chain == i)
  {
    assert EntryOk(s, log, r, prevSendNo, x);
    ChainIsContiguous(s, log, r, prevSendNo, x);
  }

  lemma {:induction false} CursorRestarts(s: Schedule, log: seq<Sent>, r: Role, prevSendNo: nat, x: nat)
    requires LogOk(s, log, r, prevSendNo) && x < |log| && log[x].Made()
    ensures CursorOk(0, log[x].chain + 1, log, ChainBegin(log, x)) && ChainBegin(log, x) <= x
  {
    ChainBeginIs(s, log, r, prevSendNo, x);
    assert EntryOk(s, log, r, prevSendNo, x);
  }

  /** A chain that is not the present one begins behind the cursor. */
  lemma {:induction false} BeginsLater(
    s: Schedule, r: Role, log: seq<Sent>, prevSendNo: nat, recvNo: nat, at: nat, x: nat)
    requires s.Valid() && LogOk(s, log, r.Peer(), prevSendNo) && CursorOk(recvNo, Epoch(s, r), log, at)
    requires at <= x < |log| && log[x].Made() && log[x].chain > Epoch(s, r)
    ensures at <= ChainBegin(log, x)
  {
    ChainBeginIs(s, log, r.Peer(), prevSendNo, x);
  }

  // ---------- One delivery ----------

  /** What a delivery to `r` does to a side. */
  ghost predicate Moved(v: Side, w: Side, r: Role, x: nat, policy: Policy)
    requires |v.s.keys| >= 2 && x < |v.Log(r.Peer())|
  {
    var here := v.Log(r.Peer())[x].chain == Epoch(v.s, r) - 1;
    && w.Log(r) == v.Log(r) && w.Log(r.Peer()) == v.Log(r.Peer())
    && w.Party(r.Peer()) == v.Party(r.Peer()) && w.At(r.Peer()) == v.At(r.Peer())
    && w.s.Valid() && v.At(r) <= w.At(r) <= x + 1
    && |w.s.keys| >= |v.s.keys| && w.Party(r).sendNo <= v.Party(r).sendNo
    && (!Fits(v, r, x) && (Oversteps(v, r, x) ==> policy == OnSuccess) ==> w == v)
    && (Fits(v, r, x) ==>
          && w.At(r) == x + 1 && w.Party(r).recvNo == v.Log(r.Peer())[x].Head().msgNo + 1
          && (here ==> w.s == v.s && w.Party(r).sendNo == v.Party(r).sendNo)
          && (!here ==> |w.s.keys| == |v.s.keys| + 1))
    && (Oversteps(v, r, x) && policy != OnSuccess ==>
          && |w.s.keys| == |v.s.keys| + 1 && w.Party(r).recvNo == 0 && w.Party(r).sendNo == 0
          && Epoch(v.s, r) == |v.s.keys| - 2 && v.Log(r.Peer())[x].chain == |v.s.keys| - 1)
    && (policy == InMemory && (Fits(v, r, x) || Oversteps(v, r, x)) ==>
          w.Party(r).prevSendNo == if here then v.Party(r).prevSendNo else v.Party(r).sendNo)
  }

  /** A delivery keeps the invariant, in memory and for both kinds of clients. */
  lemma {:induction false} DeliverKeeps(v: Side, r: Role, x: nat, k: KeyId, policy: Policy)
    requires SideInv(v) && k !in v.s.keys && v.At(r) <= x < |v.Log(r.Peer())|
    requires policy != InMemory ==> Reloaded(v.Party(r)) == v.Party(r)
    ensures |v.s.keys| >= 2 && (v.Party(r).recv.Some? ==> v.Party(r).peer.Some?)
    ensures var w := Delivered(v, r, x, k, policy);
            && SideInv(w) && Moved(v, w, r, x, policy)
            && (policy != InMemory ==> Reloaded(w.Party(r)) == w.Party(r))
  {
    hide InSync, Running, LogOk, CursorOk, Ratchet.Decrypt, Reloaded, SenderOk, SideInv, Delivered;
    hide EntryOk, Schedule.Message, Waiting, Listening;
    InvOf(v, r);
    ReloadIsExactIff(v.Party(r));
    if !v.Log(r.Peer())[x].Made() {
      DeliverNothing(v, r, x, k, policy);
    } else {
      ChainOfNext(v, r, x);
      DecryptNext(v, r, x, k);
      DeliveredIs(v, r, x, k, policy);
      var o, w := v.Party(r).Decrypt(v.Log(r.Peer())[x].out.value, k), Delivered(v, r, x, k, policy);
      KeepFields(o.state, policy);
      ReloadIsExactIff(o.state);
      if Fits(v, r, x) && v.Log(r.Peer())[x].chain == Epoch(v.s, r) - 1 {
        DeliverStays(v, r, x, k, policy);
      } else if Fits(v, r, x) || (Oversteps(v, r, x) && policy != OnSuccess) {
        DeliverMoves(v, r, x, k, policy);
      }
      SideValid(w);
    }
  }

  lemma {:induction false} DeliverNothing(v: Side, r: Role, x: nat, k: KeyId, policy: Policy)
    requires x < |v.Log(r.Peer())| && !v.Log(r.Peer())[x].Made()
    requires v.Party(r).recv.Some? ==> v.Party(r).peer.Some?
    ensures Delivered(v, r, x, k, policy) == v
  {
  }

  lemma {:induction false} SideValid(v: Side)
    requires SideInv(v)
    ensures v.s.Valid()
  {
  }
}
