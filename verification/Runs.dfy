/**
 Two parties in memory and a network that loses, duplicates and reorders.  The invariant that
 every step of every run keeps, as long as no message of a superseded chain is delivered.
 */
module Runs {
  import opened Wrappers
  import opened Keys
  import opened SkippedKeys
  import opened Ratchets
  import opened Sync
  import opened Logs

  /**
   Both ratchets and the packets under way to each party.  The rest is history: the key pairs
   drawn, the Encrypt calls, the numbers opened so far and the completed DH steps.
   */
  datatype World = World(
    alice: Ratchet, bob: Ratchet, toAlice: multiset<Ciphertext>, toBob: multiset<Ciphertext>,
    s: Schedule, log: seq<Sent>, taken: set<(Pub, nat)>, aliceSteps: nat, bobSteps: nat)
  {
    function Party(r: Role): Ratchet {
      if r == Alice then alice else bob
    }

    function Net(r: Role): multiset<Ciphertext> {
      if r == Alice then toAlice else toBob
    }

    function Steps(r: Role): nat {
      if r == Alice then aliceSteps else bobSteps
    }

    function WithNet(r: Role, net: multiset<Ciphertext>): World {
      if r == Alice then this.(toAlice := net) else this.(toBob := net)
    }

    /** A party moves to a new state; a root key that changed is a completed DH step. */
    function WithParty(r: Role, p: Ratchet, draw: KeyId): World {
      var step := if p.dhr.root != Party(r).dhr.root then 1 else 0;
      var drawn := if p.dhr.pub != Party(r).dhr.pub then s.Draw(draw) else s;
      if r == Alice then this.(alice := p, s := drawn, aliceSteps := aliceSteps + step)
      else this.(bob := p, s := drawn, bobSteps := bobSteps + step)
    }
  }

  datatype Event =
    | Encrypt(from: Role, plaintext: Bytes, draw: KeyId)
    | Deliver(to: Role, packet: Ciphertext, draw: KeyId)
    | Drop(to: Role, packet: Ciphertext)
    | Duplicate(to: Role, packet: Ciphertext)

  /** A packet of one of the sender's superseded chains. */
  ghost predicate Stale(s: Schedule, r: Role, c: Ciphertext)
    requires |s.keys| >= 2
  {
    c.Packet? && exists i :: 0 <= i < Epoch(s, r) - 1 && c.header.dhPub == s.Pub(i)
  }

  /** Only packets under way can be delivered, dropped or duplicated; drawn key pairs are new. */
  ghost predicate Enabled(w: World, ev: Event)
    requires |w.s.keys| >= 2
  {
    match ev
    case Encrypt(_, _, draw) => draw !in w.s.keys
    case Deliver(r, c, draw) => c in w.Net(r) && draw !in w.s.keys && !Stale(w.s, r, c)
    case Drop(r, c) => c in w.Net(r)
    case Duplicate(r, c) => c in w.Net(r)
  }

  function Encrypted(w: World, r: Role, plaintext: Bytes, draw: KeyId): World
    requires |w.s.keys| >= 2
  {
    var o := w.Party(r).Encrypt(plaintext, draw);
    var v := w.WithParty(r, o.state, draw);
    if o.state.send.None? || |v.s.keys| < 2 then v
    else if o.result.Err? then v.(log := v.log + [Sent(r, Epoch(v.s, r), plaintext, None)])
    else v.(log := v.log + [Sent(r, Epoch(v.s, r), plaintext, Some(o.result.value))])
          .WithNet(r.Peer(), v.Net(r.Peer()) + multiset{o.result.value})
  }

  function Delivered(w: World, r: Role, c: Ciphertext, draw: KeyId): World
    requires w.Party(r).recv.Some? ==> w.Party(r).peer.Some?
  {
    var o := w.Party(r).Decrypt(c, draw);
    var v := w.WithParty(r, o.state, draw).WithNet(r, w.Net(r) - multiset{c});
    if o.result.Ok? && c.Packet? then v.(taken := v.taken + {(c.header.dhPub, c.header.msgNo)}) else v
  }

  function After(w: World, ev: Event): World
    requires |w.s.keys| >= 2
    requires forall r: Role :: w.Party(r).recv.Some? ==> w.Party(r).peer.Some?
  {
    match ev
    case Encrypt(r, plaintext, draw) => Encrypted(w, r, plaintext, draw)
    case Deliver(r, c, draw) => Delivered(w, r, c, draw)
    case Drop(r, c) => w.WithNet(r, w.Net(r) - multiset{c})
    case Duplicate(r, c) => w.WithNet(r, w.Net(r) + multiset{c})
  }

  // ---------- The invariant ----------

  /** Each call used its sender's chain in order, and announced the length of the chain before. */
  ghost predicate EntryOk(s: Schedule, log: seq<Sent>, x: nat)
    requires |s.keys| >= 2 && x < |log|
  {
    var i := log[x].chain;
    && 0 < i <= Epoch(s, log[x].sender) && Owns(log[x].sender, i)
    && (log[x].out.Some? ==>
          var c := log[x].out.value;
          && c.Packet?
          && c.header.dhPub == s.Pub(i)
          && c.header.prevNo == Count(log, i - 2)
          && c.header.msgNo == Count(log[..x], i)
          && c.body == Box(s.Message(i, c.header.msgNo), s.ad, log[x].plaintext))
  }

  ghost predicate LogOk(s: Schedule, log: seq<Sent>) {
    |s.keys| >= 2 && forall x :: 0 <= x < |log| ==> EntryOk(s, log, x)
  }

  /** The sender of a packet under way made it with an Encrypt call. */
  ghost predicate Posted(log: seq<Sent>, sender: Role, c: Ciphertext) {
    exists x :: 0 <= x < |log| && log[x].sender == sender && log[x].out == Some(c)
  }

  ghost predicate CountersOk(p: Ratchet, r: Role, s: Schedule, log: seq<Sent>)
    requires |s.keys| >= 2
  {
    && p.sendNo == Count(log, Epoch(s, r))
    && p.prevSendNo == Count(log, Epoch(s, r) - 2)
  }

  ghost predicate RetainedOn(p: Ratchet, chain: Pub, taken: set<(Pub, nat)>) {
    forall n :: 0 <= n < p.recvNo ==> HasKey(p, chain, n) || (chain, n) in taken
  }

  /** Every number passed over on the current receiving chain is opened already or still cached. */
  ghost predicate Retained(p: Ratchet, r: Role, s: Schedule, taken: set<(Pub, nat)>)
    requires |s.keys| >= 2
  {
    Epoch(s, r) >= 2 ==> RetainedOn(p, s.Pub(Epoch(s, r) - 1), taken)
  }

  /** Alice takes the first, third, ... step of the schedule, Bob two of its steps at once. */
  ghost predicate StepsOk(p: Ratchet, r: Role, s: Schedule, steps: nat)
    requires |s.keys| >= 2
  {
    if r == Bob then Epoch(s, r) == 2 * steps
    else if p.dhr.initialized then Epoch(s, r) == 2 * steps - 1
    else steps == 0
  }

  ghost predicate NetOk(net: multiset<Ciphertext>, sender: Role, log: seq<Sent>) {
    forall c :: c in net ==> Posted(log, sender, c)
  }

  ghost predicate PartyOk(w: World, r: Role)
    requires |w.s.keys| >= 2
  {
    && InSync(w.Party(r), r, w.s)
    && CountersOk(w.Party(r), r, w.s, w.log)
    && Retained(w.Party(r), r, w.s, w.taken)
    && StepsOk(w.Party(r), r, w.s, w.Steps(r))
    && NetOk(w.Net(r), r.Peer(), w.log)
  }

  ghost predicate Inv(w: World) {
    && w.s.Valid()
    && PartyOk(w, Alice)
    && PartyOk(w, Bob)
    && LogOk(w.s, w.log)
  }

  lemma {:induction false} InvValid(w: World)
    requires Inv(w)
    ensures forall r: Role :: w.Party(r).recv.Some? ==> w.Party(r).peer.Some?
  {
    assert PartyOk(w, Alice) && PartyOk(w, Bob);
  }

  // ---------- Encrypt keeps the invariant ----------

  lemma {:induction false} LogGrows(s: Schedule, log: seq<Sent>, e: Sent)
    requires s.Valid() && LogOk(s, log)
    requires e.chain == Epoch(s, e.sender) && e.chain > 0
    requires e.out.Some? ==>
               var c := e.out.value;
               && c.Packet? && c.header.dhPub == s.Pub(e.chain)
               && c.header.prevNo == Count(log, e.chain - 2) && c.header.msgNo == Count(log, e.chain)
               && c.body == Box(s.Message(e.chain, c.header.msgNo), s.ad, e.plaintext)
    ensures LogOk(s, log + [e])
  {
    var next := log + [e];
    forall x | 0 <= x < |next|
      ensures EntryOk(s, next, x)
    {
      CountAppend(log, e, next[x].chain - 2);
      if x < |log| {
        assert EntryOk(s, log, x);
        assert next[..x] == log[..x];
      } else {
        assert next[..x] == log;
      }
    }
  }

  /** The log entry of an Encrypt call by a party that has a sending chain. */
  function EntryOf(w: World, r: Role, plaintext: Bytes, draw: KeyId): Sent
    requires |w.s.keys| >= 2
  {
    var o := w.Party(r).Encrypt(plaintext, draw);
    Sent(r, Epoch(w.s, r), plaintext, if o.result.Ok? then Some(o.result.value) else None)
  }

  lemma {:induction false} EncryptedIs(w: World, r: Role, plaintext: Bytes, draw: KeyId)
    requires |w.s.keys| >= 2
    requires w.Party(r).Encrypt(plaintext, draw).state.send.Some?
    requires w.Party(r).Encrypt(plaintext, draw).state.dhr.pub == w.Party(r).dhr.pub
    ensures var v, entry := Encrypted(w, r, plaintext, draw), EntryOf(w, r, plaintext, draw);
            && v.s == w.s && v.taken == w.taken && v.log == w.log + [entry]
            && v.Party(r) == w.Party(r).Encrypt(plaintext, draw).state && v.Net(r) == w.Net(r)
            && v.Party(r.Peer()) == w.Party(r.Peer()) && v.Steps(r.Peer()) == w.Steps(r.Peer())
            && v.Net(r.Peer()) == w.Net(r.Peer()) + if entry.out.Some? then multiset{entry.out.value} else multiset{}
  {
    hide Ratchet.Encrypt;
  }

  lemma {:induction false} EncryptKeepsInv(w: World, r: Role, plaintext: Bytes, draw: KeyId)
    requires Inv(w) && Enabled(w, Encrypt(r, plaintext, draw))
    ensures Inv(Encrypted(w, r, plaintext, draw))
  {
    var p := w.Party(r);
    EncryptInSync(p, r, w.s, plaintext, draw);
    if r == Bob && Listening(p, w.s) {
      assert Encrypted(w, r, plaintext, draw) == w;
    } else {
      EncryptedIs(w, r, plaintext, draw);
      EncryptLogs(w, r, plaintext, draw);
      EncryptSteps(w, r, plaintext, draw);
      RetainedFrame(p, p.Encrypt(plaintext, draw).state, r, w.s, w.taken);
      EncryptAssembles(w, r, plaintext, draw);
    }
  }

  lemma {:induction false} EncryptAssembles(w: World, r: Role, plaintext: Bytes, draw: KeyId)
    requires Inv(w)
    requires var v := Encrypted(w, r, plaintext, draw);
             && v.s == w.s && v.taken == w.taken && LogOk(w.s, v.log)
             && InSync(v.Party(r), r, w.s) && Retained(v.Party(r), r, w.s, w.taken)
             && CountersOk(v.Party(r), r, w.s, v.log) && CountersOk(w.Party(r.Peer()), r.Peer(), w.s, v.log)
             && StepsOk(v.Party(r), r, w.s, v.Steps(r)) && v.Steps(r.Peer()) == w.Steps(r.Peer())
             && v.Party(r.Peer()) == w.Party(r.Peer())
             && NetOk(v.Net(r), r.Peer(), v.log) && NetOk(v.Net(r.Peer()), r, v.log)
    ensures Inv(Encrypted(w, r, plaintext, draw))
  {
    hide InSync, LogOk, NetOk, StepsOk, Retained, CountersOk, Encrypted;
    var v := Encrypted(w, r, plaintext, draw);
    assert PartyOk(w, r.Peer());
    assert PartyOk(v, r) && PartyOk(v, r.Peer());
  }

  lemma {:induction false} EncryptLogs(w: World, r: Role, plaintext: Bytes, draw: KeyId)
    requires Inv(w) && !(r == Bob && Listening(w.Party(r), w.s))
    ensures var entry := EntryOf(w, r, plaintext, draw);
            var log := w.log + [entry];
            var o := w.Party(r).Encrypt(plaintext, draw);
            && LogOk(w.s, log)
            && CountersOk(o.state, r, w.s, log) && CountersOk(w.Party(r.Peer()), r.Peer(), w.s, log)
            && NetOk(w.Net(r), r.Peer(), log)
            && NetOk(w.Net(r.Peer()) + if entry.out.Some? then multiset{entry.out.value} else multiset{}, r, log)
  {
    hide InSync, Running, Listening, Waiting, StepsOk, Retained, Ratchet.Encrypt, NetOk, LogOk;
    var p := w.Party(r);
    var e: int, e': int := Epoch(w.s, r), Epoch(w.s, r.Peer());
    EncryptInSync(p, r, w.s, plaintext, draw);
    assert PartyOk(w, r) && PartyOk(w, r.Peer());
    var entry := EntryOf(w, r, plaintext, draw);
    LogGrows(w.s, w.log, entry);
    CountAppend(w.log, entry, e);
    CountAppend(w.log, entry, e - 2);
    CountAppend(w.log, entry, e');
    CountAppend(w.log, entry, e' - 2);
    NetGrows(w.Net(r), r.Peer(), w.log, entry);
    NetGrows(w.Net(r.Peer()), r, w.log, entry);
    assert w.Net(r.Peer()) + multiset{} == w.Net(r.Peer());
  }

  lemma {:induction false} RetainedFrame(p: Ratchet, q: Ratchet, r: Role, s: Schedule, taken: set<(Pub, nat)>)
    requires s.Valid() && Retained(p, r, s, taken)
    requires q.recvNo == p.recvNo && q.buffer == p.buffer
    ensures Retained(q, r, s, taken)
  {
    if Epoch(s, r) >= 2 {
      var chain := s.Pub(Epoch(s, r) - 1);
      assert forall n :: HasKey(q, chain, n) == HasKey(p, chain, n);
    }
  }

  lemma {:induction false} EncryptSteps(w: World, r: Role, plaintext: Bytes, draw: KeyId)
    requires Inv(w) && !(r == Bob && Listening(w.Party(r), w.s))
    ensures var v := Encrypted(w, r, plaintext, draw);
            StepsOk(v.Party(r), r, w.s, v.Steps(r))
  {
    hide LogOk, NetOk, Retained, CountersOk, CacheSound, Schedule.Message, Schedule.Chain;
    var p := w.Party(r);
    EncryptInSync(p, r, w.s, plaintext, draw);
    RootDepthOf(w.s.keys, w.s.seed, 0);
    RootDepthOf(w.s.keys, w.s.seed, 1);
  }

  lemma {:induction false} NetGrows(net: multiset<Ciphertext>, sender: Role, log: seq<Sent>, e: Sent)
    requires NetOk(net, sender, log)
    ensures NetOk(net, sender, log + [e])
    ensures e.sender == sender && e.out.Some? ==> NetOk(net + multiset{e.out.value}, sender, log + [e])
  {
    forall c | c in net
      ensures Posted(log + [e], sender, c)
    {
      var x :| 0 <= x < |log| && log[x].sender == sender && log[x].out == Some(c);
      assert (log + [e])[x] == log[x];
    }
    assert (log + [e])[|log|] == e;
  }

  // ---------- Deliver keeps the invariant ----------

  /** What the receiver knows about a packet under way: its chain is the current one, the next one or stale. */
  lemma {:induction false} PacketShape(w: World, r: Role, c: Ciphertext) returns (x: nat)
    requires Inv(w) && c in w.Net(r)
    ensures x < |w.log| && w.log[x].sender == r.Peer() && w.log[x].out == Some(c)
    ensures var i := w.log[x].chain;
            && 0 < i <= Epoch(w.s, r.Peer()) && Owns(r.Peer(), i)
            && c.Packet? && c.header.dhPub == w.s.Pub(i)
            && c.body == Box(w.s.Message(i, c.header.msgNo), w.s.ad, w.log[x].plaintext)
            && c.header.prevNo == Count(w.log, i - 2)
            && c.header.msgNo < Count(w.log, i)
            && (!Stale(w.s, r, c) ==> i == Epoch(w.s, r) - 1 || i == Epoch(w.s, r) + 1)
  {
    hide InSync, Retained, StepsOk, CountersOk, Schedule.Message;
    assert PartyOk(w, r);
    x :| 0 <= x < |w.log| && w.log[x].sender == r.Peer() && w.log[x].out == Some(c);
    assert EntryOk(w.s, w.log, x);
    CountGrows(w.log, x, |w.log|);
    assert w.log[..|w.log|] == w.log;
  }

  lemma {:induction false} RetainedAdvance(p: Ratchet, r: Role, s: Schedule, taken: set<(Pub, nat)>, n: nat)
    requires s.Valid() && Epoch(s, r) >= 2 && p.recvNo <= n
    requires Retained(p, r, s, taken)
    ensures Retained(Advanced(p, r, s, n), r, s, taken + {(s.Pub(Epoch(s, r) - 1), n)})
  {
    var i := Epoch(s, r) - 1;
    var q := Advanced(p, r, s, n);
    forall m | 0 <= m < n
      ensures (s.Pub(i), m) in taken || HasKey(q, s.Pub(i), m)
    {
      SkipInsertsFind(p.buffer, s.Pub(i), s.Chain(i, p.recvNo), p.recvNo, n, m);
    }
  }

  /** Receiving on the current chain, for a ratchet that is retained. */
  lemma {:induction false} ReceiveKeeps(
    p: Ratchet, r: Role, s: Schedule, taken: set<(Pub, nat)>, c: Ciphertext, plaintext: Bytes)
    requires InSync(p, r, s) && Running(p, r, s) && Epoch(s, r) >= 2
    requires Retained(p, r, s, taken)
    requires c.Packet? && p.peer == Some(c.header.dhPub)
    requires c.body == Box(s.Message(Epoch(s, r) - 1, c.header.msgNo), s.ad, plaintext)
    ensures var o := p.Receive(c.header, c.body);
            && InSync(o.state, r, s) && Running(o.state, r, s)
            && o.state == p.(recv := o.state.recv, recvNo := o.state.recvNo, buffer := o.state.buffer)
            && (o.result.Ok? ==> o.result == Ok(plaintext))
            && (o.result.Err? ==> o.state == p)
            && Retained(o.state, r, s, taken + if o.result.Ok? then {(c.header.dhPub, c.header.msgNo)} else {})
            && (o.result.Ok? <==>
                  && c.header.msgNo <= p.recvNo + MAX_SKIP_ELEMENTS
                  && (c.header.msgNo < p.recvNo ==> HasKey(p, c.header.dhPub, c.header.msgNo)))
  {
    ReceiveInSync(p, r, s, c.header, c.body);
    if p.recvNo <= c.header.msgNo {
      RetainedAdvance(p, r, s, taken, c.header.msgNo);
    }
  }

  lemma {:induction false} DeliveredIs(w: World, r: Role, c: Ciphertext, draw: KeyId)
    requires w.Party(r).recv.Some? ==> w.Party(r).peer.Some?
    ensures var v, o := Delivered(w, r, c, draw), w.Party(r).Decrypt(c, draw);
            && v.Party(r) == o.state && v.Party(r.Peer()) == w.Party(r.Peer())
            && v.log == w.log && v.Net(r.Peer()) == w.Net(r.Peer()) && v.Net(r) == w.Net(r) - multiset{c}
            && v.taken == w.taken + (if o.result.Ok? && c.Packet? then {(c.header.dhPub, c.header.msgNo)} else {})
            && v.s == (if o.state.dhr.pub != w.Party(r).dhr.pub then w.s.Draw(draw) else w.s)
            && v.Steps(r) == w.Steps(r) + (if o.state.dhr.root != w.Party(r).dhr.root then 1 else 0)
            && v.Steps(r.Peer()) == w.Steps(r.Peer())
  {
    hide Ratchet.Decrypt, Schedule.Draw;
    match r
    case Alice =>
    case Bob =>
  }

  /** A party that did not move is fine in a world whose schedule may have grown. */
  lemma {:induction false} PeerKeeps(w: World, v: World, q: Role)
    requires w.s.Valid() && v.s.Valid() && PartyOk(w, q)
    requires v.Party(q) == w.Party(q) && v.Steps(q) == w.Steps(q) && v.log == w.log
    requires v.Net(q) <= w.Net(q) && w.taken <= v.taken
    requires InSync(w.Party(q), q, v.s)
    requires w.s.keys <= v.s.keys && Epoch(v.s, q) == Epoch(w.s, q)
    ensures PartyOk(v, q)
  {
    hide InSync;
    if Epoch(w.s, q) >= 2 {
      assert v.s.Pub(Epoch(w.s, q) - 1) == w.s.Pub(Epoch(w.s, q) - 1);
    }
  }

  lemma {:induction false} MoverKeeps(w: World, v: World, r: Role)
    requires w.s.Valid() && v.s.Valid() && PartyOk(w, r)
    requires v.log == w.log && v.Net(r) <= w.Net(r)
    requires InSync(v.Party(r), r, v.s) && CountersOk(v.Party(r), r, v.s, w.log)
    requires Retained(v.Party(r), r, v.s, v.taken) && StepsOk(v.Party(r), r, v.s, v.Steps(r))
    ensures PartyOk(v, r)
  {
    hide InSync, CountersOk, Retained, StepsOk;
  }

  lemma {:induction false} DeliverCurrent(w: World, r: Role, c: Ciphertext, draw: KeyId, x: nat)
    requires Inv(w) && x < |w.log| && Epoch(w.s, r) >= 2 && Running(w.Party(r), r, w.s)
    requires c.Packet? && c.header.dhPub == w.s.Pub(Epoch(w.s, r) - 1)
    requires c.body == Box(w.s.Message(Epoch(w.s, r) - 1, c.header.msgNo), w.s.ad, w.log[x].plaintext)
    ensures Inv(Delivered(w, r, c, draw))
    ensures var o := w.Party(r).Decrypt(c, draw);
            && (o.result.Ok? ==> o.result == Ok(w.log[x].plaintext))
            && (o.result.Ok? <==>
                  && c.header.msgNo <= w.Party(r).recvNo + MAX_SKIP_ELEMENTS
                  && (c.header.msgNo < w.Party(r).recvNo ==> HasKey(w.Party(r), c.header.dhPub, c.header.msgNo)))
  {
    hide InSync, CacheSound, LogOk, NetOk, StepsOk, Retained, Ratchet.Receive, Delivered, HasKey;
    var p, v := w.Party(r), Delivered(w, r, c, draw);
    assert PartyOk(w, r) && PartyOk(w, r.Peer());
    ReceiveKeeps(p, r, w.s, w.taken, c, w.log[x].plaintext);
    assert p.Decrypt(c, draw) == p.Receive(c.header, c.body);
    DeliveredIs(w, r, c, draw);
    StepsFrame(p, v.Party(r), r, w.s, w.Steps(r));
    MoverKeeps(w, v, r);
    PeerKeeps(w, v, r.Peer());
  }

  lemma {:induction false} StepsFrame(p: Ratchet, q: Ratchet, r: Role, s: Schedule, steps: nat)
    requires |s.keys| >= 2 && StepsOk(p, r, s, steps) && q.dhr == p.dhr
    ensures StepsOk(q, r, s, steps)
  {
  }

  lemma {:induction false} LogDraw(s: Schedule, log: seq<Sent>, k: KeyId)
    requires s.Valid() && LogOk(s, log)
    ensures LogOk(s.Draw(k), log)
    ensures Count(log, |s.keys|) == 0
  {
    forall x | 0 <= x < |log|
      ensures EntryOk(s.Draw(k), log, x) && log[x].chain != |s.keys|
    {
      assert EntryOk(s, log, x);
      if log[x].out.Some? {
        DrawKeeps(s, k, log[x].chain, log[x].out.value.header.msgNo);
      }
    }
    CountAbsent(log, |s.keys|);
  }

  /** The peer of a party that can be sent a next chain is under way itself. */
  lemma {:induction false} SenderRuns(w: World, r: Role, x: nat)
    requires Inv(w) && x < |w.log| && w.log[x].chain == Epoch(w.s, r) + 1 && w.log[x].sender == r.Peer()
    ensures Running(w.Party(r.Peer()), r.Peer(), w.s)
    ensures Epoch(w.s, r.Peer()) == |w.s.keys| - 1 && Epoch(w.s, r) == |w.s.keys| - 2
    ensures !(r == Alice && Waiting(w.Party(r), w.s))
    ensures w.Party(r).peer != Some(w.s.Pub(Epoch(w.s, r) + 1))
  {
    assert PartyOk(w, r.Peer()) && PartyOk(w, r);
    assert EntryOk(w.s, w.log, x);
    CountGrows(w.log, x, |w.log|);
    assert w.log[..|w.log|] == w.log;
  }

  /** A party that can be sent a packet of its current receiving chain is under way. */
  lemma {:induction false} CurrentRuns(w: World, r: Role, x: nat)
    requires Inv(w) && x < |w.log| && w.log[x].chain == Epoch(w.s, r) - 1
    ensures Epoch(w.s, r) >= 2 && Running(w.Party(r), r, w.s)
  {
    assert PartyOk(w, r);
    assert EntryOk(w.s, w.log, x);
  }

  /** The new schedule and the receiver's state right after it followed the peer. */
  lemma {:induction false} RekeyKeeps(w: World, r: Role, c: Ciphertext, k: KeyId, x: nat)
    requires Inv(w) && k !in w.s.keys && x < |w.log|
    requires w.log[x].sender == r.Peer() && w.log[x].chain == Epoch(w.s, r) + 1 < |w.s.keys|
    requires c.Packet? && c.header.dhPub == w.s.Pub(Epoch(w.s, r) + 1)
    requires c.header.prevNo <= w.Party(r).recvNo + MAX_SKIP_ELEMENTS
    ensures var o, t := w.Party(r).Rekey(c.header, k), w.s.Draw(k);
            && o.result.Ok? && InSync(o.state, r, t) && Running(o.state, r, t)
            && Epoch(t, r) == Epoch(w.s, r) + 2
            && o.state.recvNo == 0 && CountersOk(o.state, r, t, w.log) && StepsOk(o.state, r, t, w.Steps(r) + 1)
            && o.state.peer == Some(c.header.dhPub)
            && o.state.dhr.pub == Point(k) != w.Party(r).dhr.pub && o.state.dhr.root != w.Party(r).dhr.root
            && LogOk(t, w.log) && t.Valid()
            && InSync(w.Party(r.Peer()), r.Peer(), t) && Epoch(t, r.Peer()) == Epoch(w.s, r.Peer())
  {
    hide InSync, Running, LogOk, NetOk, Retained, Waiting, Listening, Ratchet.Rekey;
    InvValid(w);
    var p := w.Party(r);
    assert PartyOk(w, r) && PartyOk(w, r.Peer());
    SenderRuns(w, r, x);
    RekeyInSync(p, r, w.s, c.header, k);
    PeerDraws(w.Party(r.Peer()), r.Peer(), w.s, k);
    LogDraw(w.s, w.log, k);
    KeysMove(p, p.Rekey(c.header, k).state, r, w.s, k);
  }

  /** Moving on to a new key pair changes the announced key and the root key. */
  lemma {:induction false} KeysMove(p: Ratchet, q: Ratchet, r: Role, s: Schedule, k: KeyId)
    requires InSync(p, r, s) && k !in s.keys && Running(q, r, s.Draw(k)) && Epoch(s.Draw(k), r) == |s.keys|
    requires !(r == Alice && Waiting(p, s))
    ensures q.dhr.pub == Point(k) != p.dhr.pub && q.dhr.root != p.dhr.root
    ensures r == Alice ==> q.dhr.initialized && p.dhr.initialized
  {
    hide CacheSound;
    RootDepthOf(s.keys, s.seed, Epoch(s, r));
    RootDepthOf(s.Draw(k).keys, s.seed, |s.keys|);
  }

  /** The receiver after it followed the peer and took the packet, accepted or not. */
  lemma {:induction false} FollowerKeeps(w: World, r: Role, c: Ciphertext, k: KeyId, x: nat)
    requires Inv(w) && k !in w.s.keys && x < |w.log|
    requires w.log[x].sender == r.Peer() && w.log[x].chain == Epoch(w.s, r) + 1 < |w.s.keys|
    requires c.Packet? && c.header.dhPub == w.s.Pub(Epoch(w.s, r) + 1)
    requires c.body == Box(w.s.Message(Epoch(w.s, r) + 1, c.header.msgNo), w.s.ad, w.log[x].plaintext)
    requires c.header.prevNo <= w.Party(r).recvNo + MAX_SKIP_ELEMENTS
    ensures w.Party(r).recv.Some? ==> w.Party(r).peer.Some?
    ensures var o, t := w.Party(r).Decrypt(c, k), w.s.Draw(k);
            && InSync(o.state, r, t) && CountersOk(o.state, r, t, w.log) && StepsOk(o.state, r, t, w.Steps(r) + 1)
            && Retained(o.state, r, t, w.taken + if o.result.Ok? then {(c.header.dhPub, c.header.msgNo)} else {})
            && o.state.dhr.pub != w.Party(r).dhr.pub && o.state.dhr.root != w.Party(r).dhr.root
            && (o.result.Ok? ==> o.result == Ok(w.log[x].plaintext))
            && (o.result.Ok? <==> c.header.msgNo <= MAX_SKIP_ELEMENTS)
  {
    hide Inv, InSync, Retained, Running, CountersOk, StepsOk, LogOk;
    hide Ratchet.Rekey, Ratchet.Receive, HasKey, Schedule.Message, Count, Waiting;
    InvValid(w);
    SenderRuns(w, r, x);
    RekeyKeeps(w, r, c, k, x);
    var q, t := w.Party(r).Rekey(c.header, k).state, w.s.Draw(k);
    var o := q.Receive(c.header, c.body);
    assert w.Party(r).Decrypt(c, k) == o;
    DrawKeeps(w.s, k, Epoch(w.s, r) + 1, c.header.msgNo);
    RetainedEmpty(q, r, t, w.taken);
    ReceiveKeeps(q, r, t, w.taken, c, w.log[x].plaintext);
    StepsFrame(q, o.state, r, t, w.Steps(r) + 1);
    CountersFrame(q, o.state, r, t, w.log);
  }

  lemma {:induction false} DeliverFollows(w: World, r: Role, c: Ciphertext, k: KeyId, x: nat)
    requires Inv(w) && k !in w.s.keys && x < |w.log|
    requires w.log[x].sender == r.Peer() && w.log[x].chain == Epoch(w.s, r) + 1 < |w.s.keys|
    requires c.Packet? && c.header.dhPub == w.s.Pub(Epoch(w.s, r) + 1)
    requires c.body == Box(w.s.Message(Epoch(w.s, r) + 1, c.header.msgNo), w.s.ad, w.log[x].plaintext)
    requires c.header.prevNo <= w.Party(r).recvNo + MAX_SKIP_ELEMENTS
    ensures Inv(Delivered(w, r, c, k))
    ensures var o := w.Party(r).Decrypt(c, k);
            && (o.result.Ok? ==> o.result == Ok(w.log[x].plaintext))
            && (o.result.Ok? <==> c.header.msgNo <= MAX_SKIP_ELEMENTS)
  {
    hide InSync, LogOk, NetOk, Retained, Running, CountersOk, StepsOk;
    hide Ratchet.Decrypt, Ratchet.Rekey, Delivered, Schedule.Message, Count;
    FollowerKeeps(w, r, c, k, x);
    var v := Delivered(w, r, c, k);
    assert PartyOk(w, r) && PartyOk(w, r.Peer());
    DeliveredIs(w, r, c, k);
    RekeyKeeps(w, r, c, k, x);
    MoverKeeps(w, v, r);
    PeerKeeps(w, v, r.Peer());
  }

  lemma {:induction false} CountersFrame(p: Ratchet, q: Ratchet, r: Role, s: Schedule, log: seq<Sent>)
    requires |s.keys| >= 2 && CountersOk(p, r, s, log) && q.sendNo == p.sendNo && q.prevSendNo == p.prevSendNo
    ensures CountersOk(q, r, s, log)
  {
  }

  lemma {:induction false} DeliverNext(w: World, r: Role, c: Ciphertext, k: KeyId, x: nat)
    requires Inv(w) && k !in w.s.keys && x < |w.log|
    requires w.log[x].sender == r.Peer() && w.log[x].chain == Epoch(w.s, r) + 1 < |w.s.keys|
    requires c.Packet? && c.header.dhPub == w.s.Pub(Epoch(w.s, r) + 1)
    requires c.body == Box(w.s.Message(Epoch(w.s, r) + 1, c.header.msgNo), w.s.ad, w.log[x].plaintext)
    ensures Inv(Delivered(w, r, c, k))
    ensures var o := w.Party(r).Decrypt(c, k);
            && (o.result.Ok? ==> o.result == Ok(w.log[x].plaintext))
            && (o.result.Ok? <==>
                  && c.header.prevNo <= w.Party(r).recvNo + MAX_SKIP_ELEMENTS
                  && c.header.msgNo <= MAX_SKIP_ELEMENTS)
  {
    hide InSync, LogOk, NetOk, Retained, Running, CountersOk, StepsOk, Ratchet.Decrypt, Delivered, Schedule.Message;
    InvValid(w);
    var p, v := w.Party(r), Delivered(w, r, c, k);
    assert PartyOk(w, r) && PartyOk(w, r.Peer());
    if p.recvNo + MAX_SKIP_ELEMENTS < c.header.prevNo {
      SenderRuns(w, r, x);
      RefusesNext(p, c, k);
      StaysAsItWas(w, r, c, k);
    } else {
      DeliverFollows(w, r, c, k, x);
    }
  }

  lemma {:induction false} RefusesNext(p: Ratchet, c: Ciphertext, k: KeyId)
    requires (p.recv.Some? ==> p.peer.Some?) && c.Packet? && p.peer != Some(c.header.dhPub)
    requires p.recvNo + MAX_SKIP_ELEMENTS < c.header.prevNo
    ensures p.Decrypt(c, k) == Outcome(p, Err(TooManySkipped))
  {
  }

  /** A refused delivery that changes nothing but the network keeps the invariant. */
  lemma {:induction false} StaysAsItWas(w: World, r: Role, c: Ciphertext, k: KeyId)
    requires Inv(w) && (w.Party(r).recv.Some? ==> w.Party(r).peer.Some?)
    requires w.Party(r).Decrypt(c, k).result.Err? && w.Party(r).Decrypt(c, k).state == w.Party(r)
    ensures Inv(Delivered(w, r, c, k))
  {
    hide InSync, LogOk, NetOk, Retained, CountersOk, StepsOk, Ratchet.Decrypt, Delivered;
    var v := Delivered(w, r, c, k);
    assert PartyOk(w, r) && PartyOk(w, r.Peer());
    DeliveredIs(w, r, c, k);
    assert v.taken == w.taken;
    MoverKeeps(w, v, r);
    PeerKeeps(w, v, r.Peer());
  }

  lemma {:induction false} RetainedEmpty(p: Ratchet, r: Role, s: Schedule, taken: set<(Pub, nat)>)
    requires |s.keys| >= 2 && p.recvNo == 0
    ensures Retained(p, r, s, taken)
  {
  }

  // ---------- Every step, every run ----------

  lemma {:induction false} DeliverKeepsInv(w: World, r: Role, c: Ciphertext, draw: KeyId)
    requires Inv(w) && Enabled(w, Deliver(r, c, draw))
    ensures Inv(Delivered(w, r, c, draw))
  {
    hide Inv, Running;
    var x := PacketShape(w, r, c);
    if w.log[x].chain == Epoch(w.s, r) - 1 {
      CurrentRuns(w, r, x);
      DeliverCurrent(w, r, c, draw, x);
    } else {
      DeliverNext(w, r, c, draw, x);
    }
  }

  /** Packets come and go without a party noticing. */
  lemma {:induction false} NetKeepsInv(w: World, r: Role, net: multiset<Ciphertext>)
    requires Inv(w)
    requires forall c :: c in net ==> c in w.Net(r)
    ensures Inv(w.WithNet(r, net))
  {
    hide InSync, CountersOk, Retained, StepsOk, LogOk;
    var v := w.WithNet(r, net);
    assert PartyOk(w, Alice) && PartyOk(w, Bob);
    assert PartyOk(v, Alice) && PartyOk(v, Bob);
  }

  /** Every step keeps the invariant, including deliveries that are rejected. */
  lemma {:induction false} StepKeepsInv(w: World, ev: Event)
    requires Inv(w) && Enabled(w, ev)
    ensures (forall r: Role :: w.Party(r).recv.Some? ==> w.Party(r).peer.Some?) && Inv(After(w, ev))
  {
    hide Inv, Encrypted, Delivered, Stale;
    InvValid(w);
    match ev
    case Encrypt(r, plaintext, draw) => EncryptKeepsInv(w, r, plaintext, draw);
    case Deliver(r, c, draw) => DeliverKeepsInv(w, r, c, draw);
    case Drop(r, c) => NetKeepsInv(w, r, w.Net(r) - multiset{c});
    case Duplicate(r, c) => NetKeepsInv(w, r, w.Net(r) + multiset{c});
  }

  /** Both parties right after they agreed on a session key. */
  function Start(seed: Key, ad: AssociatedData, spk: KeyId, own: KeyId): World {
    World(CreateActive(seed, ad, Point(spk), own), CreatePassive(seed, ad, Point(spk), spk),
          multiset{}, multiset{}, Schedule([spk, own], seed, ad), [], {}, 0, 0)
  }

  /** `w` is the world after the events `evs` from the world `v`, each of them enabled. */
  ghost predicate Run(v: World, evs: seq<Event>, w: World)
    decreases |evs|
  {
    if |evs| == 0 then v == w
    else
      && |v.s.keys| >= 2
      && (forall r: Role :: v.Party(r).recv.Some? ==> v.Party(r).peer.Some?)
      && Enabled(v, evs[0])
      && Run(After(v, evs[0]), evs[1..], w)
  }

  lemma {:induction false} RunKeepsInv(v: World, evs: seq<Event>, w: World)
    requires Inv(v) && Run(v, evs, w)
    ensures Inv(w)
    decreases |evs|
  {
    if |evs| > 0 {
      StepKeepsInv(v, evs[0]);
      RunKeepsInv(After(v, evs[0]), evs[1..], w);
    }
  }

  lemma {:induction false} StartInv(seed: Key, ad: AssociatedData, spk: KeyId, own: KeyId)
    requires spk != own
    ensures Inv(Start(seed, ad, spk, own))
  {
    var v := Start(seed, ad, spk, own);
    assert PartyOk(v, Alice) && PartyOk(v, Bob);
  }

  ghost predicate Reachable(w: World) {
    exists seed, ad, spk, own, evs :: spk != own && Run(Start(seed, ad, spk, own), evs, w)
  }

  /** The relation between the two ratchets holds in every world that any run reaches. */
  lemma {:induction false} ReachableInv(w: World)
    requires Reachable(w)
    ensures Inv(w)
  {
    hide Run, Inv;
    var seed, ad, spk, own, evs :| spk != own && Run(Start(seed, ad, spk, own), evs, w);
    StartInv(seed, ad, spk, own);
    RunKeepsInv(Start(seed, ad, spk, own), evs, w);
  }
}
