/**
 Runs with each of the three exceptions.  A ratchet in memory that follows its peer's next chain and
 only then finds the message out of reach has moved on to a new chain of its own; a client that
 does not store a failed operation has not, and goes on where it was.
 */
module Exceptions {
  import opened Keys
  import opened SkippedKeys
  import opened Ratchets
  import opened Persistence
  import opened Sync
  import opened Logs
  import opened Sides
  import opened Simulation

  const FIRST: Pair := Start(OnSuccess, Seed(0), [], 0, 1)

  /** `q` is where the events lead, none of them an exception. */
  ghost predicate Leads(p: Pair, evs: seq<Event>, q: Pair)
    decreases |evs|
  {
    if |evs| == 0 then p == q
    else
      && Loads(p.m) && Loads(p.c) && Enabled(p, evs[0]) && !Exception(p, evs[0])
      && Leads(After(p, evs[0]), evs[1..], q)
  }

  lemma {:induction false} LeadsFurther(p: Pair, evs: seq<Event>, q: Pair, ev: Event)
    requires Leads(p, evs, q) && Loads(q.m) && Loads(q.c) && Enabled(q, ev)
    ensures Possible(p, evs + [ev]) && (NoException(p, evs + [ev]) <==> !Exception(q, ev))
    ensures !Exception(q, ev) ==> Leads(p, evs + [ev], After(q, ev))
    decreases |evs|
  {
    hide After, Enabled, Loads, Exception;
    if |evs| == 0 {
      assert (evs + [ev])[1..] == [];
    } else {
      LeadsFurther(After(p, evs[0]), evs[1..], q, ev);
      assert (evs + [ev])[1..] == evs[1..] + [ev];
    }
  }

  ghost predicate Reached(p: Pair) {
    PairInv(p) && exists evs :: Leads(FIRST, evs, p)
  }

  lemma {:induction false} ReachedNext(p: Pair, ev: Event)
    requires Reached(p) && Loads(p.m) && Loads(p.c) && Enabled(p, ev) && !Exception(p, ev)
    ensures Reached(After(p, ev))
  {
    hide PairInv, After, Enabled, Loads, Leads, Exception;
    var evs :| Leads(FIRST, evs, p);
    LeadsFurther(FIRST, evs, p, ev);
    OneStep(p, ev);
  }

  lemma {:induction false} ReachedInv(p: Pair)
    requires Reached(p)
    ensures PairInv(p) && |p.m.s.keys| >= 2 && |p.c.s.keys| >= 2 && p.m.s.Valid() && p.c.s.Valid()
  {
    hide SideInv, Leads, Common, Mode;
    SideValid(p.m);
    SideValid(p.c);
  }

  // ---------- Sending ----------

  lemma {:induction false} Say(p: Pair, r: Role, draw: KeyId) returns (q: Pair)
    requires Reached(p) && p.policy == OnSuccess && draw !in p.m.s.keys && draw !in p.c.s.keys
    requires MaySend(p.m, r) && MaySend(p.c, r)
    ensures |p.m.s.keys| >= 2 && |p.c.s.keys| >= 2 && Grew(p.m, q.m, r, InMemory) && Grew(p.c, q.c, r, OnSuccess)
    ensures Reached(q) && q.policy == OnSuccess && q.aliceNext == p.aliceNext && q.bobNext == p.bobNext
    ensures (Lock(p.m, p.c) ==> Lock(q.m, q.c)) && (Deaf(p, Bob) ==> Deaf(q, Bob))
  {
    hide SideInv, Ratchet.Encrypt, Lock, Deaf, Mode, Leads, Common, Grew, After, Reached, Loads;
    ReachedInv(p);
    PairLoads(p);
    var ev := Event.Encrypt(r, [], draw);
    EncryptBoth(p, r, [], draw);
    if Lock(p.m, p.c) {
      EncryptLocked(p, r, [], draw);
    }
    if Deaf(p, Bob) {
      DeafSends(p, After(p, ev), r, Bob);
    }
    ReachedNext(p, ev);
    q := After(p, ev);
  }

  /** What `n` sends do to a side. */
  ghost predicate GrewBy(v: Side, w: Side, r: Role, n: nat)
    requires |v.s.keys| >= 2
  {
    && w.s == v.s && w.Party(r.Peer()) == v.Party(r.Peer()) && w.Log(r.Peer()) == v.Log(r.Peer())
    && |w.Log(r)| == |v.Log(r)| + n
    && w.Party(r).sendNo == v.Party(r).sendNo + n && w.Party(r).prevSendNo == v.Party(r).prevSendNo
    && w.Party(r).recvNo == v.Party(r).recvNo
    && (n > 0 ==>
          var e := w.Log(r)[|w.Log(r)| - 1];
          e.chain == Epoch(v.s, r) && e.Made() && e.Head().msgNo == v.Party(r).sendNo + n - 1)
  }

  lemma {:induction false} SayMany(p: Pair, r: Role, n: nat, draw: KeyId) returns (q: Pair)
    requires Reached(p) && p.policy == OnSuccess && draw !in p.m.s.keys && draw !in p.c.s.keys
    requires MaySend(p.m, r) && MaySend(p.c, r)
    requires p.m.Party(r).sendNo + n <= NUMBER_LIMIT && p.c.Party(r).sendNo + n <= NUMBER_LIMIT
    ensures |p.m.s.keys| >= 2 && |p.c.s.keys| >= 2 && GrewBy(p.m, q.m, r, n) && GrewBy(p.c, q.c, r, n)
    ensures Reached(q) && q.policy == OnSuccess && q.aliceNext == p.aliceNext && q.bobNext == p.bobNext
    ensures (Lock(p.m, p.c) ==> Lock(q.m, q.c)) && (Deaf(p, Bob) ==> Deaf(q, Bob))
  {
    hide Reached, Lock, Deaf;
    if n == 0 {
      ReachedInv(p);
      q := p;
    } else {
      var m := SayMany(p, r, n - 1, draw);
      q := Say(m, r, draw);
    }
  }

  // ---------- Reading ----------

  /** `r` reads message `x` of its peer's next chain, in lock step; it fits, or is too far away. */
  lemma {:induction false} Hear(p: Pair, r: Role, x: nat, draw: KeyId) returns (q: Pair)
    requires Reached(p) && Lock(p.m, p.c) && p.policy == OnSuccess && draw !in p.m.s.keys && |p.m.s.keys| >= 2
    requires p.Next(r) <= x < |p.m.Log(r.Peer())|
    requires var e := p.m.Log(r.Peer())[x];
             e.Made() && e.chain == Epoch(p.m.s, r) + 1 && p.m.Party(r.Peer()).prevSendNo <= p.m.Party(r).recvNo
    ensures Reached(q) && q.policy == OnSuccess && q.Next(r) == x + 1 && q.Next(r.Peer()) == p.Next(r.Peer())
    ensures q.m.Log(r) == p.m.Log(r) && q.m.Log(r.Peer()) == p.m.Log(r.Peer())
    ensures q.m.Party(r.Peer()) == p.m.Party(r.Peer())
    ensures q.m.s == p.m.s.Draw(draw) && q.m.Party(r).sendNo == 0 && q.m.Party(r).prevSendNo == p.m.Party(r).sendNo
    ensures var n := p.m.Log(r.Peer())[x].Head().msgNo;
            if n <= MAX_SKIP_ELEMENTS then Lock(q.m, q.c) && q.m.Party(r).recvNo == n + 1
            else Deaf(q, r) && q.c == p.c && q.m.At(r.Peer()) == p.m.At(r.Peer())
  {
    hide InSync, Running, SideInv, Ratchet.Decrypt, Delivered, Lock, Leads, Stuck, Deaf, Mute, Mode, Schedule.Message;
    hide Reached, KeepsUp, After, Moved, Reloaded;
    ReachedInv(p);
    PairLoads(p);
    ChainsLocked(p, r, x);
    var ev := Event.Deliver(r, x, draw);
    assert Common(p, r);
    DeliverBoth(p, r, x, draw);
    DeliverLocked(p, r, x, draw);
    ReachedNext(p, ev);
    NextMoves(p, r, x, draw);
    ChainOfNext(p.m, r, x);
    DecryptNext(p.m, r, x, draw);
    DeliveredIs(p.m, r, x, draw, InMemory);
    if p.m.Log(r.Peer())[x].Head().msgNo <= MAX_SKIP_ELEMENTS {
      StaysLocked(p, r, x, draw);
    } else {
      BecomesDeaf(p, r, x, draw);
      ClientRefuses(p, r, x, draw);
    }
    q := After(p, ev);
  }

  lemma {:induction false} ClientRefuses(p: Pair, r: Role, x: nat, draw: KeyId)
    requires Loads(p.m) && Loads(p.c) && Enabled(p, Deliver(r, x, draw)) && BothMove(p, r, x, draw)
    requires p.policy == OnSuccess && !Fits(p.c, r, x)
    ensures After(p, Deliver(r, x, draw)).c == p.c
  {
    hide SideInv, Common, KeepsUp, After, Fits;
  }

  /** In lock step the client's counters are those in memory, but for the length of the chain before. */
  lemma {:induction false} LockFacts(p: Pair, r: Role)
    requires Reached(p) && Lock(p.m, p.c) && p.m.Party(r).sendNo < NUMBER_LIMIT
    ensures p.c.s == p.m.s && |p.c.Log(r.Peer())| == |p.m.Log(r.Peer())| && |p.c.Log(r)| == |p.m.Log(r)|
    ensures p.c.Party(r).sendNo == p.m.Party(r).sendNo && p.c.Party(r).prevSendNo == 0
  {
    hide Leads, PairInv, Alike;
  }

  // ---------- The runs ----------

  lemma {:induction false} FirstReached()
    ensures Reached(FIRST) && Lock(FIRST.m, FIRST.c)
  {
    StartPair(OnSuccess, Seed(0), [], 0, 1);
    assert Leads(FIRST, [], FIRST);
    assert Related(FIRST.m.alice, FIRST.c.alice) && Related(FIRST.m.bob, FIRST.c.bob);
    hide PairInv;
  }

  /** One message each way, and a second one by Bob that Alice has not read. */
  lemma {:induction false} FirstExchange() returns (p: Pair)
    ensures Reached(p) && Lock(p.m, p.c) && p.policy == OnSuccess && p.m.s.keys == [0, 1, 2, 3]
    ensures p.m.alice.sendNo == 0 && p.m.alice.recvNo == 1 && p.m.alice.prevSendNo == 1
    ensures p.m.bob.sendNo == 2 && p.m.bob.recvNo == 1 && p.m.bob.prevSendNo == 0
    ensures |p.m.aliceLog| == 1 && |p.m.bobLog| == 2 && p.aliceNext == 1 && p.bobNext == 1
  {
    hide Reached, Lock;
    FirstReached();
    LockFacts(FIRST, Alice);
    var p1 := Say(FIRST, Alice, 9);
    var p2 := Hear(p1, Bob, 0, 2);
    LockFacts(p2, Bob);
    assert p2.m.s.keys == [0, 1, 2];
    var p3 := Say(p2, Bob, 9);
    var p4 := Hear(p3, Alice, 0, 3);
    LockFacts(p4, Bob);
    p := Say(p4, Bob, 9);
  }

  /** Alice's first 33 messages on her next chain are lost, and Bob oversteps at the one after. */
  lemma {:induction false} BobOversteps() returns (p: Pair)
    ensures Reached(p) && Deaf(p, Bob) && p.policy == OnSuccess
    ensures p.m.s.keys == [0, 1, 2, 3, 4] && p.c.s.keys == [0, 1, 2, 3]
    ensures p.m.bob.sendNo == 0 && p.m.bob.prevSendNo == 2 && p.c.bob.sendNo == 2 && p.c.bob.prevSendNo == 0
    ensures p.m.alice.recvNo == 1 && |p.m.bobLog| == |p.c.bobLog| == 2 && p.aliceNext == 1
  {
    hide Reached, Lock, Deaf;
    var p0 := FirstExchange();
    LockFacts(p0, Alice);
    LockFacts(p0, Bob);
    var p1 := SayMany(p0, Alice, 34, 9);
    LockFacts(p1, Bob);
    LockFacts(p1, Alice);
    assert p1.m.Log(Alice)[34].chain == 3;
    p := Hear(p1, Bob, 34, 4);
  }

  /** His unread message and 32 more on his new chain are lost, and Alice reads the one after. */
  lemma {:induction false} ShortcutHappens() returns (q: Pair, ev: Event, evs: seq<Event>)
    ensures Loads(q.m) && Loads(q.c) && Enabled(q, ev) && Shortcut(q, ev)
    ensures Possible(FIRST, evs) && !ClientsKeepUp(FIRST, evs)
  {
    hide Reached, Lock, Deaf, Leads, Loads, Enabled, Shortcut, Possible, ClientsKeepUp, PairInv, Start;
    var p := BobOversteps();
    q := SayMany(p, Bob, 33, 9);
    ReachedInv(q);
    assert q.m.Log(Bob)[34].chain == 4;
    IsShortcut(q, 5);
    ev := Event.Deliver(Alice, 34, 5);
    evs := EndsBadly(q, ev);
  }

  /** Bob talks on: in memory he has 65536 numbers on his new chain, at the client two are used already. */
  lemma {:induction false} ExhaustionHappens() returns (q: Pair, ev: Event, evs: seq<Event>)
    ensures Loads(q.m) && Loads(q.c) && Enabled(q, ev) && Exhausted(q, ev)
    ensures Possible(FIRST, evs) && !ClientsKeepUp(FIRST, evs)
  {
    hide Reached, Lock, Deaf, Leads, Possible, ClientsKeepUp, PairInv, Start, Loads;
    var p := BobOversteps();
    q := SayMany(p, Bob, 65534, 9);
    ReachedInv(q);
    PairLoads(q);
    ev := Event.Encrypt(Bob, [], 9);
    assert Exhausted(q, ev);
    evs := EndsBadly(q, ev);
  }

  /** Alice's first 33 messages of the session are lost: Bob can answer the next one in memory only. */
  lemma {:induction false} UnopenedHappens() returns (q: Pair, ev: Event, evs: seq<Event>)
    ensures Loads(q.m) && Loads(q.c) && Enabled(q, ev) && Unopened(q, ev)
    ensures Possible(FIRST, evs) && !ClientsKeepUp(FIRST, evs)
  {
    hide Reached, Lock, Deaf, Leads, Possible, ClientsKeepUp, PairInv, Loads;
    FirstReached();
    LockFacts(FIRST, Alice);
    var p := SayMany(FIRST, Alice, 34, 9);
    LockFacts(p, Bob);
    assert p.m.Log(Alice)[33].chain == 1;
    q := Hear(p, Bob, 33, 2);
    ReachedInv(q);
    PairLoads(q);
    ev := Event.Encrypt(Bob, [], 9);
    assert Unopened(q, ev);
    evs := EndsBadly(q, ev);
  }

  lemma {:induction false} IsShortcut(q: Pair, k: KeyId)
    requires PairInv(q) && Deaf(q, Bob) && q.m.s.keys == [0, 1, 2, 3, 4] && k !in q.m.s.keys && k !in q.c.s.keys
    requires |q.m.bobLog| == |q.c.bobLog| == 35 && q.aliceNext <= 34
    requires q.m.bobLog[34].chain == 4 && q.m.bobLog[34].Made() && q.m.bobLog[34].Head().msgNo == 32
    requires q.m.bob.prevSendNo == 2 && q.m.alice.recvNo == 1
    ensures Loads(q.m) && Loads(q.c) && Enabled(q, Event.Deliver(Alice, 34, k))
    ensures Shortcut(q, Event.Deliver(Alice, 34, k))
  {
    hide SideInv, Mode, Deaf, After, LogOk, CursorOk, InSync, Reloaded;
    PairLoads(q);
    assert Common(q, Alice) && Common(q, Bob);
    DeafAt(q, Bob);
    FromDeafMemory(q, 34, Bob);
    FromDeafClient(q, 34, Bob);
    InvOf(q.m, Bob);
    LogEntry(q.m.s, q.m.bobLog, Bob, q.m.bob.prevSendNo, 34);
  }

  lemma {:induction false} DeafAt(p: Pair, b: Role)
    requires Deaf(p, b)
    ensures p.m.At(b.Peer()) == p.c.At(b.Peer())
  {
  }

  lemma {:induction false} LogEntry(s: Schedule, log: seq<Sent>, r: Role, prevSendNo: nat, x: nat)
    requires LogOk(s, log, r, prevSendNo) && x < |log|
    ensures EntryOk(s, log, r, prevSendNo, x)
  {
  }

  lemma {:induction false} EndsBadly(q: Pair, ev: Event) returns (evs: seq<Event>)
    requires Reached(q) && Loads(q.m) && Loads(q.c) && Enabled(q, ev) && Exception(q, ev)
    ensures Possible(FIRST, evs) && !ClientsKeepUp(FIRST, evs)
  {
    hide PairInv, Leads, Loads, Enabled, Exception;
    var before :| Leads(FIRST, before, q);
    evs := before + [ev];
    LeadsFurther(FIRST, before, q, ev);
    SimulatesIff(Seed(0), [], 0, 1, evs);
  }
}
