/**
 When a Double Ratchet is in step with the key schedule that both parties follow, and what
 every operation does to such a ratchet.
 */
module Sync {
  import opened Wrappers
  import opened Keys
  import opened SkippedKeys
  import opened DhRatchets
  import opened Ratchets
  import opened Persistence

  /** Alice is the active party, Bob the passive one. */
  datatype Role = Alice | Bob {
    function Peer(): Role {
      if this == Alice then Bob else Alice
    }
  }

  /** The key pairs drawn so far, in order; the session key; the associated data. */
  datatype Schedule = Schedule(keys: seq<KeyId>, seed: Key, ad: AssociatedData) {
    ghost predicate Valid() {
      && |keys| >= 2
      && forall i, j :: 0 <= i < j < |keys| ==> keys[i] != keys[j]
    }

    function Pub(i: nat): Pub
      requires i < |keys|
    {
      Point(keys[i])
    }

    function Chain(i: nat, n: nat): Key
      requires 0 < i < |keys|
    {
      ChainKey(keys, seed, i, n)
    }

    function Message(i: nat, n: nat): Key
      requires 0 < i < |keys|
    {
      MessageKey(keys, seed, i, n)
    }

    function Draw(k: KeyId): Schedule {
      this.(keys := keys + [k])
    }
  }

  /** Bob owns the key pairs at even positions, Alice those at odd positions. */
  predicate Owns(r: Role, i: nat) {
    (i % 2 == 1) == (r == Alice)
  }

  /** The position of a party's newest key pair. */
  function Epoch(s: Schedule, r: Role): (e: nat)
    requires |s.keys| >= 2
    ensures Owns(r, e) && |s.keys| - 2 <= e < |s.keys|
  {
    if Owns(r, |s.keys| - 1) then |s.keys| - 1 else |s.keys| - 2
  }

  /** Alice before her first message: nothing derived yet. */
  ghost predicate Waiting(p: Ratchet, s: Schedule)
    requires s.Valid()
  {
    p == CreateActive(s.seed, s.ad, s.Pub(0), s.keys[1]) && |s.keys| == 2
  }

  /** Bob before his first message arrives. */
  ghost predicate Listening(p: Ratchet, s: Schedule)
    requires s.Valid()
  {
    p == CreatePassive(s.seed, s.ad, s.Pub(0), s.keys[0]) && |s.keys| == 2
  }

  /** A party at epoch `e` sends on chain `e` and receives on chain `e - 1`. */
  ghost predicate Running(p: Ratchet, r: Role, s: Schedule)
    requires s.Valid()
  {
    var e := Epoch(s, r);
    && p.ad == s.ad
    && 1 <= e
    && p.dhr.pub == s.Pub(e) && p.dhr.priv == s.keys[e] && p.dhr.root == Root(s.keys, s.seed, e)
    && p.dhr.active == (r == Alice) && (r == Alice ==> p.dhr.initialized)
    && p.peer == Some(s.Pub(e - 1))
    && p.send == Some(s.Chain(e, p.sendNo))
    && (e == 1 ==> p.recv == None && p.recvNo == 0)
    && (e >= 2 ==> p.recv == Some(s.Chain(e - 1, p.recvNo)))
  }

  /** A cached key is the sender's own key for that chain and number. */
  ghost predicate KeySound(r: Role, s: Schedule, dhPub: Pub, n: nat, key: Key) {
    exists i :: 0 < i < |s.keys| && Owns(r.Peer(), i) && dhPub == s.Pub(i) && key == s.Message(i, n)
  }

  ghost predicate CacheSound(buffer: seq<SkippedKeys.Chain>, r: Role, s: Schedule) {
    forall c, n :: 0 <= c < |buffer| && n in buffer[c].msgKeys ==>
      KeySound(r, s, buffer[c].dhPub, n, buffer[c].msgKeys[n])
  }

  ghost predicate InSync(p: Ratchet, r: Role, s: Schedule) {
    && s.Valid()
    && p.Valid()
    && (Running(p, r, s) || (r == Alice && Waiting(p, s)) || (r == Bob && Listening(p, s)))
    && CacheSound(p.buffer, r, s)
  }

  // ---------- The schedule grows ----------

  lemma {:induction false} DrawKeeps(s: Schedule, k: KeyId, i: nat, n: nat)
    requires 0 < i < |s.keys|
    ensures s.Draw(k).Chain(i, n) == s.Chain(i, n)
    ensures s.Draw(k).Message(i, n) == s.Message(i, n)
    ensures Root(s.Draw(k).keys, s.seed, i) == Root(s.keys, s.seed, i)
  {
    RootPrefix(s.keys, k, s.seed, i);
  }

  lemma {:induction false} DrawKeepsSound(buffer: seq<SkippedKeys.Chain>, r: Role, s: Schedule, k: KeyId)
    requires CacheSound(buffer, r, s)
    ensures CacheSound(buffer, r, s.Draw(k))
  {
    hide Schedule.Message;
    forall c, n | 0 <= c < |buffer| && n in buffer[c].msgKeys
      ensures KeySound(r, s.Draw(k), buffer[c].dhPub, n, buffer[c].msgKeys[n])
    {
      var i :| && 0 < i < |s.keys| && Owns(r.Peer(), i)
               && buffer[c].dhPub == s.Pub(i) && buffer[c].msgKeys[n] == s.Message(i, n);
      DrawKeeps(s, k, i, n);
      assert s.Draw(k).Pub(i) == s.Pub(i);
    }
  }

  /** A party stays in step while its peer draws the next key pair. */
  lemma {:induction false} PeerDraws(p: Ratchet, r: Role, s: Schedule, k: KeyId)
    requires InSync(p, r, s) && Running(p, r, s)
    requires Epoch(s, r) == |s.keys| - 1
    requires k !in s.keys
    ensures InSync(p, r, s.Draw(k)) && Running(p, r, s.Draw(k))
    ensures Epoch(s.Draw(k), r) == Epoch(s, r)
  {
    hide CacheSound, Root, Schedule.Message;
    var e := Epoch(s, r);
    DrawKeeps(s, k, e, p.sendNo);
    if e >= 2 {
      DrawKeeps(s, k, e - 1, p.recvNo);
    }
    DrawKeepsSound(p.buffer, r, s, k);
  }

  // ---------- Skipping ----------

  lemma {:induction false} InsertSound(
    buffer: seq<SkippedKeys.Chain>, r: Role, s: Schedule, dhPub: Pub, n: nat, key: Key)
    requires CacheSound(buffer, r, s)
    requires KeySound(r, s, dhPub, n, key)
    ensures CacheSound(Insert(buffer, dhPub, n, key), r, s)
  {
    var next := Insert(buffer, dhPub, n, key);
    forall c, m | 0 <= c < |next| && m in next[c].msgKeys
      ensures KeySound(r, s, next[c].dhPub, m, next[c].msgKeys[m])
    {
      if Cached(buffer, dhPub) {
        assert next[c].dhPub == buffer[c].dhPub;
      } else if c > 0 {
        assert next[c] == buffer[c - 1];
      }
    }
  }

  lemma {:induction false} SkipSound(
    buffer: seq<SkippedKeys.Chain>, r: Role, s: Schedule, i: nat, from: nat, until: nat)
    requires 0 < i < |s.keys| && Owns(r.Peer(), i)
    requires CacheSound(buffer, r, s)
    ensures CacheSound(SkipInserts(buffer, s.Pub(i), s.Chain(i, from), from, until), r, s)
    decreases until - from
  {
    if from < until {
      assert s.Message(i, from) == MessageOf(s.Chain(i, from));
      InsertSound(buffer, r, s, s.Pub(i), from, s.Message(i, from));
      assert s.Chain(i, from + 1) == NextOf(s.Chain(i, from));
      SkipSound(Insert(buffer, s.Pub(i), from, s.Message(i, from)), r, s, i, from + 1, until);
    }
  }

  /** The state after skipping to a number on the current receiving chain. */
  ghost function Skipped(p: Ratchet, r: Role, s: Schedule, until: nat): Ratchet
    requires s.Valid() && Epoch(s, r) >= 2 && p.recvNo <= until
  {
    var i := Epoch(s, r) - 1;
    p.(recv := Some(s.Chain(i, until)), recvNo := until,
       buffer := SkipInserts(p.buffer, s.Pub(i), s.Chain(i, p.recvNo), p.recvNo, until))
  }

  lemma {:induction false} SkippedIs(p: Ratchet, r: Role, s: Schedule, until: nat)
    requires InSync(p, r, s) && Running(p, r, s) && Epoch(s, r) >= 2
    requires p.recvNo <= until <= p.recvNo + MAX_SKIP_ELEMENTS
    ensures p.Skip(until) == Outcome(Skipped(p, r, s, until), Ok(()))
  {
    hide CacheSound, SkipInserts, Root, Ratchet.SkipTo, Advance, ChainStart;
    var i := Epoch(s, r) - 1;
    SkipToIs(p, until);
    AdvanceAdds(ChainStart(s.keys, s.seed, i), p.recvNo, until - p.recvNo);
  }

  lemma {:induction false} SkippedInSync(p: Ratchet, r: Role, s: Schedule, until: nat)
    requires InSync(p, r, s) && Running(p, r, s) && Epoch(s, r) >= 2
    requires p.recvNo <= until
    ensures InSync(Skipped(p, r, s, until), r, s) && Running(Skipped(p, r, s, until), r, s)
  {
    var i := Epoch(s, r) - 1;
    SkipInsertsWellFormed(p.buffer, s.Pub(i), s.Chain(i, p.recvNo), p.recvNo, until);
    SkipSound(p.buffer, r, s, i, p.recvNo, until);
  }

  // ---------- Encrypt ----------

  /** Encrypting takes the next key of the own chain, and keeps a party in step even if it fails. */
  lemma {:induction false} EncryptInSync(p: Ratchet, r: Role, s: Schedule, plaintext: Bytes, draw: KeyId)
    requires InSync(p, r, s)
    ensures var o := p.Encrypt(plaintext, draw);
            var e := Epoch(s, r);
            && InSync(o.state, r, s)
            && (Listening(p, s) && r == Bob ==> o.state == p && o.result.Err?)
            && (!(Listening(p, s) && r == Bob) ==>
                  && Running(o.state, r, s)
                  && o.state.send.Some? && o.state.dhr.pub == p.dhr.pub
                  && o.state == p.(dhr := o.state.dhr, send := o.state.send, sendNo := p.sendNo + 1)
                  && (o.result.Ok? <==> p.sendNo < NUMBER_LIMIT && p.prevSendNo < NUMBER_LIMIT)
                  && (o.result.Ok? ==>
                        o.result.value == Packet(Header(s.Pub(e), p.prevSendNo, p.sendNo),
                                                 Box(s.Message(e, p.sendNo), s.ad, plaintext))))
            && (Running(p, r, s) ==> o.state.dhr == p.dhr)
  {
    if r == Alice && Waiting(p, s) {
      AgreeCommutes(s.keys[0], s.keys[1]);
      assert Root(s.keys, s.seed, 0) == s.seed;
      assert Root(s.keys, s.seed, 1) == RootOf(s.seed, Agree(s.keys[0], s.keys[1]));
      assert s.Chain(1, 0) == ChainStart(s.keys, s.seed, 1);
      assert s.Chain(1, 1) == NextOf(s.Chain(1, 0));
    } else if Running(p, r, s) {
      var e := Epoch(s, r);
      assert s.Chain(e, p.sendNo + 1) == NextOf(s.Chain(e, p.sendNo));
    }
  }

  // ---------- Decrypt on the current receiving chain ----------

  /** The key of a number that was skipped earlier, if it is still cached. */
  ghost predicate HasKey(p: Ratchet, dhPub: Pub, n: nat) {
    Find(p.buffer, dhPub, n).Ok?
  }

  lemma {:induction false} FindSound(p: Ratchet, r: Role, s: Schedule, i: nat, n: nat)
    requires s.Valid() && CacheSound(p.buffer, r, s)
    requires 0 < i < |s.keys|
    requires HasKey(p, s.Pub(i), n)
    ensures Find(p.buffer, s.Pub(i), n) == Ok(s.Message(i, n))
  {
    var c := IndexOf(p.buffer, s.Pub(i));
    assert KeySound(r, s, p.buffer[c].dhPub, n, p.buffer[c].msgKeys[n]);
  }

  /** The state after a message number of the current receiving chain has been taken from the chain. */
  ghost function Advanced(p: Ratchet, r: Role, s: Schedule, n: nat): Ratchet
    requires s.Valid() && Epoch(s, r) >= 2 && p.recvNo <= n
  {
    Skipped(p, r, s, n).(recv := Some(s.Chain(Epoch(s, r) - 1, n + 1)), recvNo := n + 1)
  }

  lemma {:induction false} TakeNew(p: Ratchet, r: Role, s: Schedule, h: Header)
    requires InSync(p, r, s) && Running(p, r, s) && Epoch(s, r) >= 2
    requires p.recvNo <= h.msgNo <= p.recvNo + MAX_SKIP_ELEMENTS
    ensures p.Take(h) == Outcome(Advanced(p, r, s, h.msgNo), Ok(s.Message(Epoch(s, r) - 1, h.msgNo)))
  {
    var i := Epoch(s, r) - 1;
    SkippedIs(p, r, s, h.msgNo);
    assert s.Chain(i, h.msgNo + 1) == NextOf(s.Chain(i, h.msgNo));
    assert h.msgNo == p.recvNo ==> Skipped(p, r, s, h.msgNo) == p;
  }

  lemma {:induction false} AdvancedInSync(p: Ratchet, r: Role, s: Schedule, n: nat)
    requires InSync(p, r, s) && Running(p, r, s) && Epoch(s, r) >= 2
    requires p.recvNo <= n
    ensures InSync(Advanced(p, r, s, n), r, s) && Running(Advanced(p, r, s, n), r, s)
  {
    SkippedInSync(p, r, s, n);
  }

  /** What Decrypt does with a message of the current receiving chain. */
  lemma {:induction false} ReceiveInSync(p: Ratchet, r: Role, s: Schedule, h: Header, body: Body)
    requires InSync(p, r, s) && Running(p, r, s) && Epoch(s, r) >= 2
    requires p.peer == Some(h.dhPub)
    ensures var o := p.Receive(h, body);
            var plain := OpenBody(s.Message(Epoch(s, r) - 1, h.msgNo), body, s.ad);
            && (h.msgNo < p.recvNo ==>
                  o.state == p && (if HasKey(p, h.dhPub, h.msgNo) then o.result == plain else o.result.Err?))
            && (p.recvNo <= h.msgNo <= p.recvNo + MAX_SKIP_ELEMENTS ==>
                  o == Outcome(Advanced(p, r, s, h.msgNo), plain))
            && (p.recvNo + MAX_SKIP_ELEMENTS < h.msgNo ==> o == Outcome(p, Err(TooManySkipped)))
    ensures InSync(p.Receive(h, body).state, r, s) && Running(p.Receive(h, body).state, r, s)
  {
    hide CacheSound, Skipped, Ratchet.SkipTo;
    if h.msgNo < p.recvNo {
      if HasKey(p, h.dhPub, h.msgNo) {
        FindSound(p, r, s, Epoch(s, r) - 1, h.msgNo);
      }
    } else if h.msgNo <= p.recvNo + MAX_SKIP_ELEMENTS {
      TakeNew(p, r, s, h);
      AdvancedInSync(p, r, s, h.msgNo);
    }
  }

  // ---------- Save and restore ----------

  lemma {:induction false} InSyncValid(p: Ratchet, r: Role, s: Schedule)
    requires InSync(p, r, s)
    ensures p.Valid() && s.Valid()
  {
  }

  lemma {:induction false} ReloadSound(p: Ratchet, r: Role, s: Schedule)
    requires CacheSound(p.buffer, r, s)
    ensures CacheSound(Reloaded(p).buffer, r, s)
  {
    hide KeySound;
    ReloadIsExactIff(p);
    var q := Reloaded(p);
    forall c, n | 0 <= c < |q.buffer| && n in q.buffer[c].msgKeys
      ensures KeySound(r, s, q.buffer[c].dhPub, n, q.buffer[c].msgKeys[n])
    {
      assert q.buffer[c] == p.buffer[|p.buffer| - 1];
    }
  }

  /** A party stays in step over a save and a restore. */
  lemma {:induction false} ReloadInSync(p: Ratchet, r: Role, s: Schedule)
    requires InSync(p, r, s)
    ensures InSync(Reloaded(p), r, s) && (Running(p, r, s) ==> Running(Reloaded(p), r, s))
  {
    hide CacheSound;
    ReloadIsExactIff(p);
    ReloadSound(p, r, s);
  }

  // ---------- Decrypt of the peer's next chain ----------

  /** The cache after the tail of the current receiving chain has been skipped. */
  ghost function TailCached(p: Ratchet, r: Role, s: Schedule, prevNo: nat): seq<SkippedKeys.Chain>
    requires s.Valid()
  {
    if Epoch(s, r) >= 2 && p.recvNo <= prevNo then Skipped(p, r, s, prevNo).buffer else p.buffer
  }

  lemma {:induction false} SkipTail(p: Ratchet, r: Role, s: Schedule, prevNo: nat)
    requires InSync(p, r, s) && prevNo <= p.recvNo + MAX_SKIP_ELEMENTS
    ensures var q := p.Skip(prevNo).state;
            && q == p.(recv := q.recv, recvNo := q.recvNo, buffer := TailCached(p, r, s, prevNo))
            && q.Valid() && CacheSound(q.buffer, r, s)
  {
    hide CacheSound, SkipInserts;
    if Running(p, r, s) && Epoch(s, r) >= 2 && p.recvNo <= prevNo {
      SkippedIs(p, r, s, prevNo);
      SkippedInSync(p, r, s, prevNo);
    }
  }

  /** Following the peer to its next chain: both parties derive the same two chains. */
  lemma {:induction false} RekeyInSync(p: Ratchet, r: Role, s: Schedule, h: Header, k: KeyId)
    requires InSync(p, r, s) && !(r == Alice && Waiting(p, s))
    requires Epoch(s, r) == |s.keys| - 2
    requires h.dhPub == s.Pub(|s.keys| - 1)
    requires k !in s.keys
    ensures p.recvNo + MAX_SKIP_ELEMENTS < h.prevNo ==> p.Rekey(h, k) == Outcome(p, Err(TooManySkipped))
    ensures h.prevNo <= p.recvNo + MAX_SKIP_ELEMENTS ==>
              var o := p.Rekey(h, k);
              && o.result.Ok?
              && InSync(o.state, r, s.Draw(k)) && Running(o.state, r, s.Draw(k))
              && Epoch(s.Draw(k), r) == |s.keys|
              && o.state.sendNo == 0 && o.state.recvNo == 0 && o.state.prevSendNo == p.sendNo
              && o.state.buffer == TailCached(p, r, s, h.prevNo) && o.state.peer == Some(h.dhPub)
  {
    hide CacheSound, TailCached, DhState.Step, Ratchet.SkipTo, SkipInserts, Schedule.Message;
    if h.prevNo <= p.recvNo + MAX_SKIP_ELEMENTS {
      var e, t := Epoch(s, r), s.Draw(k);
      var q := p.Skip(h.prevNo).state;
      SkipTail(p, r, s, h.prevNo);
      StepInSync(q.dhr, r, s, k);
      DrawKeepsSound(q.buffer, r, s, k);
      assert t.Chain(e + 1, 0) == ChainStart(t.keys, t.seed, e + 1);
      assert t.Chain(e + 2, 0) == ChainStart(t.keys, t.seed, e + 2);
    }
  }

  /** Decrypt of a packet that the peer sealed on the current receiving chain. */
  lemma {:induction false} DecryptCurrent(p: Ratchet, r: Role, s: Schedule, c: Ciphertext, plaintext: Bytes, k: KeyId)
    requires InSync(p, r, s) && Running(p, r, s) && Epoch(s, r) >= 2
    requires c.Packet? && p.peer == Some(c.header.dhPub)
    requires c.body == Box(s.Message(Epoch(s, r) - 1, c.header.msgNo), s.ad, plaintext)
    ensures p.Valid()
    ensures var o, n := p.Decrypt(c, k), c.header.msgNo;
            && (o.result.Ok? <==> n <= p.recvNo + MAX_SKIP_ELEMENTS && (n < p.recvNo ==> HasKey(p, c.header.dhPub, n)))
            && (o.result.Ok? ==>
                  && o.result == Ok(plaintext) && InSync(o.state, r, s) && Running(o.state, r, s)
                  && (n >= p.recvNo ==> o.state.recvNo == n + 1) && (n < p.recvNo ==> o.state == p)
                  && o.state.dhr == p.dhr && o.state.peer == p.peer
                  && o.state.sendNo == p.sendNo && o.state.prevSendNo == p.prevSendNo)
            && (o.result.Err? ==> o.state == p)
  {
    hide Running, CacheSound, Ratchet.Receive, Schedule.Message, HasKey;
    ReceiveInSync(p, r, s, c.header, c.body);
  }

  /** Decrypt of a packet that the peer sealed on its next chain. */
  lemma {:induction false} DecryptFollows(p: Ratchet, r: Role, s: Schedule, c: Ciphertext, plaintext: Bytes, k: KeyId)
    requires InSync(p, r, s) && !(r == Alice && Waiting(p, s)) && k !in s.keys
    requires Epoch(s, r) == |s.keys| - 2
    requires c.Packet? && c.header.dhPub == s.Pub(|s.keys| - 1) && p.peer != Some(c.header.dhPub)
    requires c.body == Box(s.Message(|s.keys| - 1, c.header.msgNo), s.ad, plaintext)
    ensures p.Valid()
    ensures var o, t := p.Decrypt(c, k), s.Draw(k);
            && (o.result.Ok? <==>
                  c.header.prevNo <= p.recvNo + MAX_SKIP_ELEMENTS && c.header.msgNo <= MAX_SKIP_ELEMENTS)
            && (o.result.Ok? ==> o.result == Ok(plaintext))
            && (c.header.prevNo > p.recvNo + MAX_SKIP_ELEMENTS ==> o.state == p)
            && (c.header.prevNo <= p.recvNo + MAX_SKIP_ELEMENTS ==>
                  && InSync(o.state, r, t) && Running(o.state, r, t) && Epoch(t, r) == |s.keys|
                  && o.state.dhr.pub != p.dhr.pub && o.state.sendNo == 0 && o.state.prevSendNo == p.sendNo
                  && o.state.peer == Some(c.header.dhPub)
                  && o.state.recvNo == if o.result.Ok? then c.header.msgNo + 1 else 0)
  {
    hide InSync, Running, Waiting, Listening, Ratchet.Rekey, Ratchet.Receive, Schedule.Message, TailCached, HasKey;
    InSyncValid(p, r, s);
    RekeyInSync(p, r, s, c.header, k);
    if c.header.prevNo <= p.recvNo + MAX_SKIP_ELEMENTS {
      var q, t := p.Rekey(c.header, k).state, s.Draw(k);
      DrawKeeps(s, k, |s.keys| - 1, c.header.msgNo);
      ReceiveInSync(q, r, t, c.header, c.body);
      PubOf(p, r, s);
      PubOf(q, r, t);
    }
  }

  lemma {:induction false} PubOf(p: Ratchet, r: Role, s: Schedule)
    requires InSync(p, r, s)
    ensures p.dhr.pub == s.Pub(Epoch(s, r))
  {
  }

  /** One step of the DH ratchet along the schedule. */
  lemma {:induction false} StepInSync(d: DhState, r: Role, s: Schedule, k: KeyId)
    requires s.Valid() && Epoch(s, r) == |s.keys| - 2
    requires d.priv == s.keys[Epoch(s, r)] && d.root == Root(s.keys, s.seed, Epoch(s, r))
    requires d.active ==> d.initialized
    ensures var o := d.Step(Some(s.Pub(|s.keys| - 1)), k);
            var t := s.Draw(k);
            var e := Epoch(s, r) + 2;
            && o.err == None
            && o.state == d.(root := Root(t.keys, t.seed, e), pub := Point(k), priv := k, peer := Some(s.Pub(e - 1)))
            && o.recv == Some(ChainStart(t.keys, t.seed, e - 1))
            && o.send == Some(ChainStart(t.keys, t.seed, e))
  {
    var e, t := Epoch(s, r), s.Draw(k);
    RootPrefix(s.keys, k, s.seed, e);
    AgreeCommutes(s.keys[e], s.keys[e + 1]);
    AgreeCommutes(s.keys[e + 1], k);
    assert t.keys[e + 2] == k && t.keys[e + 1] == s.keys[e + 1] && t.keys[e] == s.keys[e];
    assert Root(t.keys, t.seed, e + 1) == RootOf(Root(t.keys, t.seed, e), Agree(t.keys[e], t.keys[e + 1]));
    assert Root(t.keys, t.seed, e + 2) == RootOf(Root(t.keys, t.seed, e + 1), Agree(t.keys[e + 1], t.keys[e + 2]));
  }

  // ---------- Decrypt of a message from a superseded chain ----------

  /** A ratchet in step refuses a message of a superseded chain: its key pair leads to other chain keys now. */
  lemma {:induction false} StaleIsRefusedInStep(
    p: Ratchet, r: Role, s: Schedule, i: nat, h: Header, body: Body, k: KeyId)
    requires InSync(p, r, s) && Running(p, r, s)
    requires 0 < i < Epoch(s, r) - 1
    requires h.dhPub == s.Pub(i)
    requires body.Box? ==> body.key == s.Message(i, h.msgNo)
    ensures p.Decrypt(Packet(h, body), k).result.Err?
  {
    var e := Epoch(s, r);
    assert p.peer == Some(s.Pub(e - 1)) != Some(h.dhPub);
    SkipValid(p, h.prevNo);
    var moved := p.Rekey(h, k);
    if moved.result.Ok? {
      var q := moved.state;
      var start := ChainOf(Root(s.keys, s.seed, e), Agree(s.keys[e], s.keys[i]));
      assert q.recv == Some(start) && q.recvNo == 0 && q.peer == Some(h.dhPub);
      TakeFromStart(q, h);
      RootDepthOf(s.keys, s.seed, e);
      RootDepthOf(s.keys, s.seed, i - 1);
      if q.Take(h).result == Ok(s.Message(i, h.msgNo)) {
        AdvanceInjective(start, h.msgNo, ChainStart(s.keys, s.seed, i), h.msgNo);
      }
    }
  }

  /** On a new receiving chain the n-th key is taken, or the gap is too large. */
  lemma {:induction false} TakeFromStart(q: Ratchet, h: Header)
    requires q.recv.Some? && q.recvNo == 0 && q.peer == Some(h.dhPub)
    ensures q.Take(h).result.Ok? ==> q.Take(h).result == Ok(MessageOf(Advance(q.recv.value, h.msgNo)))
    ensures q.Take(h).result.Ok? <==> h.msgNo <= MAX_SKIP_ELEMENTS
  {
    SkipToIs(q, h.msgNo);
  }
}
