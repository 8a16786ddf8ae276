/** What one party can be made to store, by any input at all. */
module Bounds {
  import opened Wrappers
  import opened Keys
  import opened SkippedKeys
  import opened Ratchets
  import opened Inserts

  /** The number of cached message keys. */
  function Total(buffer: seq<Chain>): nat {
    if |buffer| == 0 then 0 else |buffer[0].msgKeys| + Total(buffer[1..])
  }

  lemma {:induction false} TotalUpdate(buffer: seq<Chain>, i: nat, c: Chain)
    requires i < |buffer|
    ensures Total(buffer[i := c]) == Total(buffer) - |buffer[i].msgKeys| + |c.msgKeys|
  {
    if i > 0 {
      TotalUpdate(buffer[1..], i - 1, c);
      assert buffer[i := c][1..] == buffer[1..][i - 1 := c];
    } else {
      assert buffer[i := c][1..] == buffer[1..];
    }
  }

  lemma {:induction false} TotalPrefix(buffer: seq<Chain>, n: nat)
    requires n <= |buffer|
    ensures Total(buffer[..n]) <= Total(buffer)
  {
    if n > 0 {
      TotalPrefix(buffer[1..], n - 1);
      assert buffer[..n][1..] == buffer[1..][..n - 1];
    }
  }

  lemma {:induction false} InsertAddsOne(buffer: seq<Chain>, dhPub: Pub, n: nat, key: Key)
    ensures Total(Insert(buffer, dhPub, n, key)) <= Total(buffer) + 1
  {
    var i := IndexOf(buffer, dhPub);
    if i < |buffer| {
      var c := Chain(dhPub, buffer[i].msgKeys[n := key]);
      assert c.msgKeys.Keys == buffer[i].msgKeys.Keys + {n};
      TotalUpdate(buffer, i, c);
    } else {
      var c := Chain(dhPub, map[n := key]);
      var rest := if |buffer| < MAX_SKIP_CHAINS then buffer else buffer[..MAX_SKIP_CHAINS - 1];
      if |buffer| >= MAX_SKIP_CHAINS {
        TotalPrefix(buffer, MAX_SKIP_CHAINS - 1);
      }
      assert ([c] + rest)[1..] == rest;
      assert c.msgKeys.Keys == {n};
    }
  }

  /** All cached numbers fit into 16 bits, and the counter is at most one past them. */
  ghost predicate Bounded(p: Ratchet) {
    && p.Valid()
    && p.recvNo <= NUMBER_LIMIT
    && Small(p.buffer)
  }

  ghost predicate Small(buffer: seq<Chain>) {
    forall c, n :: 0 <= c < |buffer| && n in buffer[c].msgKeys ==> n < NUMBER_LIMIT
  }

  /** The cached chains are those cached before, and perhaps one more. */
  ghost predicate OnlyAdds(before: seq<Chain>, after: seq<Chain>, dhPub: Pub) {
    forall c :: 0 <= c < |after| ==> after[c].dhPub == dhPub || Cached(before, after[c].dhPub)
  }

  lemma {:induction false} IsCached(buffer: seq<Chain>, c: nat)
    requires c < |buffer|
    ensures Cached(buffer, buffer[c].dhPub)
  {
    assert !(c < IndexOf(buffer, buffer[c].dhPub));
  }

  lemma {:induction false} InsertBounds(buffer: seq<Chain>, dhPub: Pub, n: nat, key: Key)
    requires Small(buffer) && n < NUMBER_LIMIT
    ensures Small(Insert(buffer, dhPub, n, key))
    ensures OnlyAdds(buffer, Insert(buffer, dhPub, n, key), dhPub)
  {
    var next := Insert(buffer, dhPub, n, key);
    forall c | 0 <= c < |next|
      ensures next[c].dhPub == dhPub || Cached(buffer, next[c].dhPub)
      ensures forall m :: m in next[c].msgKeys ==> m < NUMBER_LIMIT
    {
      if Cached(buffer, dhPub) {
        IsCached(buffer, c);
      } else if c > 0 {
        assert next[c] == buffer[c - 1];
        IsCached(buffer, c - 1);
      }
    }
  }

  lemma {:induction false} SkipInsertsBounds(buffer: seq<Chain>, dhPub: Pub, chain: Key, from: nat, until: nat)
    requires Small(buffer) && from <= until <= NUMBER_LIMIT
    ensures var next := SkipInserts(buffer, dhPub, chain, from, until);
            Small(next) && OnlyAdds(buffer, next, dhPub) && Total(next) <= Total(buffer) + (until - from)
    decreases until - from
  {
    if from == until {
      forall c | 0 <= c < |buffer| ensures Cached(buffer, buffer[c].dhPub) {
        IsCached(buffer, c);
      }
    } else {
      var next := Insert(buffer, dhPub, from, MessageOf(chain));
      InsertBounds(buffer, dhPub, from, MessageOf(chain));
      InsertAddsOne(buffer, dhPub, from, MessageOf(chain));
      SkipInsertsBounds(next, dhPub, NextOf(chain), from + 1, until);
      OnlyAddsTwice(buffer, next, SkipInserts(next, dhPub, NextOf(chain), from + 1, until), dhPub);
    }
  }

  lemma {:induction false} OnlyAddsTwice(a: seq<Chain>, b: seq<Chain>, c: seq<Chain>, dhPub: Pub)
    requires OnlyAdds(a, b, dhPub) && OnlyAdds(b, c, dhPub)
    ensures OnlyAdds(a, c, dhPub)
  {
    forall k | 0 <= k < |c|
      ensures c[k].dhPub == dhPub || Cached(a, c[k].dhPub)
    {
      if c[k].dhPub != dhPub {
        var j := IndexOf(b, c[k].dhPub);
        assert b[j].dhPub == c[k].dhPub;
      }
    }
  }

  lemma {:induction false} SkipBounds(p: Ratchet, until: Number)
    requires Bounded(p)
    ensures var q := p.Skip(until).state;
            && Bounded(q)
            && Total(q.buffer) <= Total(p.buffer) + MAX_SKIP_ELEMENTS
            && q == p.(recv := q.recv, recvNo := q.recvNo, buffer := q.buffer)
            && (p.peer.Some? ==> OnlyAdds(p.buffer, q.buffer, p.peer.value))
            && (p.peer.None? ==> q == p)
            && (q.recvNo == p.recvNo || q.recvNo == until)
  {
    SkipValid(p, until);
    forall c | 0 <= c < |p.buffer| ensures Cached(p.buffer, p.buffer[c].dhPub) {
      IsCached(p.buffer, c);
    }
    if p.recv.Some? && p.recvNo <= until <= p.recvNo + MAX_SKIP_ELEMENTS {
      SkipToIs(p, until);
      SkipInsertsBounds(p.buffer, p.peer.value, p.recv.value, p.recvNo, until);
    }
  }

  /** The cached chains after a Decrypt: those before, the old peer's and the announced one. */
  ghost predicate AddsAtMostTwo(before: seq<Chain>, after: seq<Chain>, peer: Option<Pub>, dhPub: Pub) {
    forall c :: 0 <= c < |after| ==>
      after[c].dhPub == dhPub || Some(after[c].dhPub) == peer || Cached(before, after[c].dhPub)
  }

  lemma {:induction false} ReceiveBounds(p: Ratchet, h: Header, body: Body)
    requires Bounded(p) && p.peer == Some(h.dhPub)
    ensures var q := p.Receive(h, body).state;
            && Bounded(q) && Total(q.buffer) <= Total(p.buffer) + MAX_SKIP_ELEMENTS
            && OnlyAdds(p.buffer, q.buffer, h.dhPub)
  {
    SkipBounds(p, h.msgNo);
    forall c | 0 <= c < |p.buffer| ensures Cached(p.buffer, p.buffer[c].dhPub) {
      IsCached(p.buffer, c);
    }
  }

  /** What is cached: the chains and numbers that have a key. */
  ghost function Pairs(buffer: seq<Chain>): set<(Pub, nat)> {
    if |buffer| == 0 then {} else (set n | n in buffer[0].msgKeys :: (buffer[0].dhPub, n)) + Pairs(buffer[1..])
  }

  lemma {:induction false} InPairs(buffer: seq<Chain>, dhPub: Pub, n: nat)
    ensures (dhPub, n) in Pairs(buffer) <==>
            exists c :: 0 <= c < |buffer| && buffer[c].dhPub == dhPub && n in buffer[c].msgKeys
  {
    if |buffer| > 0 {
      InPairs(buffer[1..], dhPub, n);
      if c :| 0 <= c < |buffer| && buffer[c].dhPub == dhPub && n in buffer[c].msgKeys {
        if c > 0 {
          assert buffer[1..][c - 1] == buffer[c];
        }
      }
    }
  }

  /** An insert adds one pair at most. */
  lemma {:induction false} InsertPairs(buffer: seq<Chain>, op: Op)
    ensures Pairs(Apply(buffer, op)) <= Pairs(buffer) + {(op.dhPub, op.msgNo)}
  {
    hide Pairs;
    var next := Apply(buffer, op);
    forall x | x in Pairs(next)
      ensures x in Pairs(buffer) + {(op.dhPub, op.msgNo)}
    {
      InPairs(next, x.0, x.1);
      InPairs(buffer, x.0, x.1);
      var c :| 0 <= c < |next| && next[c].dhPub == x.0 && x.1 in next[c].msgKeys;
      if x != (op.dhPub, op.msgNo) {
        var d := if Cached(buffer, op.dhPub) then c else c - 1;
        assert d >= 0 && buffer[d].dhPub == x.0 && x.1 in buffer[d].msgKeys;
      }
    }
  }

  lemma {:induction false} PlayPairs(buffer: seq<Chain>, ops: seq<Op>)
    ensures |Pairs(Play(buffer, ops)) - Pairs(buffer)| <= |ops|
    decreases |ops|
  {
    hide Pairs, Apply;
    if |ops| == 0 {
      assert Pairs(buffer) - Pairs(buffer) == {};
    } else {
      var next, op := Apply(buffer, ops[0]), ops[0];
      InsertPairs(buffer, op);
      PlayPairs(next, ops[1..]);
      var all := Pairs(Play(buffer, ops));
      assert all - Pairs(buffer) <= (all - Pairs(next)) + {(op.dhPub, op.msgNo)};
      SubsetSize(all - Pairs(buffer), (all - Pairs(next)) + {(op.dhPub, op.msgNo)});
    }
  }

  lemma {:induction false} SubsetSize<T>(a: set<T>, b: set<T>)
    requires a <= b
    ensures |a| <= |b|
  {
    assert b == a + (b - a);
  }

  /**
   For any ciphertext, honest or not: one Decrypt caches at most 64 new keys and at most two new
   chains, the cache has at most eight chains, and the receiving counter is at most 65536.
   */
  lemma {:induction false} DecryptBounds(p: Ratchet, c: Ciphertext, draw: KeyId)
    requires Bounded(p)
    ensures var q := p.Decrypt(c, draw).state;
            && Bounded(q) && |q.buffer| <= 8
            && Total(q.buffer) <= Total(p.buffer) + 64
            && |Pairs(q.buffer) - Pairs(p.buffer)| <= 64
            && (c.Packet? ==> AddsAtMostTwo(p.buffer, q.buffer, p.peer, c.header.dhPub))
  {
    hide Pairs, DecryptOps;
    DecryptBuffer(p, c, draw);
    DecryptOpsLength(p, c, draw);
    PlayPairs(p.buffer, DecryptOps(p, c, draw));
    if c.Packet? {
      var h := c.header;
      if p.peer == Some(h.dhPub) {
        ReceiveBounds(p, h, c.body);
      } else {
        SkipBounds(p, h.prevNo);
        forall k | 0 <= k < |p.buffer| ensures Cached(p.buffer, p.buffer[k].dhPub) {
          IsCached(p.buffer, k);
        }
        var moved := p.Rekey(h, draw);
        if moved.result.Ok? {
          ReceiveBounds(moved.state, h, c.body);
          OnlyAddsThen(p, moved.state.buffer, moved.state.Receive(h, c.body).state.buffer, h.dhPub);
        }
      }
    }
  }

  lemma {:induction false} OnlyAddsThen(p: Ratchet, b: seq<Chain>, c: seq<Chain>, dhPub: Pub)
    requires p.peer.Some? ==> OnlyAdds(p.buffer, b, p.peer.value)
    requires p.peer.None? ==> b == p.buffer
    requires OnlyAdds(b, c, dhPub)
    ensures AddsAtMostTwo(p.buffer, c, p.peer, dhPub)
  {
    forall k | 0 <= k < |c|
      ensures c[k].dhPub == dhPub || Some(c[k].dhPub) == p.peer || Cached(p.buffer, c[k].dhPub)
    {
      if c[k].dhPub != dhPub {
        var j := IndexOf(b, c[k].dhPub);
        assert b[j].dhPub == c[k].dhPub;
      }
    }
  }

  /** A history of calls on one ratchet, with any input. */
  datatype Call = Seal(plaintext: Bytes, draw: KeyId) | Open(ciphertext: Ciphertext, draw: KeyId)

  ghost function Serve(p: Ratchet, calls: seq<Call>): Ratchet
    requires p.Valid()
    decreases |calls|
  {
    if |calls| == 0 then p
    else
      match calls[0]
      case Seal(plaintext, draw) =>
        OperationsKeepValid(p, plaintext, Short, draw);
        Serve(p.Encrypt(plaintext, draw).state, calls[1..])
      case Open(c, draw) =>
        OperationsKeepValid(p, [], c, draw);
        Serve(p.Decrypt(c, draw).state, calls[1..])
  }

  lemma {:induction false} EncryptBounds(p: Ratchet, plaintext: Bytes, draw: KeyId)
    requires Bounded(p)
    ensures Bounded(p.Encrypt(plaintext, draw).state)
  {
    OperationsKeepValid(p, plaintext, Short, draw);
  }

  /** Over every history of calls: at most eight chains, and never more than 8 * 65536 keys. */
  lemma {:induction false} ServeBounds(p: Ratchet, calls: seq<Call>)
    requires Bounded(p)
    ensures Bounded(Serve(p, calls))
    ensures |Serve(p, calls).buffer| <= 8
    ensures Total(Serve(p, calls).buffer) <= 8 * 0x1_0000
    decreases |calls|
  {
    if |calls| == 0 {
      TotalSmall(p.buffer);
    } else {
      match calls[0] {
        case Seal(plaintext, draw) =>
          EncryptBounds(p, plaintext, draw);
          ServeBounds(p.Encrypt(plaintext, draw).state, calls[1..]);
        case Open(c, draw) =>
          DecryptBounds(p, c, draw);
          ServeBounds(p.Decrypt(c, draw).state, calls[1..]);
      }
    }
  }

  lemma {:induction false} TotalSmall(buffer: seq<Chain>)
    requires Small(buffer)
    ensures Total(buffer) <= |buffer| * NUMBER_LIMIT
  {
    if |buffer| > 0 {
      var keys := buffer[0].msgKeys.Keys;
      assert forall n :: n in keys ==> 0 <= n < NUMBER_LIMIT;
      SubsetOfRange(keys, NUMBER_LIMIT);
      TotalSmall(buffer[1..]);
    }
  }

  lemma {:induction false} SubsetOfRange(s: set<nat>, n: nat)
    requires forall x :: x in s ==> x < n
    ensures |s| <= n
  {
    if n == 0 {
      assert s == {};
    } else {
      SubsetOfRange(s - {n - 1}, n - 1);
      assert |s| <= |s - {n - 1}| + 1 by {
        if n - 1 in s {
          assert s == (s - {n - 1}) + {n - 1};
        } else {
          assert s == s - {n - 1};
        }
      }
    }
  }

  /**
   The skip limit is one per gap, not one per chain: two gaps of 32 leave 64 keys of a single
   chain in the cache, although the package documentation speaks of 32 skipped messages each.
   */
  lemma {:induction false} TwoGapsInOneChain(p: Ratchet, dhPub: Pub, body: Body, body': Body, n: nat)
    requires p.Valid() && p.peer == Some(dhPub) && p.recv.Some? && p.recvNo == 0
    requires n < 65 && n != 32
    ensures var q := p.Receive(Header(dhPub, 0, 32), body).state;
            && (q.recv.Some? ==> q.peer.Some?)
            && Find(q.Receive(Header(dhPub, 0, 65), body').state.buffer, dhPub, n).Ok?
  {
    SkipToIs(p, 32);
    SkipInsertsFind(p.buffer, dhPub, p.recv.value, 0, 32, n);
    var q := p.Receive(Header(dhPub, 0, 32), body).state;
    SkipToIs(q, 65);
    SkipInsertsFind(q.buffer, dhPub, q.recv.value, 33, 65, n);
  }
}
