/** Every Decrypt as a history of inserts into the cache. */
module Inserts {
  import opened Wrappers
  import opened Keys
  import opened SkippedKeys
  import opened Ratchets

  /** The inserts of skipping from one number to another. */
  function SkipOps(peer: Pub, chain: Key, from: nat, until: nat): seq<Op>
    decreases until - from
  {
    if from >= until then []
    else [Op(peer, from, MessageOf(chain))] + SkipOps(peer, NextOf(chain), from + 1, until)
  }

  lemma {:induction false} SkipPlays(buffer: seq<Chain>, peer: Pub, chain: Key, from: nat, until: nat)
    ensures SkipInserts(buffer, peer, chain, from, until) == Play(buffer, SkipOps(peer, chain, from, until))
    decreases until - from
  {
    if from < until {
      SkipPlays(Insert(buffer, peer, from, MessageOf(chain)), peer, NextOf(chain), from + 1, until);
      assert SkipOps(peer, chain, from, until)[1..] == SkipOps(peer, NextOf(chain), from + 1, until);
    }
  }

  lemma {:induction false} PlayAppend(buffer: seq<Chain>, ops: seq<Op>, more: seq<Op>)
    ensures Play(buffer, ops + more) == Play(Play(buffer, ops), more)
    decreases |ops|
  {
    if |ops| == 0 {
      assert ops + more == more;
    } else {
      PlayAppend(Apply(buffer, ops[0]), ops[1..], more);
      assert (ops + more)[1..] == ops[1..] + more;
    }
  }

  function SkipOpsOf(p: Ratchet, until: nat): seq<Op>
    requires p.recv.Some? ==> p.peer.Some?
  {
    if p.recv.None? || p.recvNo + MAX_SKIP_ELEMENTS < until then []
    else SkipOps(p.peer.value, p.recv.value, p.recvNo, until)
  }

  function ReceiveOps(p: Ratchet, h: Header): seq<Op>
    requires p.recv.Some? ==> p.peer.Some?
  {
    if h.msgNo <= p.recvNo then [] else SkipOpsOf(p, h.msgNo)
  }

  /** The inserts that one Decrypt performs. */
  ghost function DecryptOps(p: Ratchet, c: Ciphertext, draw: KeyId): seq<Op>
    requires p.Valid()
  {
    if c.Short? then []
    else if p.peer == Some(c.header.dhPub) then ReceiveOps(p, c.header)
    else
      SkipValid(p, c.header.prevNo);
      var moved := p.Rekey(c.header, draw);
      SkipOpsOf(p, c.header.prevNo) + if moved.result.Ok? then ReceiveOps(moved.state, c.header) else []
  }

  lemma {:induction false} SkipBuffer(p: Ratchet, until: nat)
    requires p.Valid()
    ensures p.Skip(until).state.buffer == Play(p.buffer, SkipOpsOf(p, until))
  {
    if p.recv.Some? && until <= p.recvNo + MAX_SKIP_ELEMENTS {
      if p.recvNo <= until {
        SkipToIs(p, until);
        SkipPlays(p.buffer, p.peer.value, p.recv.value, p.recvNo, until);
      }
    }
  }

  lemma {:induction false} ReceiveBuffer(p: Ratchet, h: Header, body: Body)
    requires p.Valid()
    ensures p.Receive(h, body).state.buffer == Play(p.buffer, ReceiveOps(p, h))
  {
    hide Ratchet.Skip, SkipOpsOf;
    SkipBuffer(p, h.msgNo);
  }

  lemma {:induction false} DecryptBuffer(p: Ratchet, c: Ciphertext, draw: KeyId)
    requires p.Valid()
    ensures p.Decrypt(c, draw).state.buffer == Play(p.buffer, DecryptOps(p, c, draw))
  {
    hide Ratchet.Receive, ReceiveOps, SkipOpsOf, Ratchet.Skip;
    if c.Packet? {
      var h := c.header;
      if p.peer == Some(h.dhPub) {
        ReceiveBuffer(p, h, c.body);
      } else {
        SkipValid(p, h.prevNo);
        SkipBuffer(p, h.prevNo);
        var moved := p.Rekey(h, draw);
        if moved.result.Ok? {
          ReceiveBuffer(moved.state, h, c.body);
          PlayAppend(p.buffer, SkipOpsOf(p, h.prevNo), ReceiveOps(moved.state, h));
        } else {
          assert SkipOpsOf(p, h.prevNo) + [] == SkipOpsOf(p, h.prevNo);
        }
      }
    }
  }

  lemma {:induction false} SkipOpsLength(peer: Pub, chain: Key, from: nat, until: nat)
    ensures |SkipOps(peer, chain, from, until)| == if from <= until then until - from else 0
    decreases until - from
  {
    if from < until {
      SkipOpsLength(peer, NextOf(chain), from + 1, until);
    }
  }

  /** One Decrypt performs at most 64 inserts. */
  lemma {:induction false} DecryptOpsLength(p: Ratchet, c: Ciphertext, draw: KeyId)
    requires p.Valid()
    ensures |DecryptOps(p, c, draw)| <= 2 * MAX_SKIP_ELEMENTS
  {
    hide SkipOps;
    if c.Packet? {
      SkipValid(p, c.header.prevNo);
      SkipOpsOfLength(p, c.header.prevNo);
      SkipOpsOfLength(p, c.header.msgNo);
      if p.peer != Some(c.header.dhPub) {
        var moved := p.Rekey(c.header, draw);
        if moved.result.Ok? {
          SkipOpsOfLength(moved.state, c.header.msgNo);
        }
      }
    }
  }

  lemma {:induction false} SkipOpsOfLength(p: Ratchet, until: nat)
    requires p.recv.Some? ==> p.peer.Some?
    ensures |SkipOpsOf(p, until)| <= MAX_SKIP_ELEMENTS
  {
    if p.recv.Some? && until <= p.recvNo + MAX_SKIP_ELEMENTS {
      SkipOpsLength(p.peer.value, p.recv.value, p.recvNo, until);
    }
  }
}
