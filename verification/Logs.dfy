/** What was sent: a log of Encrypt calls, counted by sending chain. */
module Logs {
  import opened Wrappers
  import opened Ratchets
  import opened Sync

  /** An Encrypt call: its position in the schedule, the plaintext and the packet, if one came out. */
  datatype Sent = Sent(sender: Role, chain: nat, plaintext: Bytes, out: Option<Ciphertext>) {
    predicate Made() {
      out.Some? && out.value.Packet?
    }

    function Head(): Header
      requires Made()
    {
      out.value.header
    }
  }

  /** The Encrypt calls on chain `i`. */
  function Count(log: seq<Sent>, i: int): nat {
    if |log| == 0 then 0
    else Count(log[..|log| - 1], i) + if log[|log| - 1].chain == i then 1 else 0
  }

  lemma {:induction false} CountAppend(log: seq<Sent>, e: Sent, i: int)
    ensures Count(log + [e], i) == Count(log, i) + if e.chain == i then 1 else 0
  {
    assert (log + [e])[..|log|] == log;
  }

  lemma {:induction false} CountAbsent(log: seq<Sent>, i: int)
    requires forall x :: 0 <= x < |log| ==> log[x].chain != i
    ensures Count(log, i) == 0
  {
    if |log| > 0 {
      CountAbsent(log[..|log| - 1], i);
    }
  }

  lemma {:induction false} CountGrows(log: seq<Sent>, x: nat, y: nat)
    requires x < y <= |log|
    ensures Count(log[..x], log[x].chain) < Count(log[..y], log[x].chain)
  {
    assert log[..y][..y - 1] == log[..y - 1];
    if x < y - 1 {
      CountGrows(log, x, y - 1);
    }
  }

  /** Calls between two positions add at most their number: all of it if they are on the chain, nothing if none is. */
  lemma {:induction false} CountRange(log: seq<Sent>, at: nat, x: nat, i: int)
    requires at <= x <= |log|
    ensures Count(log[..at], i) <= Count(log[..x], i) <= Count(log[..at], i) + (x - at)
    ensures (forall y :: at <= y < x ==> log[y].chain == i) ==> Count(log[..x], i) == Count(log[..at], i) + (x - at)
    ensures (forall y :: at <= y < x ==> log[y].chain != i) ==> Count(log[..x], i) == Count(log[..at], i)
  {
    if at < x {
      CountRange(log, at, x - 1, i);
      assert log[..x][..x - 1] == log[..x - 1];
    }
  }
}
