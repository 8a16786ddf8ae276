/** Saving a Double Ratchet and restoring it. */
module Persistence {
  import opened Wrappers
  import opened Keys
  import opened SkippedKeys
  import opened DhRatchets
  import opened Ratchets

  /** The encoded fields; the cached chains as a list in ring order. */
  datatype Saved = Saved(
    ad: AssociatedData, dhr: DhState, peer: Option<Pub>, send: Option<Key>, recv: Option<Key>,
    sendNo: nat, recvNo: nat, prevSendNo: nat, chains: seq<Chain>)

  function Save(p: Ratchet): Saved {
    Saved(p.ad, p.dhr, p.peer, p.send, p.recv, p.sendNo, p.recvNo, p.prevSendNo, p.buffer)
  }

  /** All fields but `prevSendNo` come back; of the cached chains only the last of the list, the oldest. */
  function Restore(saved: Saved): Ratchet {
    Ratchet(saved.ad, saved.dhr, saved.peer, saved.send, saved.recv, saved.sendNo, saved.recvNo, 0,
            if |saved.chains| == 0 then [] else [saved.chains[|saved.chains| - 1]])
  }

  /** What a restored ratchet is, field by field. */
  function Reloaded(p: Ratchet): Ratchet {
    Restore(Save(p))
  }

  /** Restoring is exact if and only if nothing was lost that is not saved. */
  lemma {:induction false} ReloadIsExactIff(p: Ratchet)
    ensures Reloaded(p) == p.(prevSendNo := 0, buffer := Reloaded(p).buffer)
    ensures Reloaded(p) == p <==> p.prevSendNo == 0 && |p.buffer| <= 1
    ensures Reloaded(Reloaded(p)) == Reloaded(p)
    ensures p.Valid() ==> Reloaded(p).Valid()
  {
    if Reloaded(p) == p {
      assert |Reloaded(p).buffer| <= 1;
    } else if |p.buffer| == 1 {
      assert p.buffer == [p.buffer[0]];
    }
  }

  /** A lookup after a reload answers as before for the oldest chain, and fails for every other one. */
  lemma {:induction false} ReloadFinds(p: Ratchet, dhPub: Pub, n: nat)
    requires p.Valid()
    ensures |p.buffer| > 0 && p.buffer[|p.buffer| - 1].dhPub == dhPub ==>
              Find(Reloaded(p).buffer, dhPub, n) == Find(p.buffer, dhPub, n)
    ensures |p.buffer| == 0 || p.buffer[|p.buffer| - 1].dhPub != dhPub ==>
              Find(Reloaded(p).buffer, dhPub, n) == Err(ChainNotCached)
  {
    if |p.buffer| > 0 {
      var last := |p.buffer| - 1;
      if p.buffer[last].dhPub == dhPub {
        IndexOfUnique(p.buffer, dhPub, last);
        IndexOfUnique(Reloaded(p).buffer, dhPub, 0);
      } else {
        IndexOfUnique(Reloaded(p).buffer, dhPub, 1);
      }
    }
  }

  /** With two chains cached, a number that was skipped on the newer one cannot be opened after a reload. */
  lemma {:induction false} ReloadForgetsTheCurrentChain(p: Ratchet, h: Header, body: Body, draw: KeyId)
    requires p.Valid() && |p.buffer| >= 2
    requires p.peer == Some(h.dhPub) && p.buffer[0].dhPub == h.dhPub && h.msgNo < p.recvNo
    requires h.msgNo in p.buffer[0].msgKeys
    requires body.Box? && body == Box(p.buffer[0].msgKeys[h.msgNo], p.ad, body.plaintext)
    ensures p.Decrypt(Packet(h, body), draw).result == Ok(body.plaintext)
    ensures Reloaded(p).Decrypt(Packet(h, body), draw).result == Err(ChainNotCached)
  {
    IndexOfUnique(p.buffer, h.dhPub, 0);
    ReloadFinds(p, h.dhPub, h.msgNo);
  }
}
