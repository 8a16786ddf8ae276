/** The clients of module Clients do what the sides of module Sides do with the policy to store what succeeded. */
module ClientSides {
  import opened Wrappers
  import opened Ratchets
  import opened Persistence
  import opened Sync
  import opened ClientRuns
  import opened ClientKeys
  import Sides

  /** A side with the ratchets that the clients have stored. */
  ghost predicate Shows(v: Sides.Side, w: Net)
    requires Inv(w)
  {
    InvLinked(w, Alice);
    InvLinked(w, Bob);
    v.s == w.s && v.alice == Kept(w, Alice) && v.bob == Kept(w, Bob)
  }

  lemma {:induction false} ShowsParty(v: Sides.Side, w: Net, r: Role)
    requires Inv(w) && Shows(v, w)
    ensures Linked(w.Client(r), r, w.link, w.s) && v.Party(r) == Kept(w, r) && v.s == w.s
  {
    InvLinked(w, r);
  }

  lemma {:induction false} ShowsFrom(v: Sides.Side, w: Net, r: Role)
    requires Inv(w) && v.s == w.s
    requires Linked(w.Client(r), r, w.link, w.s) && Linked(w.Client(r.Peer()), r.Peer(), w.link, w.s)
    requires v.Party(r) == Kept(w, r) && v.Party(r.Peer()) == Kept(w, r.Peer())
    ensures Shows(v, w)
  {
    hide Inv, Linked;
  }

  /** A send that is posted is an Encrypt of the side, with the same packet. */
  lemma {:induction false} SendShows(v: Sides.Side, w: Net, ev: Event)
    requires Inv(w) && Shows(v, w) && Enabled(w, ev) && ev.Send? && ev.posted
    ensures Inv(After(w, ev)) && |v.s.keys| >= 2
    ensures Shows(Sides.Encrypted(v, ev.from, ev.text, ev.draw, Sides.OnSuccess), After(w, ev))
    ensures var out := Sides.EntryOf(v, ev.from, ev.text, ev.draw).out;
            && (out.None? ==> After(w, ev).log == w.log)
            && (out.Some? ==> |After(w, ev).log| == |w.log| + 1 && After(w, ev).log[|w.log|].msg.Data?
                              && After(w, ev).log[|w.log|].msg.payload == out.value)
  {
    hide Inv, Linked, Ratchet.Encrypt, After, Reloaded, Shows, InSync, Running, Listening, Enabled;
    var r := ev.from;
    InvLinked(w, r);
    ShowsParty(v, w, r);
    ShowsParty(v, w, r.Peer());
    SendEffect(w, ev);
    KeptSame(w, After(w, ev), r.Peer());
    var p := Kept(w, r);
    EncryptInSync(p, r, w.s, ev.text, ev.draw);
    NotListening(p, r, w.s);
    ReloadIsExactIff(p.Encrypt(ev.text, ev.draw).state);
    Sides.EncryptedIs(v, r, ev.text, ev.draw, Sides.OnSuccess);
    ShowsFrom(Sides.Encrypted(v, r, ev.text, ev.draw, Sides.OnSuccess), After(w, ev), r);
  }

  /** An arrival is a delivery to the side. */
  lemma {:induction false} ArriveShows(v: Sides.Side, w: Net, ev: Event, x: nat)
    requires Inv(w) && Shows(v, w) && Enabled(w, ev) && ev.Arrive? && ev.msg.Data?
    requires x < |v.Log(ev.to.Peer())| && v.Log(ev.to.Peer())[x].out == Some(ev.msg.payload)
    ensures Inv(After(w, ev)) && (v.Party(ev.to).recv.Some? ==> v.Party(ev.to).peer.Some?)
    ensures Shows(Sides.Delivered(v, ev.to, x, ev.draws.0, Sides.OnSuccess), After(w, ev))
  {
    hide Inv, Linked, Ratchet.Decrypt, After, Reloaded, Shows, InSync, Running, Enabled, PostOk;
    var r := ev.to;
    InvLinked(w, r);
    ShowsParty(v, w, r);
    ShowsParty(v, w, r.Peer());
    var y := ArriveEffect(w, ev);
    KeptSame(w, After(w, ev), r.Peer());
    PostIsPacket(w, y);
    Sides.DeliveredIs(v, r, x, ev.draws.0, Sides.OnSuccess);
    ShowsFrom(Sides.Delivered(v, r, x, ev.draws.0, Sides.OnSuccess), After(w, ev), r);
  }

  lemma {:induction false} PostIsPacket(w: Net, y: nat)
    requires |w.s.keys| >= 2 && y < |w.log| && PostOk(w.log[y], w.link, w.s)
    ensures w.log[y].msg.Data? && w.log[y].msg.payload.Packet?
  {
  }
}
