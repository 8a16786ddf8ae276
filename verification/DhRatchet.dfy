/** The Diffie-Hellman ratchet with its root chain. */
module DhRatchets {
  import opened Wrappers
  import opened Keys

  datatype DhState = DhState(root: Key, pub: Pub, priv: KeyId, peer: Option<Pub>, active: bool, initialized: bool) {

    /** A step against the peer's key; `draw` is the key pair drawn if one is drawn. */
    function Step(peerDhPub: Option<Pub>, draw: KeyId): DhStep {
      if active && !initialized then
        match Dh(priv, peer)
        case Err(e) => DhStep(this, None, None, Some(e))
        case Ok(s) => DhStep(this.(root := RootOf(root, s), initialized := true), Some(ChainOf(root, s)), None, None)
      else
        var moved := this.(peer := peerDhPub);
        match Dh(priv, peerDhPub)
        case Err(e) => DhStep(moved, None, None, Some(e))
        case Ok(r) =>
          var closed := moved.(root := RootOf(root, r), pub := Point(draw), priv := draw);
          match Dh(draw, peerDhPub)
          case Err(e) => DhStep(closed, None, Some(ChainOf(root, r)), Some(e))
          case Ok(s) =>
            DhStep(closed.(root := RootOf(closed.root, s)),
                   Some(ChainOf(closed.root, s)), Some(ChainOf(root, r)), None)
    }
  }

  /** The state after a step, the chain keys it returns and its error, if any. */
  datatype DhStep = DhStep(state: DhState, send: Option<Key>, recv: Option<Key>, err: Option<Error>)

  /** The active peer, who knows the passive peer's public key and draws `draw`. */
  function Active(rootKey: Key, peerDhPub: Pub, draw: KeyId): DhState {
    DhState(rootKey, Point(draw), draw, Some(peerDhPub), true, false)
  }

  /** The passive peer, who owns the key pair that the active peer knows. */
  function Passive(rootKey: Key, dhPub: Pub, dhPriv: KeyId): DhState {
    DhState(rootKey, dhPub, dhPriv, None, false, false)
  }

  class DhRatchet {
    var rootKey: Key
    var dhPub: Pub
    var dhPriv: KeyId
    var peerDhPub: Option<Pub>
    var isActive: bool
    var isInitialized: bool

    ghost function Value(): DhState
      reads this
    {
      DhState(rootKey, dhPub, dhPriv, peerDhPub, isActive, isInitialized)
    }

    constructor CreateActive(root: Key, peer: Pub, draw: KeyId)
      ensures Value() == Active(root, peer, draw)
    {
      isActive, isInitialized := true, false;
      rootKey, peerDhPub := root, Some(peer);
      dhPub, dhPriv := Point(draw), draw;
    }

    constructor CreatePassive(root: Key, pub: Pub, priv: KeyId)
      ensures Value() == Passive(root, pub, priv)
    {
      isActive, isInitialized := false, false;
      rootKey, dhPub, dhPriv, peerDhPub := root, pub, priv, None;
    }

    constructor UnmarshalBinary(saved: DhState)
      ensures Value() == saved
    {
      rootKey, dhPub, dhPriv := saved.root, saved.pub, saved.priv;
      peerDhPub, isActive, isInitialized := saved.peer, saved.active, saved.initialized;
    }

    method MarshalBinary() returns (saved: DhState)
      ensures saved == Value()
    {
      saved := DhState(rootKey, dhPub, dhPriv, peerDhPub, isActive, isInitialized);
    }

    method Step(peer: Option<Pub>, draw: KeyId)
        returns (sendKey: Option<Key>, recvKey: Option<Key>, err: Option<Error>)
      modifies this
      ensures DhStep(Value(), sendKey, recvKey, err) == old(Value()).Step(peer, draw)
    {
      sendKey, recvKey, err := None, None, None;
      // Nothing received yet: the active peer only opens its sending chain.
      if isActive && !isInitialized {
        var secret := Dh(dhPriv, peerDhPub);
        if secret.Err? {
          err := Some(secret.error);
          return;
        }
        rootKey, sendKey := RootOf(rootKey, secret.value), Some(ChainOf(rootKey, secret.value));
        isInitialized := true;
        return;
      }
      peerDhPub := peer;
      // The peer's new sending chain is the receiving chain here.
      var secret := Dh(dhPriv, peerDhPub);
      if secret.Err? {
        err := Some(secret.error);
        return;
      }
      rootKey, recvKey := RootOf(rootKey, secret.value), Some(ChainOf(rootKey, secret.value));
      // A new key pair opens the next sending chain; an agreement fails on the public key alone.
      dhPub, dhPriv := Point(draw), draw;
      secret := Dh(dhPriv, peerDhPub);
      if secret.Err? {
        assert false;
      }
      rootKey, sendKey := RootOf(rootKey, secret.value), Some(ChainOf(rootKey, secret.value));
    }
  }

  // ---------- Ping-pong: the two parties take turns, the active one first ----------

  /** Both ratchets, the last announced public key and the last returned chain keys. */
  datatype Game = Game(
    alice: DhState, bob: DhState, announced: Option<Pub>, send: Option<Key>, recv: Option<Key>, failed: bool)

  /** The game after `n` steps; `draws[k]` is the key pair that step `k` may draw. */
  function PingPong(rootKey: Key, spk: KeyId, own: KeyId, draws: seq<KeyId>, n: nat): Game
    requires n <= |draws|
  {
    if n == 0 then Game(Active(rootKey, Point(spk), own), Passive(rootKey, Point(spk), spk), None, None, None, false)
    else
      var g := PingPong(rootKey, spk, own, draws, n - 1);
      var r := (if n % 2 == 1 then g.alice else g.bob).Step(g.announced, draws[n - 1]);
      Game(if n % 2 == 1 then r.state else g.alice, if n % 2 == 1 then g.bob else r.state,
           Some(r.state.pub), r.send, r.recv, g.failed || r.err.Some?)
  }

  /** The key pairs in use: the prekey, the active peer's first one, then one per step from the second on. */
  function Schedule(spk: KeyId, own: KeyId, draws: seq<KeyId>): seq<KeyId> {
    [spk, own] + if |draws| == 0 then [] else draws[1..]
  }

  /** What the game looks like after `n` steps, in terms of the key schedule. */
  ghost predicate InStep(g: Game, keys: seq<KeyId>, rootKey: Key, n: nat)
    requires 1 <= n < |keys|
  {
    var mover := if n % 2 == 1 then g.alice else g.bob;
    var other := if n % 2 == 1 then g.bob else g.alice;
    && !g.failed
    && mover.root == Root(keys, rootKey, n) && other.root == Root(keys, rootKey, n - 1)
    && mover.priv == keys[n] && mover.pub == Point(keys[n]) && g.announced == Some(Point(keys[n]))
    && other.priv == keys[n - 1] && other.pub == Point(keys[n - 1])
    && g.send == Some(ChainStart(keys, rootKey, n))
    && g.recv == (if n == 1 then None else Some(ChainStart(keys, rootKey, n - 1)))
    && g.alice.active && g.alice.initialized && !g.bob.active
  }

  lemma {:induction false} PingPongInStep(rootKey: Key, spk: KeyId, own: KeyId, draws: seq<KeyId>, n: nat)
    requires 1 <= n <= |draws|
    ensures InStep(PingPong(rootKey, spk, own, draws, n), Schedule(spk, own, draws), rootKey, n)
  {
    var keys := Schedule(spk, own, draws);
    if n == 1 {
      AgreeCommutes(own, spk);
      assert PingPong(rootKey, spk, own, draws, 0).alice == Active(rootKey, Point(spk), own);
      assert Root(keys, rootKey, 0) == rootKey;
    } else {
      PingPongInStep(rootKey, spk, own, draws, n - 1);
      assert keys[n] == draws[n - 1];
      AgreeCommutes(keys[n - 2], keys[n - 1]);
      AgreeCommutes(keys[n - 1], keys[n]);
    }
  }

  /**
   Each step's receiving key is the sending key of the peer's step before it, and the stepping
   party's root key grows out of the root key that its peer holds at the hand-over.
   */
  lemma PingPongAgrees(rootKey: Key, spk: KeyId, own: KeyId, draws: seq<KeyId>, n: nat)
    requires 1 <= n < |draws|
    ensures var g := PingPong(rootKey, spk, own, draws, n);
            var h := PingPong(rootKey, spk, own, draws, n + 1);
            && !h.failed
            && h.recv == g.send && h.recv.Some?
            && h.send.Some? && h.send != h.recv
            && var moved := if n % 2 == 1 then h.bob else h.alice;
               var waiting := if n % 2 == 1 then g.alice else g.bob;
               moved.root.RootOf? && moved.root.root == waiting.root
  {
    PingPongInStep(rootKey, spk, own, draws, n);
    PingPongInStep(rootKey, spk, own, draws, n + 1);
    var keys := Schedule(spk, own, draws);
    RootDepthOf(keys, rootKey, n);
    RootDepthOf(keys, rootKey, n - 1);
  }
}
