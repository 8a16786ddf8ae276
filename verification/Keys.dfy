/**
 Symbolic keys.  A key pair is an identifier, X25519 agreement is the unordered
 pair of two identifiers, and every KDF output is a free constructor applied to
 the inputs of the KDF.
 */
module Keys {
  import opened Wrappers

  type KeyId = nat

  /** A 32-byte X25519 public key: that of a key pair, or a point X25519 refuses. */
  datatype Pub = Point(id: KeyId) | LowOrder(tag: nat)

  /** A 32-byte secret. */
  datatype Key =
    | Seed(id: nat)
    | ZeroBlock
    | Agreed(lo: KeyId, hi: KeyId)
    | Derived(material: seq<Key>)
    | RootOf(root: Key, dh: Key)
    | ChainOf(root: Key, dh: Key)
    | NextOf(chain: Key)
    | MessageOf(chain: Key)

  function Agree(a: KeyId, b: KeyId): Key {
    if a <= b then Agreed(a, b) else Agreed(b, a)
  }

  /** Both ends of a Diffie-Hellman agreement compute the same secret. */
  lemma AgreeCommutes(a: KeyId, b: KeyId)
    ensures Agree(a, b) == Agree(b, a)
  {
  }

  /** X25519 with the length check in front of it. */
  function Dh(priv: KeyId, pub: Option<Pub>): Result<Key> {
    match pub
    case None => Err(NoPublicKey)
    case Some(LowOrder(_)) => Err(LowOrderPoint)
    case Some(Point(id)) => Ok(Agree(priv, id))
  }

  /** `n` applications of the chain KDF to a chain key. */
  function Advance(chain: Key, n: nat): Key {
    if n == 0 then chain else NextOf(Advance(chain, n - 1))
  }

  lemma {:induction false} AdvanceAdds(chain: Key, n: nat, m: nat)
    ensures Advance(Advance(chain, n), m) == Advance(chain, n + m)
  {
    if m == 0 {
    } else {
      AdvanceAdds(chain, n, m - 1);
    }
  }

  /** Different positions of chains that start at root KDF outputs hold different keys. */
  lemma {:induction false} AdvanceInjective(a: Key, n: nat, b: Key, m: nat)
    requires a.ChainOf? && b.ChainOf?
    requires Advance(a, n) == Advance(b, m)
    ensures a == b && n == m
  {
    if n == 0 || m == 0 {
    } else {
      AdvanceInjective(a, n - 1, b, m - 1);
    }
  }

  // The key schedule that two honest parties follow.  keys[0] is the passive
  // party's first key pair, keys[1] the active party's, and so on in turn.
  // Chain i is sent by the owner of keys[i], to the owner of keys[i - 1].

  /** The root key after `i` root KDF applications. */
  function Root(keys: seq<KeyId>, seed: Key, i: nat): Key
    requires i < |keys|
  {
    if i == 0 then seed else RootOf(Root(keys, seed, i - 1), Agree(keys[i - 1], keys[i]))
  }

  /** The first chain key of chain `i`. */
  function ChainStart(keys: seq<KeyId>, seed: Key, i: nat): Key
    requires 0 < i < |keys|
  {
    ChainOf(Root(keys, seed, i - 1), Agree(keys[i - 1], keys[i]))
  }

  /** The chain key of chain `i` once `n` message keys have been taken from it. */
  function ChainKey(keys: seq<KeyId>, seed: Key, i: nat, n: nat): Key
    requires 0 < i < |keys|
  {
    Advance(ChainStart(keys, seed, i), n)
  }

  /** The `n`-th message key of chain `i`. */
  function MessageKey(keys: seq<KeyId>, seed: Key, i: nat, n: nat): Key
    requires 0 < i < |keys|
  {
    MessageOf(ChainKey(keys, seed, i, n))
  }

  /** The schedule so far does not change when the next key pair is drawn. */
  lemma {:induction false} RootPrefix(keys: seq<KeyId>, next: KeyId, seed: Key, i: nat)
    requires i < |keys|
    ensures Root(keys + [next], seed, i) == Root(keys, seed, i)
    ensures 0 < i ==> ChainStart(keys + [next], seed, i) == ChainStart(keys, seed, i)
  {
    if i == 0 {
    } else {
      RootPrefix(keys, next, seed, i - 1);
    }
  }

  function RootDepth(k: Key): nat {
    if k.RootOf? then 1 + RootDepth(k.root) else 0
  }

  lemma {:induction false} RootDepthOf(keys: seq<KeyId>, seed: Key, i: nat)
    requires i < |keys|
    ensures RootDepth(Root(keys, seed, i)) == RootDepth(seed) + i
  {
    if i == 0 {
    } else {
      RootDepthOf(keys, seed, i - 1);
    }
  }

  /** No message key occurs twice in the schedule, whatever key pairs were drawn. */
  lemma MessageKeyInjective(keys: seq<KeyId>, seed: Key, i: nat, n: nat, j: nat, m: nat)
    requires 0 < i < |keys| && 0 < j < |keys|
    requires MessageKey(keys, seed, i, n) == MessageKey(keys, seed, j, m)
    ensures i == j && n == m
  {
    AdvanceInjective(ChainStart(keys, seed, i), n, ChainStart(keys, seed, j), m);
    RootDepthOf(keys, seed, i - 1);
    RootDepthOf(keys, seed, j - 1);
  }

  /** A key pair that has not been drawn yet. */
  lemma {:induction false} NewKey(keys: seq<KeyId>) returns (k: KeyId)
    ensures k !in keys
  {
    k := Above(keys);
  }

  lemma {:induction false} Above(keys: seq<KeyId>) returns (k: KeyId)
    ensures forall i :: 0 <= i < |keys| ==> keys[i] < k
  {
    if |keys| == 0 {
      k := 0;
    } else {
      var l := Above(keys[..|keys| - 1]);
      k := if keys[|keys| - 1] < l then l else keys[|keys| - 1] + 1;
    }
  }
}
