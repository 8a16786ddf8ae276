/** The X3DH key agreement with a signed prekey and no one-time prekeys. */
module X3dh {
  import opened Wrappers
  import opened Keys
  import opened Ratchets

  /** An Ed25519 signature of a public key; only the signer can make it. */
  datatype Signature = Signature(signer: KeyId, signed: Pub)

  predicate Verify(signer: KeyId, signed: Pub, sig: Signature) {
    sig == Signature(signer, signed)
  }

  /** What a party contributes to one of the three agreements: its private key and a public key. */
  datatype Agreement = Agreement(priv: Option<KeyId>, pub: Pub) {
    function Secret(): Result<Key> {
      if priv.None? then Err(NoPrivateKey) else Dh(priv.value, Some(pub))
    }
  }

  /** The secrets of a list of agreements in order, or the first error. */
  function Secrets(steps: seq<Agreement>): Result<seq<Key>> {
    if |steps| == 0 then Ok([])
    else
      var init := Secrets(steps[..|steps| - 1]);
      if init.Err? then init
      else
        var last := steps[|steps| - 1].Secret();
        if last.Err? then Err(last.error) else Ok(init.value + [last.value])
  }

  /** HKDF over a zero block and the key material, which itself starts with three zero blocks. */
  function SessionKey(secrets: seq<Key>): Key {
    Derived([ZeroBlock] + ([ZeroBlock, ZeroBlock, ZeroBlock] + secrets))
  }

  method AgreeOnAll(steps: seq<Agreement>) returns (dhOut: Result<seq<Key>>)
    ensures dhOut == match Secrets(steps)
                     case Ok(secrets) => Ok([ZeroBlock, ZeroBlock, ZeroBlock] + secrets)
                     case Err(e) => Err(e)
  {
    var out := [ZeroBlock, ZeroBlock, ZeroBlock];
    for i := 0 to |steps|
      invariant Secrets(steps[..i]).Ok? && out == [ZeroBlock, ZeroBlock, ZeroBlock] + Secrets(steps[..i]).value
    {
      assert steps[..i + 1][..i] == steps[..i];
      var secret := steps[i].Secret();
      if secret.Err? {
        SecretsFail(steps, i + 1);
        return Err(secret.error);
      }
      out := out + [secret.value];
    }
    assert steps[..|steps|] == steps;
    return Ok(out);
  }

  lemma {:induction false} SecretsFail(steps: seq<Agreement>, n: nat)
    requires n <= |steps| && Secrets(steps[..n]).Err?
    ensures Secrets(steps) == Secrets(steps[..n])
    decreases |steps| - n
  {
    if n == |steps| {
      assert steps[..n] == steps;
    } else {
      assert steps[..n + 1][..n] == steps[..n];
      SecretsFail(steps, n + 1);
    }
  }

  datatype Opening = Opening(sessKey: Key, ad: AssociatedData, ekPub: Pub)
  datatype Secured = Secured(sessKey: Key, ad: AssociatedData)

  function InitialSteps(idKey: KeyId, peerIdKey: KeyId, spkPub: Pub, ek: KeyId): seq<Agreement> {
    [Agreement(Some(idKey), spkPub), Agreement(Some(ek), Point(peerIdKey)), Agreement(Some(ek), spkPub)]
  }

  function InitialMessage(idKey: KeyId, peerIdKey: KeyId, spkPub: Pub, spkSig: Signature, ek: KeyId): Result<Opening> {
    if !Verify(peerIdKey, spkPub, spkSig) then Err(BadSignature)
    else
      match Secrets(InitialSteps(idKey, peerIdKey, spkPub, ek))
      case Err(e) => Err(e)
      case Ok(secrets) => Ok(Opening(SessionKey(secrets), [idKey, peerIdKey], Point(ek)))
  }

  method CreateInitialMessage(idKey: KeyId, peerIdKey: KeyId, spkPub: Pub, spkSig: Signature, ek: KeyId)
      returns (r: Result<Opening>)
    ensures r == InitialMessage(idKey, peerIdKey, spkPub, spkSig, ek)
    ensures r.Ok? <==> spkSig == Signature(peerIdKey, spkPub) && spkPub.Point?
    ensures r.Ok? ==> IsMaterial(r.value.sessKey, Agree(idKey, spkPub.id), Agree(ek, peerIdKey), Agree(ek, spkPub.id))
    ensures r.Ok? ==> r.value.ad == [idKey, peerIdKey] && r.value.ekPub == Point(ek)
  {
    OpeningIsSigned(idKey, peerIdKey, spkPub, spkSig, ek);
    OpeningMaterial(idKey, peerIdKey, spkPub, spkSig, ek);
    if !Verify(peerIdKey, spkPub, spkSig) {
      return Err(BadSignature);
    }
    var dhOut := AgreeOnAll(InitialSteps(idKey, peerIdKey, spkPub, ek));
    if dhOut.Err? {
      return Err(dhOut.error);
    }
    return Ok(Opening(Derived([ZeroBlock] + dhOut.value), [idKey, peerIdKey], Point(ek)));
  }

  function ReceiveSteps(idKey: KeyId, peerIdKey: KeyId, spkPriv: Option<KeyId>, ekPub: Pub): seq<Agreement> {
    [Agreement(spkPriv, Point(peerIdKey)), Agreement(Some(idKey), ekPub), Agreement(spkPriv, ekPub)]
  }

  function ReceivedMessage(idKey: KeyId, peerIdKey: KeyId, spkPriv: Option<KeyId>, ekPub: Pub): Result<Secured> {
    match Secrets(ReceiveSteps(idKey, peerIdKey, spkPriv, ekPub))
    case Err(e) => Err(e)
    case Ok(secrets) => Ok(Secured(SessionKey(secrets), [peerIdKey, idKey]))
  }

  method ReceiveInitialMessage(idKey: KeyId, peerIdKey: KeyId, spkPriv: Option<KeyId>, ekPub: Pub)
      returns (r: Result<Secured>)
    ensures r == ReceivedMessage(idKey, peerIdKey, spkPriv, ekPub)
    ensures r.Ok? <==> spkPriv.Some? && ekPub.Point?
    ensures r.Ok? ==>
              IsMaterial(r.value.sessKey, Agree(spkPriv.value, peerIdKey), Agree(idKey, ekPub.id),
                         Agree(spkPriv.value, ekPub.id))
    ensures r.Ok? ==> r.value.ad == [peerIdKey, idKey]
  {
    ReceivedMaterial(idKey, peerIdKey, spkPriv, ekPub);
    var dhOut := AgreeOnAll(ReceiveSteps(idKey, peerIdKey, spkPriv, ekPub));
    if dhOut.Err? {
      return Err(dhOut.error);
    }
    return Ok(Secured(Derived([ZeroBlock] + dhOut.value), [peerIdKey, idKey]));
  }

  lemma {:induction false} SecretsAppend(steps: seq<Agreement>, a: KeyId, x: KeyId)
    requires Secrets(steps).Ok?
    ensures Secrets(steps + [Agreement(Some(a), Point(x))]) == Ok(Secrets(steps).value + [Agree(a, x)])
  {
    assert (steps + [Agreement(Some(a), Point(x))])[..|steps|] == steps;
  }

  /** The secrets of three agreements whose public keys are points. */
  lemma {:induction false} ThreeSecrets(a: KeyId, x: KeyId, b: KeyId, y: KeyId, c: KeyId, z: KeyId)
    ensures var steps := [Agreement(Some(a), Point(x)), Agreement(Some(b), Point(y)), Agreement(Some(c), Point(z))];
            Secrets(steps) == Ok([Agree(a, x), Agree(b, y), Agree(c, z)])
  {
    SecretsAppend([], a, x);
    SecretsAppend([] + [Agreement(Some(a), Point(x))], b, y);
    SecretsAppend([] + [Agreement(Some(a), Point(x))] + [Agreement(Some(b), Point(y))], c, z);
    assert [] + [Agree(a, x)] + [Agree(b, y)] + [Agree(c, z)] == [Agree(a, x), Agree(b, y), Agree(c, z)];
    assert [] + [Agreement(Some(a), Point(x))] + [Agreement(Some(b), Point(y))] + [Agreement(Some(c), Point(z))]
        == [Agreement(Some(a), Point(x)), Agreement(Some(b), Point(y)), Agreement(Some(c), Point(z))];
  }

  /** Both sides derive the same session key and the same associated data. */
  lemma {:induction false} BothSidesAgree(initiator: KeyId, receiver: KeyId, spk: KeyId, ek: KeyId)
    ensures var sent := InitialMessage(initiator, receiver, Point(spk), Signature(receiver, Point(spk)), ek);
            && sent.Ok?
            && ReceivedMessage(receiver, initiator, Some(spk), sent.value.ekPub) ==
               Ok(Secured(sent.value.sessKey, sent.value.ad))
  {
    ThreeSecrets(initiator, spk, ek, receiver, ek, spk);
    ThreeSecrets(spk, initiator, receiver, ek, spk, ek);
    AgreeCommutes(initiator, spk);
    AgreeCommutes(ek, receiver);
    AgreeCommutes(ek, spk);
  }

  /** An opening is made only for a prekey that the named identity key signed. */
  lemma {:induction false} OpeningIsSigned(idKey: KeyId, peerIdKey: KeyId, spkPub: Pub, spkSig: Signature, ek: KeyId)
    ensures InitialMessage(idKey, peerIdKey, spkPub, spkSig, ek).Ok? <==>
            spkSig == Signature(peerIdKey, spkPub) && spkPub.Point?
  {
    var steps := InitialSteps(idKey, peerIdKey, spkPub, ek);
    if spkPub.Point? {
      ThreeSecrets(idKey, spkPub.id, ek, peerIdKey, ek, spkPub.id);
    } else {
      assert steps[..1][..0] == [];
      assert Secrets(steps[..1]).Err?;
      SecretsFail(steps, 1);
    }
  }

  /** The material of a session key: four zero blocks and three agreements in order. */
  predicate IsMaterial(sessKey: Key, dh1: Key, dh2: Key, dh3: Key) {
    && sessKey.Derived? && |sessKey.material| == 7
    && (forall i :: 0 <= i < 4 ==> sessKey.material[i] == ZeroBlock)
    && sessKey.material[4] == dh1 && sessKey.material[5] == dh2 && sessKey.material[6] == dh3
  }

  /** The same material is the same key. */
  lemma {:induction false} MaterialDecides(k: Key, l: Key, a: Key, b: Key, c: Key, d: Key, e: Key, f: Key)
    requires IsMaterial(k, a, b, c) && IsMaterial(l, d, e, f)
    ensures k == l <==> a == d && b == e && c == f
  {
    if a == d && b == e && c == f {
      assert k.material == l.material;
    }
  }

  /** What the opening side derives its key from: identity and prekey, ephemeral and identity, ephemeral and prekey. */
  lemma {:induction false} OpeningMaterial(idKey: KeyId, peerIdKey: KeyId, spkPub: Pub, spkSig: Signature, ek: KeyId)
    ensures var r := InitialMessage(idKey, peerIdKey, spkPub, spkSig, ek);
            r.Ok? ==>
              && spkPub.Point? && r.value.ad == [idKey, peerIdKey] && r.value.ekPub == Point(ek)
              && IsMaterial(r.value.sessKey, Agree(idKey, spkPub.id), Agree(ek, peerIdKey), Agree(ek, spkPub.id))
  {
    OpeningIsSigned(idKey, peerIdKey, spkPub, spkSig, ek);
    if spkPub.Point? {
      ThreeSecrets(idKey, spkPub.id, ek, peerIdKey, ek, spkPub.id);
    }
  }

  /** What the receiving side derives its key from, and when it can: with a prekey and an ephemeral point. */
  lemma {:induction false} ReceivedMaterial(idKey: KeyId, peerIdKey: KeyId, spkPriv: Option<KeyId>, ekPub: Pub)
    ensures var r := ReceivedMessage(idKey, peerIdKey, spkPriv, ekPub);
            && (r.Ok? <==> spkPriv.Some? && ekPub.Point?)
            && (r.Ok? ==>
                  && r.value.ad == [peerIdKey, idKey]
                  && IsMaterial(r.value.sessKey, Agree(spkPriv.value, peerIdKey), Agree(idKey, ekPub.id),
                                Agree(spkPriv.value, ekPub.id)))
  {
    var steps := ReceiveSteps(idKey, peerIdKey, spkPriv, ekPub);
    if spkPriv.None? {
      assert steps[..1][..0] == [];
      SecretsFail(steps, 1);
    } else if ekPub.Point? {
      ThreeSecrets(spkPriv.value, peerIdKey, idKey, ekPub.id, spkPriv.value, ekPub.id);
    } else {
      assert steps[..2][..1] == [] + [Agreement(spkPriv, Point(peerIdKey))];
      SecretsAppend([], spkPriv.value, peerIdKey);
      SecretsFail(steps, 2);
    }
  }

  /** Two openings have the same session key if and only if they have the same three agreements. */
  lemma {:induction false} OpeningKeysEqualIff(
    id: KeyId, peer: KeyId, spk: KeyId, ek: KeyId, id': KeyId, peer': KeyId, spk': KeyId, ek': KeyId)
    ensures var r := InitialMessage(id, peer, Point(spk), Signature(peer, Point(spk)), ek);
            var r' := InitialMessage(id', peer', Point(spk'), Signature(peer', Point(spk')), ek');
            && r.Ok? && r'.Ok?
            && (r.value.sessKey == r'.value.sessKey <==>
                  Agree(id, spk) == Agree(id', spk') && Agree(ek, peer) == Agree(ek', peer')
                  && Agree(ek, spk) == Agree(ek', spk'))
  {
    OpeningIsSigned(id, peer, Point(spk), Signature(peer, Point(spk)), ek);
    OpeningIsSigned(id', peer', Point(spk'), Signature(peer', Point(spk')), ek');
    OpeningMaterial(id, peer, Point(spk), Signature(peer, Point(spk)), ek);
    OpeningMaterial(id', peer', Point(spk'), Signature(peer', Point(spk')), ek');
    var k := InitialMessage(id, peer, Point(spk), Signature(peer, Point(spk)), ek).value.sessKey;
    var l := InitialMessage(id', peer', Point(spk'), Signature(peer', Point(spk')), ek').value.sessKey;
    MaterialDecides(k, l, Agree(id, spk), Agree(ek, peer), Agree(ek, spk),
                    Agree(id', spk'), Agree(ek', peer'), Agree(ek', spk'));
  }

  /**
   The two sides of a handshake have the same key if and only if each of them computed the same
   three agreements, whatever prekey, ephemeral key and identity keys either of them used.
   */
  lemma {:induction false} SidesAgreeIff(
    id: KeyId, peer: KeyId, spk: KeyId, ek: KeyId, id': KeyId, peer': KeyId, spk': KeyId, ek': KeyId)
    ensures var sent := InitialMessage(id, peer, Point(spk), Signature(peer, Point(spk)), ek);
            var got := ReceivedMessage(id', peer', Some(spk'), Point(ek'));
            && sent.Ok? && got.Ok?
            && (sent.value.sessKey == got.value.sessKey <==>
                  Agree(id, spk) == Agree(peer', spk') && Agree(ek, peer) == Agree(ek', id')
                  && Agree(ek, spk) == Agree(ek', spk'))
            && (sent.value.ad == got.value.ad <==> id == peer' && peer == id')
  {
    OpeningIsSigned(id, peer, Point(spk), Signature(peer, Point(spk)), ek);
    OpeningMaterial(id, peer, Point(spk), Signature(peer, Point(spk)), ek);
    ReceivedMaterial(id', peer', Some(spk'), Point(ek'));
    AgreeCommutes(spk', peer');
    AgreeCommutes(id', ek');
    AgreeCommutes(spk', ek');
    MaterialDecides(InitialMessage(id, peer, Point(spk), Signature(peer, Point(spk)), ek).value.sessKey,
                    ReceivedMessage(id', peer', Some(spk'), Point(ek')).value.sessKey,
                    Agree(id, spk), Agree(ek, peer), Agree(ek, spk),
                    Agree(peer', spk'), Agree(ek', id'), Agree(ek', spk'));
    assert [id, peer][0] == id && [peer', id'][0] == peer';
    assert [id, peer][1] == peer && [peer', id'][1] == id';
  }
}
