# A verified model of the ratchet chat

The repository implements a chat over untrusted message boxes: a Double Ratchet (sections 3.2 to 3.5
of Signal's "The Double Ratchet Algorithm") that is started by X3DH, saved to disk after every
operation and carried in short text messages. This project models that core and proves what two
honest parties can rely on.

**Layers.** `Keys` makes keys symbolic terms. `SkippedKeys`, `DhRatchet` and `Ratchet` give the cache,
the DH ratchet and the Double Ratchet as functions on values; `KeyBuffer` and `DoubleRatchet` (with the
class in `DhRatchet`) are the objects of the source, each method proved to do what the function says.
`Sync` relates one ratchet to the key schedule that both parties follow. `Logs`, `Runs` and
`RunTheorems` treat two ratchets in memory and a network that loses, repeats and reorders. `Inserts`,
`Astray` and `StaleRuns` treat what follows a stale packet, `Silence` when a session is over, `Bounds`
arbitrary input. `Persistence`, `X3dh`, `Session`, `Handshake`, `Client`, `ClientRuns`, `ClientKeys` and
`ClientExamples` add saving, the handshake and the load-operate-store steps of the client; `Trust` and
`ClientLife` say whom they believe, what they keep on disk and how a chat begins and ends. `Sides`,
`Simulation`, `Exceptions` and `ClientSides` compare ratchets in memory with ratchets that are reloaded
before every operation. `MsgHeader`, `Base64`, `Wire`, `Pkcs7`, `Payload` and `CurveConversion` are the
byte-level codecs and the key conversion. `Arithmetic` and `Wrappers` are shared helpers.

**Main results.** In every run without stale deliveries the two ratchets keep one relation
(`ReachableInv`), accept exactly what lies within the limits (`AcceptedIffWithinLimits`,
`AnyOrderIsAccepted`), return exactly what was sent (`AcceptedWasSent`), never use a message key twice
(`MessageKeysUnique`) and never evict a key they still need (`SkippedKeyIsKept`). After a stale
delivery, exactly what was cached before and has survived can still be opened (`AcceptedAfterStaleIff`),
and the peer hears nothing any more (`PeerAcceptsNothing`). `SilentIff` says when nothing new can be
accepted. Two clients that store only what succeeded are safe in every run, stale deliveries included,
from every completed handshake on (`EveryRunIsSafe`, `SafeAfterHandshake`). Offers and acknowledgements
are accepted from the expected identity key only, under exact conditions (`OfferAcceptedIff`,
`AckAcceptedIff`), the session key is made of exactly the three agreements (`OpeningKeysEqualIff`), the
pending answer survives every run until it is posted (`RunKeepsTheRest`, `ChatKeepsInv`), and a close
message ends the session on both sides (`CloseEndsBoth`). Reloading keeps up with the
ratchet in memory on exactly the runs without an exception (`SimulatesIff`, `AfterHandshakeIff`), and on
all runs if failed operations were stored too (`StoringAlwaysKeepsUp`).

**Modelling choices.** A key pair is an identifier, a Diffie-Hellman secret an unordered pair of them,
a KDF output a free constructor; a sealed body opens with its own message key and associated data
only, because the HMAC key is derived from the message key. Drawing a key pair is a parameter that is
unused so far. Files are keyed by the entropy of the session identifier. Clocks, random bytes, the
outcome of posting a message and the looked-up peer key are parameters. Run-time panics of the source
are error values (`IndexPanic`, `NoIdentityKey`).

**Where the code is narrower than its documentation.** The model follows the code.

- A packet that announces a key other than the current one triggers a DH step before the cache is
  consulted (doubleratchet/doubleratchet.go:199), so a late packet of a superseded chain is refused. In
  memory, if it is within the limit, the receiver leaves the schedule for good (`StaleKeepsSyncIff`):
  nothing that was not cached then is ever accepted again (`NothingNewIsAccepted`). What was cached can
  still open on a second delivery, when the first one has made its chain the present one
  (`StaleOpensAgain`, `LiveOpensAgain`). `StaleHappens`, `StaleOpensAgainHappens` and
  `LiveOpensAgainHappens` give runs.
- The limit of 32 is one per gap, not one per chain (doubleratchet/doubleratchet.go:162): `TwoGapsInOneChain`.
- A restore loses `prevSendNo` and all cached chains but the oldest (doubleratchet/marshal.go:97-100 and
  195-200): `ReloadIsExactIff`, `ReloadForgetsTheCurrentChain`, and `ReloadForgetsHappens` for a run. A client
  that has cached one chain never opens a number it passed over on another one: `PassedOverIsLost`, with
  `PassedOverHappens` for a run.
- "A client accepts at least what a ratchet in memory accepts" does not hold of every ordered run. A
  ratchet in memory that follows its peer's next chain and only then finds the number out of reach
  (prevNo within the limit, n > 32) has moved on to a new sending chain, while the client has not stored
  that step. For sessions there are two exceptions (`AfterHandshakeIff`). On the new chain the peer in
  memory forgives a gap of 32 at the end of the old chain and another one of 32 on the new chain; at the
  client both are one gap (`Shortcut`). The client goes on numbering its old chain and runs out of numbers
  earlier (`Exhausted`). `ShortcutHappens` and `ExhaustionHappens` give runs. Bare passive ratchets know a
  third one (`Unopened`): if their first packet is out of reach they get a sending chain in memory only. A
  session creates its passive ratchet together with the first message, so clients never meet it
  (`ReceiveKeepsReady`).
- A message that was made but whose posting failed is not stored (client/client.go:261-271), so the next
  message is sealed with the same key: `KeySharedIff`, and `KeySharedHappens` for a run.
- An acknowledgement that passes every check but does not open leaves a session in memory with a ratchet
  (xochimilco/session.go:255-261), and the good one that comes later is refused: `FailedAckSticksIff`. A
  client has not stored that state and goes on waiting (`AckIsStoredIff`).
- "This resets the internal state. Thus, the same Session might be reused" (xochimilco/session.go:346) is
  true only of sessions that were never established: the handshake clears the identity key
  (xochimilco/session.go:230 and 268) and closing does not bring it back (`ReusableIff`,
  `EstablishedIsSpent`). Clients are not affected, they delete a closed session and make a new one.
- The key material of X3DH starts with 128 zero bytes instead of 32, because the buffer is appended to
  a slice that already has 96 (x3dh/x3dh.go:117); both sides do the same.

## Model

| member | source | states |
|---|---|---|
| `Keys.AgreeCommutes` | doubleratchet/primitives.go:44-52 | both ends of a Diffie-Hellman agreement obtain the same secret |
| `Keys.AdvanceInjective` | doubleratchet/primitives.go:61-75 | two positions of chains that start at root KDF outputs hold the same key only if they are the same position of the same chain |
| `Keys.MessageKeyInjective` | doubleratchet/primitives.go:61-98 | along one key schedule, equal message keys come from the same chain and the same number |
| `KeyBuffers.KeyBuffer.constructor` | doubleratchet/key_buff.go:39-41 | a new ring of eight slots is valid and caches nothing |
| `KeyBuffers.KeyBuffer.ElementFind` | doubleratchet/key_buff.go:45-57 | walking the whole ring finds a chain if and only if it is cached, at its FIFO position |
| `KeyBuffers.KeyBuffer.ElementAdd` | doubleratchet/key_buff.go:61-71 | moving the head and overwriting a slot is pushing onto a FIFO of eight, whatever is cached; the ninth chain falls off; a chain that is not cached keeps the keys distinct |
| `KeyBuffers.KeyBuffer.Update` | doubleratchet/key_buff.go:89-96 | changing a cached element in place changes one position of the FIFO and nothing else |
| `KeyBuffers.KeyBuffer.Find` | doubleratchet/key_buff.go:74-86 | the lookup of the FIFO, with both of its error cases |
| `KeyBuffers.KeyBuffer.Insert` | doubleratchet/key_buff.go:89-96 | the insert of the FIFO; the ring stays valid |
| `KeyBuffers.KeyBuffer.MarshalBinary` | doubleratchet/marshal.go:66-84 | the cached chains in ring order, newest first |
| `KeyBuffers.KeyBuffer.UnmarshalBinary` | doubleratchet/marshal.go:86-103 | on a new ring, only the last chain of the list is restored |
| `SkippedKeys.FindAfterInsert` | doubleratchet/key_buff.go:74-96 | within one chain an insert is a map update, whether or not the chain had to be added |
| `SkippedKeys.InsertShifts` | doubleratchet/key_buff.go:61-96 | another insert moves a kept key by one position exactly if its chain had to be added, and drops it exactly at the end of the ring |
| `SkippedKeys.PlayShifts` | doubleratchet/key_buff.go:61-96 | the same for a whole history of inserts |
| `SkippedKeys.LastInsertedIsFound` | doubleratchet/key_buff.go:39-96 | for every history: the key inserted last for a chain and number is found later if and only if the chains added since do not push its chain out of the eight; the chains stay pairwise distinct |
| `DhRatchets.DhRatchet.CreateActive` | doubleratchet/dh_ratchet.go:27-36 | the fields of an active ratchet |
| `DhRatchets.DhRatchet.CreatePassive` | doubleratchet/dh_ratchet.go:39-47 | the fields of a passive ratchet |
| `DhRatchets.DhRatchet.Step` | doubleratchet/dh_ratchet.go:56-103 | the object does one step of the specification, including the fields it leaves behind when a step fails half way |
| `DhRatchets.DhRatchet.MarshalBinary` | doubleratchet/marshal.go:11-37 | all fields are saved |
| `DhRatchets.DhRatchet.UnmarshalBinary` | doubleratchet/marshal.go:39-64 | all fields are restored |
| `DhRatchets.PingPongInStep` | doubleratchet/dh_ratchet.go:56-103 | after any number of alternating steps both states are those of one common key schedule, and no step failed |
| `DhRatchets.PingPongAgrees` | doubleratchet/dh_ratchet.go:56-103 | each receiving key is the sending key of the peer's step before it, and the new root key is derived from the root key that the peer holds at the hand-over |
| `DoubleRatchets.DoubleRatchet.CreateActive` | doubleratchet/doubleratchet.go:75-88 | the initial active ratchet |
| `DoubleRatchets.DoubleRatchet.CreatePassive` | doubleratchet/doubleratchet.go:93-105 | the initial passive ratchet |
| `DoubleRatchets.DoubleRatchet.DhStep` | doubleratchet/doubleratchet.go:111-118 | the object does the DH step of the specification and keeps its invariant |
| `DoubleRatchets.DoubleRatchet.Encrypt` | doubleratchet/doubleratchet.go:123-156 | the object does the Encrypt of the specification, on every error path too |
| `DoubleRatchets.DoubleRatchet.SkipMsgKeys` | doubleratchet/doubleratchet.go:161-183 | the loop does the skipping of the specification: same cache, chain key and counter, nothing on an error |
| `DoubleRatchets.DoubleRatchet.Decrypt` | doubleratchet/doubleratchet.go:189-238 | the object does the Decrypt of the specification for any ciphertext, state and result |
| `DoubleRatchets.DoubleRatchet.Receive` | doubleratchet/doubleratchet.go:213-237 | the second half of Decrypt: cached, skipped or next message key |
| `DoubleRatchets.DoubleRatchet.MarshalBinary` | doubleratchet/marshal.go:130-171 | what is saved of a ratchet |
| `DoubleRatchets.DoubleRatchet.UnmarshalBinary` | doubleratchet/marshal.go:172-212 | what is restored of any saved value: prevSendNo stays zero, one chain survives |
| `Ratchets.SkipToIs` | doubleratchet/doubleratchet.go:172-180 | skipping in closed form: the chain key advanced by the gap, the counter at the target, one insert per number |
| `Ratchets.SkipInsertsFind` | doubleratchet/doubleratchet.go:172-180 | skipping caches exactly the skipped numbers, each with its own key, and keeps what was cached of the chain |
| `Ratchets.OperationsKeepValid` | doubleratchet/doubleratchet.go:123-238 | Encrypt and Decrypt keep a ratchet valid, whatever they are given |
| `Sync.EncryptInSync` | doubleratchet/doubleratchet.go:123-156 | encrypting takes the next key of the own chain of the schedule, and keeps a party in step even if it fails; it succeeds if and only if both counters are below 65536 |
| `Sync.ReceiveInSync` | doubleratchet/doubleratchet.go:213-237 | on the current receiving chain: the sender's key for that number within the limit, a cached key below the counter, an error and no change beyond the limit; the party stays in step in all cases |
| `Sync.RekeyInSync` | doubleratchet/doubleratchet.go:199-211 | following the peer to its next chain: refused without a trace beyond the limit, otherwise both parties hold the same two chains, the counters restart and the tail of the old chain is cached |
| `Sync.StepInSync` | doubleratchet/dh_ratchet.go:74-102 | one DH step moves a party two positions along the common schedule |
| `Sync.PeerDraws` | doubleratchet/doubleratchet.go:199-211 | a party stays in step while its peer draws the next key pair |
| `Sync.DecryptCurrent` | doubleratchet/doubleratchet.go:189-238 | exact acceptance, result and new state for an honest packet of the current chain |
| `Sync.DecryptFollows` | doubleratchet/doubleratchet.go:189-238 | exact acceptance, result and new state for an honest packet of the next chain, including the step that is taken although the packet is refused |
| `Sync.ReloadInSync` | doubleratchet/marshal.go:130-212 | a party stays in step over a save and a restore |
| `Sync.StaleIsRefusedInStep` | doubleratchet/doubleratchet.go:199-211 | a ratchet in step refuses a packet of a superseded chain |
| `Runs.StepKeepsInv` | doubleratchet/doubleratchet.go:111-238 | every Encrypt, delivery, loss and duplication keeps the two-party relation: chain and root keys, counters, cache, messages under way; rejected deliveries included |
| `Runs.RunKeepsInv` | doubleratchet/doubleratchet.go:111-238 | the same for runs of any length |
| `Runs.ReachableInv` | doubleratchet/doubleratchet.go:75-238 | the relation holds in every world that any run from the start of a session reaches |
| `RunTheorems.AcceptedWasSent` | doubleratchet/doubleratchet.go:189-238 | in every reachable world, an accepted packet yields exactly the plaintext of the Encrypt call that made it, and both ratchets are in step afterwards, accepted or not |
| `RunTheorems.AcceptedIffWithinLimits` | doubleratchet/doubleratchet.go:161-234 | a number not opened before is accepted if and only if n <= recvNo+32 on the current chain, or prevNo <= recvNo+32 and n <= 32 on the next one |
| `RunTheorems.AnyOrderIsAccepted` | doubleratchet/doubleratchet.go:161-234 | packets of one chain that are within the limits when the first of them arrives are all accepted, in any order |
| `RunTheorems.MessageKeysUnique` | doubleratchet/doubleratchet.go:123-156 | no two Encrypt calls of either party ever use the same message key |
| `RunTheorems.StepsAlternate` | doubleratchet/doubleratchet.go:199-211 | the step counts of the two parties differ by at most one, the active party ahead |
| `RunTheorems.NoKeyIsLost` | doubleratchet/doubleratchet.go:166-170 | a party without a receiving chain only sees packets that announce an empty previous chain, so the early return of the skipping loses nothing |
| `RunTheorems.PrevNoIsLength` | doubleratchet/doubleratchet.go:137-141 | a header announces the number of Encrypt calls on the sender's chain before |
| `RunTheorems.CacheIsSound` | doubleratchet/doubleratchet.go:172-180 | every cached key is the sender's own key of that chain and number; at most eight chains, pairwise distinct |
| `RunTheorems.SkippedKeyIsKept` | doubleratchet/key_buff.go:61-96 | every number passed over on the current chain and not opened yet is cached with its key: never evicted |
| `RunTheorems.EncryptSucceedsIff` | doubleratchet/msg_header.go:29-39 | once a party may send, Encrypt succeeds if and only if fewer than 65536 calls were made on the current chain and on the one before |
| `RunTheorems.StaleKeepsSyncIff` | doubleratchet/doubleratchet.go:199-211 | a stale packet is an error, and leaves the receiver in step if and only if its announced length exceeds the limit |
| `RunTheorems.NextLiveIsRefused` | doubleratchet/doubleratchet.go:199-211 | after a stale packet within the limit the next packet of a live chain is refused, cached or not |
| `Inserts.DecryptBuffer` | doubleratchet/doubleratchet.go:161-234 | every Decrypt changes the cache by a history of inserts that its header and the counters determine |
| `Astray.StrayedOpensIff` | doubleratchet/doubleratchet.go:189-238 | one delivery to a ratchet off the schedule, of a packet by somebody who is not: accepted if and only if it is of the present chain, already passed and cached with its own key; the ratchet stays off the schedule |
| `Astray.AcceptedAfterStaleIff` | doubleratchet/doubleratchet.go:189-238 | over every sequence of later calls after a stale packet within the limit: whatever the peer made before or makes ever after, whatever it is given, is accepted if and only if it announces the present key, its number is below recvNo, and its key was cached when the stale step was taken and neither overwritten nor pushed out since |
| `Astray.AcceptedAfterStepIff` | doubleratchet/doubleratchet.go:189-238 | the same for any ratchet and any step, for packets of somebody who did not take that step |
| `Astray.PeerNeverStrays` | doubleratchet/doubleratchet.go:111-238 | whatever the peer is given, it never makes a packet that is sealed with a key behind the stale step |
| `Astray.NothingNewIsAccepted` | doubleratchet/doubleratchet.go:189-238 | nothing that was not cached when the stale step was taken is ever accepted again |
| `Astray.StaleOpensAgain` | doubleratchet/doubleratchet.go:199-219 | a stale packet whose key is cached is refused at first and opens when it is delivered again |
| `Astray.LiveOpensAgain` | doubleratchet/doubleratchet.go:199-219 | after a stale packet, a live packet whose key is cached is refused once and opens when it is delivered again |
| `Astray.PeerAcceptsNothing` | doubleratchet/doubleratchet.go:189-238 | the other half: the peer never accepts anything that the strayed party makes after the stale step, whatever either of them is given |
| `StaleRuns.StaleWasMade` | doubleratchet/doubleratchet.go:189-238 | every stale packet under way in a reachable world was made on a superseded chain, and both parties are in step: the results on stale packets apply to all of them |
| `StaleRuns.StaleHappens` | doubleratchet/doubleratchet.go:199-211 | a reachable world with a stale packet within the limit under way, whose delivery takes the receiver out of step |
| `Bounds.DecryptBounds` | doubleratchet/doubleratchet.go:161-234 | for any ciphertext, honest or not: at most 64 chain-and-number pairs that were not cached before, at most two new chains, at most eight chains, recvNo at most 65536 |
| `Bounds.ServeBounds` | doubleratchet/doubleratchet.go:161-234 | over any history of calls: at most eight chains and 8 * 65536 keys |
| `Bounds.TwoGapsInOneChain` | doubleratchet/doubleratchet.go:162-164 | the limit is one per gap: two gaps leave 64 keys of a single chain cached |
| `StaleRuns.StaleOpensAgainHappens` | doubleratchet/doubleratchet.go:199-219 | a reachable world in which a stale packet is refused and opens on its second delivery |
| `StaleRuns.LiveOpensAgainHappens` | doubleratchet/doubleratchet.go:199-219 | a reachable world in which, after a stale packet, a live one is refused and opens on its second delivery |
| `Silence.SilentIff` | doubleratchet/doubleratchet.go:161-234 | when a session is over: in every reachable world, no run ever accepts a new number in either direction if and only if nothing new under way is within its receiver's limits, the next packet of neither party is, and Bob is not waiting for a first packet that was or can be sent |
| `Persistence.ReloadIsExactIff` | doubleratchet/marshal.go:172-212 | a restored ratchet differs at most in prevSendNo, which is zero, and in the cache; it is the same if and only if prevSendNo is zero and at most one chain is cached; a second reload changes nothing |
| `Persistence.ReloadFinds` | doubleratchet/marshal.go:86-103 | after a reload, lookups in the oldest cached chain answer as before and all others fail |
| `Persistence.ReloadForgetsTheCurrentChain` | doubleratchet/marshal.go:97-100 | with two chains cached, a packet that could be opened before a reload cannot be opened after it |
| `StaleRuns.ReloadForgetsHappens` | doubleratchet/marshal.go:97-100 | a reachable ratchet with two cached chains and a packet under way that opens before a reload and not after it |
| `Sides.EncryptKeeps` | client/client.go:261-271 | ordered traffic on one side: a send, successful or not, keeps the invariant, in memory and for clients that store what succeeded or every outcome; it succeeds if and only if the party has a chain and both counters are below 65536 |
| `Sides.DeliverKeeps` | client/client.go:464-482 | a delivery keeps the invariant in the same three cases, accepted, refused, or followed in vain |
| `Simulation.EncryptKeepsPair` | client/client.go:261-271 | one send: the client sends what is sent in memory if and only if the send is not an exception, and then the relation between both sides holds again |
| `Simulation.DeliverKeepsPair` | client/client.go:464-482 | one delivery: the client accepts what is accepted in memory if and only if the delivery is not a shortcut, and then the relation between both sides holds again |
| `Simulation.SimulatesIff` | client/client.go:246-284 | for every run of lossy, ordered traffic with any sends, from bare ratchets on: parties that reload before every operation and store what succeeded send and accept what the ratchets in memory send and accept, with the same plaintexts, if and only if no event of the run is an exception |
| `Simulation.AfterHandshakeIff` | client/client.go:246-284 | the same for sessions, which start with the message of the handshake: the clients keep up if and only if no event is a shortcut and no number has run out |
| `Simulation.FewSendsIff` | client/client.go:246-284 | after a handshake and with at most 65536 sends of each party, they keep up if and only if the run contains no shortcut |
| `Simulation.StoringAlwaysKeepsUp` | client/client.go:464-482 | clients that also stored the outcome of failed operations would keep up in every run |
| `Exceptions.ShortcutHappens` | client/client.go:464-482 | a run in which a packet is accepted in memory and refused by the client |
| `Exceptions.ExhaustionHappens` | client/client.go:261-264 | a run in which a send succeeds in memory and finds no number left at the client |
| `Exceptions.UnopenedHappens` | doubleratchet/doubleratchet.go:93-105 | bare ratchets only: a passive ratchet that has opened nothing yet can get a sending chain in memory and none where it is reloaded |
| `X3dh.AgreeOnAll` | x3dh/x3dh.go:117-128 | the loop yields the secrets of all agreements in order behind the 96 zero bytes the buffer starts with, or the first error |
| `X3dh.CreateInitialMessage` | x3dh/x3dh.go:92-137 | an opening is made exactly for a usable prekey that the peer signed; its key is derived from four zero blocks and the agreements of identity key with prekey, ephemeral with identity key and ephemeral key with prekey, in this order |
| `X3dh.ReceiveInitialMessage` | x3dh/x3dh.go:143-174 | the receiver has a key exactly if it has a prekey and the ephemeral key is usable; the key is derived from four zero blocks and the mirrored agreements in the same order |
| `X3dh.OpeningMaterial` | x3dh/x3dh.go:75-130 | what the opening side's session key is made of, block by block |
| `X3dh.ReceivedMaterial` | x3dh/x3dh.go:155-170 | the same for the receiving side, and when it has a key at all |
| `X3dh.OpeningKeysEqualIff` | x3dh/x3dh.go:117-135 | for all accepted openings: two session keys are equal if and only if the three agreements are pairwise equal |
| `X3dh.SidesAgreeIff` | x3dh/x3dh.go:92-174 | whatever keys each side used, both hold the same session key if and only if they computed the same three agreements, and the same associated data if and only if they mean the same two identities |
| `X3dh.BothSidesAgree` | x3dh/x3dh.go:92-174 | for all identity keys, prekeys and ephemeral keys both sides compute the same session key and associated data |
| `X3dh.OpeningIsSigned` | x3dh/x3dh.go:100-103 | an opening exists if and only if the named identity key signed the prekey and the prekey is a usable point |
| `Sessions.EncTime` | xochimilco/session.go:355-360 | a new time stamp keeps the ten entropy bytes |
| `Sessions.EncTimeIsBigEndian` | xochimilco/session.go:355-360 | the first six bytes read most significant first are the time, unless it does not fit into 48 bits |
| `Sessions.SentIs` | xochimilco/session.go:329-342 | a data message names the peer's session and tells when it was sent; sending moves the ratchet only |
| `Sessions.Session.CreateOffer` | xochimilco/session.go:153-170 | the offer and the stored prekey pair |
| `Sessions.Session.ReceiveOffer` | xochimilco/session.go:192-232 | the whole state and answer of acknowledging an offer, on every error path; `Trust.OfferAcceptedIff` says when it succeeds |
| `Trust.OfferAcceptedIff` | xochimilco/session.go:192-232 | an offer is accepted if and only if the identity key is the expected one, it signed the prekey, the prekey is usable and the own identity key is present; a refused offer leaves the session as it was; the answer is sealed under the key of the three agreements and carries the own identifier |
| `Trust.AckAcceptedIff` | xochimilco/session.go:238-270 | an acknowledgement is accepted if and only if the session waits for it, the expected identity key made it and its first message opens under the key of the three agreements and holds an identifier; a refused identity key leaves the session as it was |
| `Trust.FirstOpensIff` | doubleratchet/doubleratchet.go:189-238 | exactly which first message a fresh passive ratchet opens |
| `Trust.FailedAckSticksIff` | xochimilco/session.go:238-263 | after a refused acknowledgement a good one is still accepted if and only if the refused one was not awaited: one that passes all checks but does not open uses the session up |
| `Sessions.Session.ReceiveAck` | xochimilco/session.go:238-270 | the whole state after an acknowledgement, on every error path |
| `Sessions.Session.ReceiveData` | xochimilco/session.go:273-282 | decrypts with the session's ratchet, or fails without one |
| `Sessions.Session.Receive` | xochimilco/session.go:301-322 | the dispatch over the message types |
| `Sessions.Session.Send` | xochimilco/session.go:329-342 | encrypts and addresses the peer's session with a new time stamp |
| `Sessions.Session.Close` | xochimilco/session.go:347-353 | a close message for the peer; ratchet and prekey are cleared |
| `Sessions.Session.MarshalBinary` | xochimilco/session.go:64-92 | the saved fields; the identity key is not among them |
| `Sessions.Session.Load` | xochimilco/session.go:93-117 | a session loaded from any saved value; the identity key is set again only while the session is not active |
| `Trust.ReusableIff` | xochimilco/session.go:344-353 | a closed session refuses data and acknowledgements and sends nothing; it can be offered or take an offer again if and only if the identity key is still there |
| `Trust.EstablishedIsSpent` | xochimilco/session.go:230-269 | a session that was established has no identity key any more, so after a close no offer can be made with it |
| `Sessions.SessionReloadIsExactIff` | xochimilco/session.go:64-117 | which fields of a session come back from storage, and exactly when all do |
| `Sessions.ReceiveKeepsValid` | xochimilco/session.go:301-322 | receiving anything keeps the session's ratchet valid |
| `Sessions.ReceiveKeepsReady` | xochimilco/session.go:255-282 | a session is never stored with a ratchet that has no sending chain; without a ratchet it refuses data and stays as it is |
| `Handshake.FirstPacket` | xochimilco/session.go:205-263 | the acknowledging party's first packet opens, and both ratchets are in step |
| `Handshake.HandshakeInSync` | xochimilco/session.go:153-270 | offer, acknowledge and receive leave both sessions active with one session key and associated data, crossed identifiers, cleared identity keys and ratchets that satisfy the two-party relation |
| `Clients.Client.ByName` | session/disk-session.go:134-140 | the known identifier, or a new one that is remembered |
| `Clients.Client.Get` | session/disk-session.go:149-180 | a fresh session object with the stored state, or the missing-file error |
| `Clients.Client.Put` | session/disk-session.go:181-206 | exactly one file changes; with `OfferIsStoredIff` and `DataKeepsTheRest` what a later load finds there |
| `Clients.Client.Delete` | session/disk-session.go:207-215 | the name and the file are gone, nothing else changes |
| `Clients.Client.Send` | client/client.go:246-284 | load, send, and store only if the message was made and posted |
| `Clients.Client.HandleRatchet` | client/client.go:411-497 | load or create, receive, and store only on success; an unknown session is ignored; a closed one is deleted |
| `Clients.Client.Chat` | client/client.go:196-244 | opens a session, or posts the pending answer; stored only if posting succeeded |
| `Clients.Client.Close` | client/client.go:285-320 | posts a close message; name and file are deleted only if posting succeeded |
| `Clients.RestampedFindsSession` | session/disk-session.go:294-299 | a re-stamped identifier finds the session stored under the original one |
| `ClientRuns.SendKeepsInv` | client/client.go:246-284 | a send, posted or not, keeps the two stored ratchets in step |
| `ClientRuns.ReceiveAny` | doubleratchet/doubleratchet.go:189-238 | what a loaded ratchet does with any packet its peer ever made, stale ones included |
| `ClientRuns.ArriveKeepsInv` | client/client.go:411-488 | an arrival of anything the peer ever made keeps the two stored ratchets in step |
| `ClientRuns.EveryRunIsSafe` | client/client.go:426-488 | in every run of sends and arrivals, with loss, repetition and any reordering: the stored ratchets stay in step and every accepted plaintext is what the peer sent in that message |
| `ClientRuns.ClientAcceptsIff` | client/client.go:456-482 | exactly which messages a client accepts: the two live chains within the limit, or a cached number; a rejected one leaves the client as it was |
| `ClientRuns.HandshakeStartsRun` | client/client.go:411-488 | offer, answer and acknowledgement between two clients with arbitrary other sessions lead to a world that satisfies the invariant of those runs; the accepting client has the answer, the name and the key of its peer on disk |
| `ClientRuns.SafeAfterHandshake` | client/client.go:411-488 | from every completed handshake between two clients, every run is safe: stored ratchets in step, every accepted plaintext sent by the peer in that message |
| `ClientLife.OfferIsStoredIff` | client/client.go:444-482 | at a client an offer is stored if and only if the looked-up identity key made and signed it; a later load finds the name, that key and the answer to send; any other offer changes no file |
| `ClientLife.AckIsStoredIff` | client/client.go:448-482 | an acknowledgement is stored if and only if a stored session awaits it and its first message opens; any other one, also by another identity key, leaves the client as it was |
| `ClientLife.DataKeepsTheRest` | client/client.go:456-482 | an opened data message changes the ratchet of its session and nothing else on disk; any other one changes nothing |
| `ClientLife.SendKeepsTheRest` | client/client.go:246-284 | a posted send changes the ratchet of its session and nothing else on disk; any other one changes nothing |
| `ClientLife.RunKeepsTheRest` | client/client.go:246-284 | in every run each client keeps the pending answer and the name and key of its peer |
| `ClientLife.ChatKeepsInv` | client/client.go:226-240 | Chat posts the stored answer and clears it exactly if posting succeeded; the stored ratchet is as it was, at any point of any run |
| `ClientLife.ChatOffers` | client/client.go:199-223 | without a stored session Chat posts a signed offer and stores the session exactly if posting succeeded |
| `ClientLife.ChatStartsRun` | client/client.go:196-244 | offering, answering and acknowledging by the clients' own steps starts a world from which every run is safe |
| `ClientLife.CloseForgets` | client/client.go:484-494 | a close message for a stored session removes its name and file and nothing else |
| `ClientLife.CloseEndsLinked` | client/client.go:456-494 | for a client in step with its peer that is the peer's name; every later message for that identifier is dropped |
| `ClientLife.CloseEndsBoth` | client/client.go:285-320 | after any run: one party closes and its message arrives; both have forgotten each other, nothing else changed, and everything still under way between them, the close message included, is dropped |
| `ClientKeys.RunNumbers` | client/client.go:246-284 | in every run the numbers of a chain count the messages after which their sender stored its state |
| `ClientKeys.KeySharedIff` | client/client.go:261-271 | in every run from a handshake on, two messages are sealed with the same key if and only if they are on the same chain and nothing was stored on it from the earlier one on |
| `ClientKeys.RunKeepsOldest` | doubleratchet/marshal.go:97-100 | once a client has a chain cached, that chain is the one it keeps, in every run |
| `ClientKeys.PassedOverIsLost` | doubleratchet/marshal.go:97-100 | from then on a message on any other chain is accepted if and only if it comes next on a live chain, with a number not passed yet and within the limit: numbers passed over there are never opened |
| `ClientExamples.KeySharedHappens` | client/client.go:261-271 | a run in which a message that was not posted and the next one are sealed with the same key |
| `ClientExamples.PassedOverHappens` | doubleratchet/marshal.go:97-100 | a run from a handshake in which a number passed over is refused although its message was never delivered before |
| `ClientSides.SendShows` | client/client.go:246-284 | a posted send moves the stored ratchets as the ordered comparison says, with the same packet |
| `ClientSides.ArriveShows` | client/client.go:456-482 | so does an arrival |
| `MsgHeader.ParseOfMarshal` | doubleratchet/msg_header.go:29-53 | a header is marshalled if and only if its numbers fit into 16 bits, and comes back if and only if its key has 32 bytes |
| `MsgHeader.MarshalIs` | doubleratchet/msg_header.go:29-40 | 32 bytes of key, then the previous length and the number as big-endian 16-bit numbers |
| `MsgHeader.ParseIs` | doubleratchet/msg_header.go:42-53 | the same places are read, of any data of at least 36 bytes |
| `MsgHeader.MarshalOfParse` | doubleratchet/msg_header.go:29-53 | every 36 bytes are the header that they parse to |
| `Base64.DecodeOfEncode` | xochimilco/message.go:73-103 | decoding unpadded base64url inverts encoding for every byte string |
| `Base64.CharIs` | xochimilco/message.go:73-103 | the letters are those of the URL-safe alphabet, in its order |
| `Base64.GroupsAgree` | xochimilco/message.go:73-103 | each three bytes and their four letters are the same 24-bit number |
| `Base64.GroupsComeBack` | xochimilco/message.go:88-103 | decoding keeps the numbers of the groups and drops the bits left over in the last one |
| `Base64.DecodeOkIff` | xochimilco/message.go:88-103 | a text decodes if and only if its letters are in the alphabet and not one is left over; line breaks are skipped |
| `Wire.TextIs` | xochimilco/message.go:62-86 | a text is "!RAT!", the digit of its type, the encoded fields in their places, "!CHT!" |
| `Wire.ParsedIff` | xochimilco/message.go:88-126 | a text is parsed as a message if and only if it spells it out like this and the fields have their sizes |
| `Wire.SealedIs` | xochimilco/message.go:312-334 | a boxed text is the digit of the type and the fields in their places |
| `Wire.UnmarshalBinaryOfMarshal` | xochimilco/message.go:139-364 | the binary form of every well-sized message of each type comes back |
| `Wire.UnmarshalOfMarshal` | xochimilco/message.go:62-126 | a message of any type comes back from its text if and only if it is well-sized |
| `Wire.UnmarshalIsTotal` | xochimilco/message.go:88-108 | for every text the index and the slices stay in range; what is parsed is well-sized and has at least eleven characters |
| `Wire.UnsealOfSeal` | xochimilco/message.go:312-353 | unsealing inverts sealing; boxes in boxes are refused; only an empty text in a box is indexed out of range |
| `Pkcs7.UnpadOfPad` | doubleratchet/pkcs7.go:16-50 | for block sizes 1 to 255 the padded length is aligned and unpadding gives back the data |
| `Pkcs7.PadIs` | doubleratchet/pkcs7.go:16-25 | padding adds at least one byte and at most a block, each telling how many were added, exactly for block sizes 1 to 255 |
| `Pkcs7.PadOfUnpad` | doubleratchet/pkcs7.go:27-50 | whatever can be unpadded is the padding of the result; the slice never leaves the data |
| `Payload.CbcInverts` | doubleratchet/primitives.go:154-197 | CBC decryption and encryption invert each other over any block permutation |
| `Payload.XorByteFlips` | doubleratchet/primitives.go:154-197 | a bit is flipped exactly where the other byte has a one |
| `Payload.CbcBlock` | doubleratchet/primitives.go:154-156 | every ciphertext block is the enciphered mix of its plaintext block with the ciphertext block before it |
| `Payload.BlocksEqualIff` | doubleratchet/primitives.go:154-156 | two ciphertext blocks are equal if and only if what was mixed is equal |
| `Payload.InitialVectorsDiffer` | doubleratchet/primitives.go:154-156 | for non-empty data, ciphertexts under two initial vectors are equal if and only if the vectors are |
| `Payload.CiphertextIs` | doubleratchet/primitives.go:138-164 | the blocks of a ciphertext deciphered, and the MAC over the associated data behind them |
| `Payload.OpensUnderIff` | doubleratchet/primitives.go:176-215 | a ciphertext opens under other associated data if and only if the MACs are equal |
| `Payload.DecryptInvertsEncrypt` | doubleratchet/primitives.go:138-215 | for every key, ciphertext, plaintext and associated data: decrypting gives the plaintext if and only if encrypting it gives the ciphertext |
| `CurveConversion.ReadY` | x3dh/curve25519_conv.go:36-47 | the big-endian buffer with its top bit cleared is the y-coordinate; more than 32 bytes index out of range |
| `CurveConversion.ModInverseIs` | x3dh/curve25519_conv.go:49-49 | an inverse is found if and only if there is one, and it is the inverse |
| `CurveConversion.WriteU` | x3dh/curve25519_conv.go:53-59 | 32 little-endian bytes that stand for u |
| `CurveConversion.PublicKeyToCurve25519` | x3dh/curve25519_conv.go:33-60 | for every key of at most 32 bytes the output is the u < p with u(1-y) = 1+y mod p where 1-y is invertible, and (1+y)(1-y) mod p elsewhere |
| `CurveConversion.MontgomeryUnique` | x3dh/curve25519_conv.go:47-51 | there is only one such u |
| `CurveConversion.EqualOutputsIff` | x3dh/curve25519_conv.go:33-60 | two convertible keys have the same output bytes if and only if their y-coordinates are congruent |
| `CurveConversion.OneGoesToZero` | x3dh/curve25519_conv.go:49-51 | the two encodings of y = 1 have no quotient and are converted to zero |

## Left out

- AES, SHA-256, HMAC, HKDF, X25519, Ed25519 and nacl box internals: symbolic terms, or parameters with their contracts in `Payload`.
- The byte formats of gob and JSON: a saved value is a copy of the encoded fields.
- The step from symbolic packets to bytes: header, payload and envelope codecs are proved on bytes on their own, the runs are over symbolic packets.
- Key sizes other than 32 bytes and failing random sources: they do not occur among the symbolic keys.
- Files, permissions, HTTP posting, address lookup and the message bus: the store is a map, the network a collection of messages.
- Collisions of the FNV hash that names session files: files are keyed by the entropy bytes themselves.
- Event dispatch, handler registration, locking and saltpack messages: wrappers around libraries.
- The order of a put after an event handler error (client/client.go:469-476): a handler does not fail.
- Crossing and repeated offers: client-level runs begin after one completed handshake.
- The in-memory session store, the command line and the user interfaces.
- The primality of 2^255 - 19: "1-y is invertible" is the condition, not "y is different from 1".
- Confidentiality and forgery: only what honest parties compute is stated, and `Bounds` for everybody else.
