/** The cache of skipped message keys as a value: a FIFO of at most eight chains. */
module SkippedKeys {
  import opened Wrappers
  import opened Keys

  const MAX_SKIP_CHAINS: nat := 8
  const MAX_SKIP_ELEMENTS: nat := 32

  /** One cached chain: the sender's public key and the message keys by number. */
  datatype Chain = Chain(dhPub: Pub, msgKeys: map<nat, Key>)

  // ---------- A sequence of chains, newest first ----------

  /** The position of a chain in the cache, or its length. */
  function IndexOf(buffer: seq<Chain>, dhPub: Pub): (i: nat)
    ensures i <= |buffer|
    ensures i < |buffer| ==> buffer[i].dhPub == dhPub
    ensures forall j :: 0 <= j < i ==> buffer[j].dhPub != dhPub
  {
    if |buffer| == 0 || buffer[0].dhPub == dhPub then 0 else 1 + IndexOf(buffer[1..], dhPub)
  }

  predicate Cached(buffer: seq<Chain>, dhPub: Pub) {
    IndexOf(buffer, dhPub) < |buffer|
  }

  /** At most eight chains, each for another public key. */
  ghost predicate WellFormed(buffer: seq<Chain>) {
    && |buffer| <= MAX_SKIP_CHAINS
    && forall i, j :: 0 <= i < j < |buffer| ==> buffer[i].dhPub != buffer[j].dhPub
  }

  /** A new chain goes to the front; the ninth chain falls off the end. */
  function Add(buffer: seq<Chain>, chain: Chain): seq<Chain> {
    [chain] + if |buffer| < MAX_SKIP_CHAINS then buffer else buffer[..MAX_SKIP_CHAINS - 1]
  }

  function Insert(buffer: seq<Chain>, dhPub: Pub, msgNo: nat, msgKey: Key): seq<Chain> {
    var i := IndexOf(buffer, dhPub);
    if i < |buffer| then buffer[i := Chain(dhPub, buffer[i].msgKeys[msgNo := msgKey])]
    else Add(buffer, Chain(dhPub, map[msgNo := msgKey]))
  }

  function Find(buffer: seq<Chain>, dhPub: Pub, msgNo: nat): Result<Key> {
    var i := IndexOf(buffer, dhPub);
    if i == |buffer| then Err(ChainNotCached)
    else if msgNo !in buffer[i].msgKeys then Err(NumberNotCached)
    else Ok(buffer[i].msgKeys[msgNo])
  }

  /** A position whose chain has the public key, with no such chain before it, is the position found. */
  lemma {:induction false} IndexOfUnique(buffer: seq<Chain>, dhPub: Pub, i: nat)
    requires i <= |buffer|
    requires i < |buffer| ==> buffer[i].dhPub == dhPub
    requires forall j :: 0 <= j < i ==> buffer[j].dhPub != dhPub
    ensures IndexOf(buffer, dhPub) == i
  {
    var k := IndexOf(buffer, dhPub);
    assert !(k < i) && !(i < k);
  }

  lemma InsertWellFormed(buffer: seq<Chain>, dhPub: Pub, msgNo: nat, msgKey: Key)
    requires WellFormed(buffer)
    ensures WellFormed(Insert(buffer, dhPub, msgNo, msgKey))
  {
    assert forall j :: 0 <= j < IndexOf(buffer, dhPub) ==> buffer[j].dhPub != dhPub;
  }

  /** A chain that is not cached yet can be added. */
  lemma {:induction false} AddWellFormed(buffer: seq<Chain>, chain: Chain)
    ensures WellFormed(buffer) && !Cached(buffer, chain.dhPub) ==> WellFormed(Add(buffer, chain))
  {
    var next := Add(buffer, chain);
    assert forall j :: 0 < j < |next| ==> next[j] == buffer[j - 1];
  }

  /** Within one chain an insert is a map update, whether or not the chain had to be added. */
  lemma FindAfterInsert(buffer: seq<Chain>, dhPub: Pub, msgNo: nat, msgKey: Key, other: nat)
    ensures Find(Insert(buffer, dhPub, msgNo, msgKey), dhPub, msgNo) == Ok(msgKey)
    ensures other != msgNo && Find(buffer, dhPub, other).Ok? ==>
              Find(Insert(buffer, dhPub, msgNo, msgKey), dhPub, other) == Find(buffer, dhPub, other)
    ensures other != msgNo && Find(buffer, dhPub, other).Err? ==>
              Find(Insert(buffer, dhPub, msgNo, msgKey), dhPub, other).Err?
  {
    IndexOfUnique(Insert(buffer, dhPub, msgNo, msgKey), dhPub,
                  if Cached(buffer, dhPub) then IndexOf(buffer, dhPub) else 0);
  }

  // ---------- What a whole history of inserts leaves in the cache ----------

  datatype Op = Op(dhPub: Pub, msgNo: nat, msgKey: Key)

  function Apply(buffer: seq<Chain>, op: Op): seq<Chain> {
    Insert(buffer, op.dhPub, op.msgNo, op.msgKey)
  }

  /** The cache after a history of inserts. */
  function Play(buffer: seq<Chain>, ops: seq<Op>): seq<Chain>
    decreases |ops|
  {
    if |ops| == 0 then buffer else Play(Apply(buffer, ops[0]), ops[1..])
  }

  /** How many inserts of a history have to add their chain. */
  function Added(buffer: seq<Chain>, ops: seq<Op>): nat
    decreases |ops|
  {
    if |ops| == 0 then 0
    else (if Cached(buffer, ops[0].dhPub) then 0 else 1) + Added(Apply(buffer, ops[0]), ops[1..])
  }

  lemma {:induction false} PlayWellFormed(buffer: seq<Chain>, ops: seq<Op>)
    requires WellFormed(buffer)
    ensures WellFormed(Play(buffer, ops))
    decreases |ops|
  {
    if |ops| == 0 {
    } else {
      InsertWellFormed(buffer, ops[0].dhPub, ops[0].msgNo, ops[0].msgKey);
      PlayWellFormed(Apply(buffer, ops[0]), ops[1..]);
    }
  }

  /** The key of `op` is the one found, in the chain at position `at`; past the end of the ring it is gone. */
  ghost predicate KeptAt(buffer: seq<Chain>, op: Op, at: nat) {
    if at < MAX_SKIP_CHAINS
    then Find(buffer, op.dhPub, op.msgNo) == Ok(op.msgKey) && IndexOf(buffer, op.dhPub) == at
    else Find(buffer, op.dhPub, op.msgNo).Err?
  }

  /** Another insert moves a kept key by one position exactly if it has to add its chain. */
  lemma {:induction false} InsertShifts(buffer: seq<Chain>, kept: Op, at: nat, op: Op)
    requires WellFormed(buffer)
    requires KeptAt(buffer, kept, at)
    requires (op.dhPub, op.msgNo) != (kept.dhPub, kept.msgNo)
    ensures KeptAt(Apply(buffer, op), kept, at + if Cached(buffer, op.dhPub) then 0 else 1)
  {
    hide IndexOf;
    var next := Insert(buffer, op.dhPub, op.msgNo, op.msgKey);
    var i := IndexOf(buffer, kept.dhPub);
    if Cached(buffer, op.dhPub) {
      IndexOfUnique(next, kept.dhPub, i);
    } else if op.dhPub == kept.dhPub {
      IndexOfUnique(next, kept.dhPub, 0);
    } else {
      AddShifts(buffer, Chain(op.dhPub, map[op.msgNo := op.msgKey]), kept.dhPub);
    }
  }

  /** Adding a chain moves the others one place towards the end. */
  lemma {:induction false} AddShifts(buffer: seq<Chain>, chain: Chain, dhPub: Pub)
    requires WellFormed(buffer) && chain.dhPub != dhPub
    ensures var i, next := IndexOf(buffer, dhPub), Add(buffer, chain);
            if i < |buffer| && i + 1 < MAX_SKIP_CHAINS
            then IndexOf(next, dhPub) == i + 1 < |next| && next[i + 1] == buffer[i]
            else !Cached(next, dhPub)
  {
    hide IndexOf;
    var i, next := IndexOf(buffer, dhPub), Add(buffer, chain);
    assert forall j :: 0 < j < |next| ==> next[j] == buffer[j - 1];
    if i < |buffer| && i + 1 < MAX_SKIP_CHAINS {
      IndexOfUnique(next, dhPub, i + 1);
    }
  }

  lemma {:induction false} PlayShifts(buffer: seq<Chain>, kept: Op, at: nat, ops: seq<Op>)
    requires WellFormed(buffer)
    requires KeptAt(buffer, kept, at)
    requires forall k :: 0 <= k < |ops| ==> (ops[k].dhPub, ops[k].msgNo) != (kept.dhPub, kept.msgNo)
    ensures KeptAt(Play(buffer, ops), kept, at + Added(buffer, ops))
    decreases |ops|
  {
    if |ops| == 0 {
    } else {
      InsertShifts(buffer, kept, at, ops[0]);
      InsertWellFormed(buffer, ops[0].dhPub, ops[0].msgNo, ops[0].msgKey);
      PlayShifts(Apply(buffer, ops[0]), kept, at + if Cached(buffer, ops[0].dhPub) then 0 else 1, ops[1..]);
    }
  }

  /**
   Retention, exactly.  The key inserted last for a chain and a number is found later if and only
   if the chains added since do not push its chain out of the eight of the ring.
   */
  lemma {:induction false} LastInsertedIsFound(before: seq<Op>, op: Op, after: seq<Op>)
    requires forall k :: 0 <= k < |after| ==> (after[k].dhPub, after[k].msgNo) != (op.dhPub, op.msgNo)
    ensures var start := Apply(Play([], before), op);
            var at := IndexOf(start, op.dhPub) + Added(start, after);
            var found := Find(Play(start, after), op.dhPub, op.msgNo);
            && WellFormed(Play(start, after))
            && (at < 8 ==> found == Ok(op.msgKey))
            && (at >= 8 ==> found.Err?)
  {
    var start := Apply(Play([], before), op);
    PlayWellFormed([], before);
    InsertWellFormed(Play([], before), op.dhPub, op.msgNo, op.msgKey);
    FindAfterInsert(Play([], before), op.dhPub, op.msgNo, op.msgKey, 0);
    PlayWellFormed(start, after);
    PlayShifts(start, op, IndexOf(start, op.dhPub), after);
  }
}
