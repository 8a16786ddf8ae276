/** The key buffer: a ring of eight slots that refines the FIFO of module SkippedKeys. */
module KeyBuffers {
  import opened Wrappers
  import opened Keys
  import opened SkippedKeys

  /** The filled slots of a ring read from its head up to the first empty one. */
  function Filled(view: seq<Option<Chain>>): (chains: seq<Chain>)
    ensures |chains| <= |view|
    ensures forall i :: 0 <= i < |chains| ==> view[i] == Some(chains[i])
    ensures |chains| < |view| ==> view[|chains|].None?
  {
    if |view| == 0 || view[0].None? then [] else [view[0].value] + Filled(view[1..])
  }

  lemma {:induction false} FilledUnique(view: seq<Option<Chain>>, chains: seq<Chain>)
    requires |chains| <= |view|
    requires forall i :: 0 <= i < |chains| ==> view[i] == Some(chains[i])
    requires |chains| < |view| ==> view[|chains|].None?
    ensures Filled(view) == chains
  {
    var f := Filled(view);
    assert !(|f| < |chains|) && !(|chains| < |f|);
    assert forall i :: 0 <= i < |chains| ==> Some(f[i]) == view[i];
  }

  /** A ring as it is read from a position on. */
  function From(ring: seq<Option<Chain>>, head: nat): (view: seq<Option<Chain>>)
    requires head <= |ring|
    ensures |view| == |ring|
  {
    ring[head..] + ring[..head]
  }

  lemma {:induction false} FromAt(ring: seq<Option<Chain>>, head: nat, i: nat)
    requires |ring| == MAX_SKIP_CHAINS && head < MAX_SKIP_CHAINS && i < MAX_SKIP_CHAINS
    ensures From(ring, head)[i] == ring[(head + i) % MAX_SKIP_CHAINS]
  {
    if head + i < MAX_SKIP_CHAINS {
      assert (head + i) % MAX_SKIP_CHAINS == head + i;
    } else {
      assert (head + i) % MAX_SKIP_CHAINS == head + i - MAX_SKIP_CHAINS;
    }
  }

  /** Overwriting a slot changes one position of the ring as it is read. */
  lemma {:induction false} Overwrites(ring: seq<Option<Chain>>, head: nat, i: nat, slot: Option<Chain>)
    requires |ring| == MAX_SKIP_CHAINS && head < MAX_SKIP_CHAINS && i < MAX_SKIP_CHAINS
    ensures From(ring[(head + i) % MAX_SKIP_CHAINS := slot], head) == From(ring, head)[i := slot]
  {
    FromAt(ring, head, i);
    if head + i < MAX_SKIP_CHAINS {
      assert (head + i) % MAX_SKIP_CHAINS == head + i;
    } else {
      assert (head + i) % MAX_SKIP_CHAINS == head + i - MAX_SKIP_CHAINS;
    }
  }

  /** Stepping back and overwriting puts a chain in front of all but the last one. */
  lemma {:induction false} PushFront(ring: seq<Option<Chain>>, head: nat, chain: Chain)
    requires |ring| == MAX_SKIP_CHAINS && head < MAX_SKIP_CHAINS
    ensures var at := (head + (MAX_SKIP_CHAINS - 1)) % MAX_SKIP_CHAINS;
            From(ring[at := Some(chain)], at) == [Some(chain)] + From(ring, head)[..MAX_SKIP_CHAINS - 1]
  {
    if head > 0 {
      assert (head + (MAX_SKIP_CHAINS - 1)) % MAX_SKIP_CHAINS == head - 1;
    }
  }

  /** What that does to the filled slots. */
  lemma {:induction false} PushedFills(view: seq<Option<Chain>>, was: seq<Chain>, chain: Chain)
    requires |view| == MAX_SKIP_CHAINS && was == Filled(view)
    ensures var next, pushed := Add(was, chain), [Some(chain)] + view[..MAX_SKIP_CHAINS - 1];
            && |next| <= MAX_SKIP_CHAINS && (forall i :: 0 <= i < |next| ==> pushed[i] == Some(next[i]))
            && (|next| < MAX_SKIP_CHAINS ==> pushed[|next|].None?)
            && ((forall i :: |was| <= i < MAX_SKIP_CHAINS ==> view[i].None?) ==>
                  forall i :: |next| <= i < MAX_SKIP_CHAINS ==> pushed[i].None?)
  {
    hide Filled;
  }

  class KeyBuffer {
    const slots: array<Option<Chain>>
    var head: nat

    /** The ring's values in the order of its `Do`, starting at the head. */
    ghost function View(): seq<Option<Chain>>
      requires head <= slots.Length
      reads this, slots
    {
      From(slots[..], head)
    }

    /** The cached chains, newest first. */
    ghost function Contents(): seq<Chain>
      requires head <= slots.Length
      reads this, slots
    {
      Filled(View())
    }

    /** A ring of eight slots, filled from its head on. */
    ghost predicate Ring()
      reads this, slots
    {
      && slots.Length == MAX_SKIP_CHAINS
      && head < MAX_SKIP_CHAINS
      && (forall i :: |Contents()| <= i < MAX_SKIP_CHAINS ==> View()[i].None?)
    }

    ghost predicate Valid()
      reads this, slots
    {
      Ring() && WellFormed(Contents())
    }

    constructor ()
      ensures Valid() && fresh(slots)
      ensures Contents() == []
    {
      slots := new Option<Chain>[MAX_SKIP_CHAINS](_ => None);
      head := 0;
      new;
      assert View() == slots[..];
      FilledUnique(View(), []);
    }

    function At(i: nat): (slot: nat)
      requires i < MAX_SKIP_CHAINS && head < MAX_SKIP_CHAINS
      reads this
      ensures slot < MAX_SKIP_CHAINS
    {
      (head + i) % MAX_SKIP_CHAINS
    }

    lemma {:induction false} ViewAt(i: nat)
      requires Valid() && i < MAX_SKIP_CHAINS
      ensures View()[i] == slots[At(i)]
      ensures i < |Contents()| ==> slots[At(i)] == Some(Contents()[i])
    {
      hide Filled, WellFormed;
      FromAt(slots[..], head, i);
    }

    /** Walks the whole ring and keeps the last match, as a position counted from the head. */
    method ElementFind(dhPub: Pub) returns (found: Option<nat>)
      requires Valid()
      ensures found.Some? <==> Cached(Contents(), dhPub)
      ensures found.Some? ==> found.value == IndexOf(Contents(), dhPub)
    {
      found := None;
      for i := 0 to MAX_SKIP_CHAINS
        invariant found.None? ==> forall j :: 0 <= j < i && j < |Contents()| ==> Contents()[j].dhPub != dhPub
        invariant found.Some? ==> found.value < |Contents()| && Contents()[found.value].dhPub == dhPub
      {
        ViewAt(i);
        if slots[At(i)].Some? && slots[At(i)].value.dhPub == dhPub {
          found := Some(i);
        }
      }
    }

    /** Moves the head back by one and overwrites the slot there. */
    method ElementAdd(chain: Chain)
      requires Ring()
      modifies this, slots
      ensures Ring()
      ensures Contents() == Add(old(Contents()), chain)
      ensures old(Valid()) && !Cached(old(Contents()), chain.dhPub) ==> Valid()
    {
      hide Filled, IndexOf, Cached, WellFormed, From;
      ghost var ring, view, was := slots[..], View(), Contents();
      ghost var next := Add(was, chain);
      PushFront(ring, head, chain);
      head := At(MAX_SKIP_CHAINS - 1);
      slots[head] := Some(chain);
      assert slots[..] == ring[head := Some(chain)];
      PushedFills(view, was, chain);
      FilledUnique(View(), next);
      AddWellFormed(was, chain);
    }

    /** Changes a cached element in place. */
    method Update(i: nat, chain: Chain)
      requires Valid()
      requires i < |Contents()| && chain.dhPub == Contents()[i].dhPub
      modifies slots
      ensures Valid()
      ensures Contents() == old(Contents())[i := chain]
    {
      hide Filled, IndexOf, From;
      ghost var ring, next := slots[..], Contents()[i := chain];
      slots[At(i)] := Some(chain);
      assert slots[..] == ring[At(i) := Some(chain)];
      Overwrites(ring, head, i, Some(chain));
      FilledUnique(View(), next);
    }

    method Find(dhPub: Pub, msgNo: nat) returns (msgKey: Result<Key>)
      requires Valid()
      ensures msgKey == SkippedKeys.Find(Contents(), dhPub, msgNo)
    {
      var i := ElementFind(dhPub);
      if i.None? {
        return Err(ChainNotCached);
      }
      ViewAt(i.value);
      var chain := slots[At(i.value)].value;
      if msgNo !in chain.msgKeys {
        return Err(NumberNotCached);
      }
      return Ok(chain.msgKeys[msgNo]);
    }

    method Insert(dhPub: Pub, msgNo: nat, msgKey: Key)
      requires Valid()
      modifies this, slots
      ensures Valid()
      ensures Contents() == SkippedKeys.Insert(old(Contents()), dhPub, msgNo, msgKey)
    {
      InsertWellFormed(Contents(), dhPub, msgNo, msgKey);
      var i := ElementFind(dhPub);
      if i.None? {
        ElementAdd(Chain(dhPub, map[msgNo := msgKey]));
      } else {
        ViewAt(i.value);
        var chain := slots[At(i.value)].value;
        Update(i.value, Chain(dhPub, chain.msgKeys[msgNo := msgKey]));
      }
    }

    /** Collects the cached chains in ring order, skipping empty slots. */
    method MarshalBinary() returns (chains: seq<Chain>)
      requires Valid()
      ensures chains == Contents()
    {
      chains := [];
      for i := 0 to MAX_SKIP_CHAINS
        invariant chains == if i <= |Contents()| then Contents()[..i] else Contents()
      {
        ViewAt(i);
        if slots[At(i)].Some? {
          chains := chains + [slots[At(i)].value];
        }
      }
    }

    /** Writes every chain into the head slot: the ring is never moved, so the last one stays. */
    method UnmarshalBinary(chains: seq<Chain>)
      requires Valid()
      requires Contents() == []
      modifies slots
      ensures Valid()
      ensures Contents() == if |chains| == 0 then [] else [chains[|chains| - 1]]
    {
      hide Filled, From;
      ghost var view := View();
      for i := 0 to |chains|
        invariant View() == if i == 0 then view else view[0 := Some(chains[i - 1])]
      {
        ghost var ring := slots[..];
        slots[head] := Some(chains[i]);
        assert slots[..] == ring[(head + 0) % MAX_SKIP_CHAINS := Some(chains[i])];
        Overwrites(ring, head, 0, Some(chains[i]));
      }
      FilledUnique(View(), if |chains| == 0 then [] else [chains[|chains| - 1]]);
    }
  }
}
