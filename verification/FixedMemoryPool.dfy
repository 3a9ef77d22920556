/** The fixed pool: raw pages cut into equal slots, handed out through a stack of slot indices. */
module FixedPool {

  const PAGE_SIZE := 4096

  /** Slots that fit in the pages, rounded down. */
  function Capacity(pages: nat, size: nat): nat
    requires size > 0
  {
    pages * PAGE_SIZE / size
  }

  /** Bytes [Offset, Offset + size) are slot number slot. */
  function Offset(slot: nat, size: nat): nat {
    slot * size
  }

  /** Every slot lies inside the raw pages, and two slots never share a byte. */
  lemma SlotsFitAndAreDisjoint(pages: nat, size: nat, s: nat, t: nat)
    requires size > 0 && s < Capacity(pages, size) && t < Capacity(pages, size)
    ensures Offset(s, size) + size <= pages * PAGE_SIZE
    ensures s < t ==> Offset(s, size) + size <= Offset(t, size)
  {
    assert Offset(s, size) + size == (s + 1) * size;
    MulMonotone(s + 1, Capacity(pages, size), size);
    if s < t {
      MulMonotone(s + 1, t, size);
    }
  }

  lemma MulMonotone(a: nat, b: nat, c: nat)
    requires a <= b
    ensures a * c <= b * c
  {
  }

  /** The free slots are the suffix of the index stack from the cursor: no slot twice, none of them live,
      and together with the live slots they are all slots. The prefix below the cursor may be stale. */
  ghost predicate Partition(indices: seq<nat>, cursor: nat, live: set<nat>) {
    && cursor <= |indices|
    && (forall i :: cursor <= i < |indices| ==> indices[i] < |indices| && indices[i] !in live)
    && (forall i, j :: cursor <= i < j < |indices| ==> indices[i] != indices[j])
    && (forall s :: s in live ==> s < |indices|)
    && (forall s :: 0 <= s < |indices| ==> s in live || s in indices[cursor..])
  }

  function Below(n: nat): (r: set<nat>)
    ensures |r| == n
    ensures forall s: nat :: s in r <==> s < n
  {
    if n == 0 then {} else Below(n - 1) + {n - 1}
  }

  ghost function Suffix(indices: seq<nat>, cursor: nat): (r: set<nat>)
    requires cursor <= |indices|
    ensures forall s :: s in r <==> s in indices[cursor..]
  {
    set s | s in indices[cursor..]
  }

  lemma {:induction false} SuffixSize(indices: seq<nat>, cursor: nat)
    requires cursor <= |indices|
    requires forall i, j :: cursor <= i < j < |indices| ==> indices[i] != indices[j]
    ensures |Suffix(indices, cursor)| == |indices| - cursor
    decreases |indices| - cursor
  {
    if cursor < |indices| {
      SuffixSize(indices, cursor + 1);
      assert indices[cursor..] == [indices[cursor]] + indices[cursor + 1..];
      assert Suffix(indices, cursor) == {indices[cursor]} + Suffix(indices, cursor + 1);
      assert indices[cursor] !in indices[cursor + 1..];
    }
  }

  /** The cursor is the number of live slots, so the pool is full exactly when every slot is live. */
  lemma CursorCountsLive(indices: seq<nat>, cursor: nat, live: set<nat>)
    requires Partition(indices, cursor, live)
    ensures |live| == cursor
    ensures cursor == |indices| <==> live == Below(|indices|)
  {
    SuffixSize(indices, cursor);
    var free := Suffix(indices, cursor);
    forall s | s in free ensures s !in live && s < |indices| {
      var i :| 0 <= i < |indices[cursor..]| && indices[cursor..][i] == s;
      assert indices[cursor + i] == s;
    }
    assert live + free == Below(|indices|);
    assert live !! free;
  }

  /** Taking the slot at the cursor and pushing a live slot back both keep the partition,
      whatever the order of the frees. */
  lemma TakeKeepsPartition(indices: seq<nat>, cursor: nat, live: set<nat>)
    requires Partition(indices, cursor, live) && cursor < |indices|
    ensures indices[cursor] !in live
    ensures Partition(indices, cursor + 1, live + {indices[cursor]})
  {
    forall s | 0 <= s < |indices| && s !in live && s != indices[cursor] ensures s in indices[cursor + 1..] {
      assert indices[cursor..] == [indices[cursor]] + indices[cursor + 1..];
    }
  }

  lemma ReturnKeepsPartition(indices: seq<nat>, cursor: nat, live: set<nat>, slot: nat)
    requires Partition(indices, cursor, live) && slot in live
    ensures 0 < cursor
    ensures Partition(indices[cursor - 1 := slot], cursor - 1, live - {slot})
  {
    CursorCountsLive(indices, cursor, live);
    assert live != {};
    var indices' := indices[cursor - 1 := slot];
    assert indices'[cursor - 1..] == [slot] + indices[cursor..];
  }

  /** The prefix may repeat slots: with two slots, take both, give back slot 0, and the index stack reads
      [0, 0]. The slot at the cursor is still the one free slot. */
  lemma StalePrefixRepeats()
    ensures var taken := [0, 1];
            var freed0 := taken[1 := 0];
            freed0[0] == freed0[1] && Partition(taken, 2, {0, 1}) && Partition(freed0, 1, {1})
  {
    ReturnKeepsPartition([0, 1], 2, {0, 1}, 0);
    assert {0, 1} - {0} == {1};
  }

  class FixedMemoryPool {
    const mCapacity: nat
    const mIndices: array<nat>
    const mMemoryRaw: nat             // the address of the raw pages
    var mCursor: nat
    ghost var live: set<nat>

    ghost predicate Valid()
      reads this, mIndices
    {
      mIndices.Length == mCapacity && Partition(mIndices[..], mCursor, live)
    }

    constructor (capacity: nat, raw: nat)
      ensures Valid() && mCapacity == capacity && mMemoryRaw == raw && live == {} && mCursor == 0 && fresh(mIndices)
    {
      mCapacity, mMemoryRaw := capacity, raw;
      mCursor := 0;
      mIndices := new nat[capacity];
      live := {};
      new;
      for i := 0 to capacity
        invariant forall j :: 0 <= j < i ==> mIndices[j] == j
        invariant mCursor == 0 && live == {}
      {
        mIndices[i] := i;
      }
      forall s | 0 <= s < capacity ensures s in mIndices[..][0..] {
        assert mIndices[..][0..][s] == s;
      }
    }

    predicate IsCapacityFull()
      reads this
    {
      mCursor == mCapacity
    }

    /** A slot that was not live becomes live; null only if every slot is live. */
    method Allocate() returns (slot: nat, bNull: bool)
      requires Valid()
      modifies this
      ensures Valid() && mIndices[..] == old(mIndices[..])
      ensures (bNull <==> old(live) == Below(mCapacity)) && (bNull <==> old(IsCapacityFull()))
      ensures bNull ==> live == old(live) && mCursor == old(mCursor)
      ensures !bNull ==> slot < mCapacity && slot !in old(live) && live == old(live) + {slot}
    {
      CursorCountsLive(mIndices[..], mCursor, live);
      if mCursor < mCapacity {
        TakeKeepsPartition(mIndices[..], mCursor, live);
        slot := mIndices[mCursor];
        mCursor := mCursor + 1;
        live := live + {slot};
        return slot, false;
      }
      return 0, true;
    }

    /** The caller returns a slot it was given and has not returned yet. */
    method Deallocate(slot: nat)
      requires Valid() && slot in live
      modifies this, mIndices
      ensures Valid() && live == old(live) - {slot}
      ensures mCursor == old(mCursor) - 1
    {
      ReturnKeepsPartition(mIndices[..], mCursor, live, slot);
      mCursor := mCursor - 1;
      mIndices[mCursor] := slot;
      live := live - {slot};
      assert mIndices[..] == old(mIndices[..])[mCursor := slot];
    }

    method GetUsed() returns (n: nat)
      requires Valid()
      ensures n == |live|
    {
      CursorCountsLive(mIndices[..], mCursor, live);
      return mCursor;
    }
  }
}
