/** The growing pool: a vector of fixed pools with a cursor on the first chunk that may have room.
    Each block starts with the index of the chunk it came from. */
module FlexiblePool {
  import opened FixedPool

  /** A pointer into the raw memory of one chunk. */
  datatype Ptr = Ptr(raw: nat, slot: nat)

  /** Pages for at least minNum blocks, rounded up. */
  function ChunkPages(blockSize: nat, minNum: nat): nat {
    (blockSize * minNum + PAGE_SIZE - 1) / PAGE_SIZE
  }

  /** Rounding up to pages and then down to blocks never loses a block. */
  lemma ChunkHoldsMinimum(blockSize: nat, minNum: nat)
    requires blockSize > 0
    ensures Capacity(ChunkPages(blockSize, minNum), blockSize) >= minNum
  {
    var bytes := blockSize * minNum;
    var raw := ChunkPages(blockSize, minNum) * PAGE_SIZE;
    assert raw >= bytes;
    QuotientAtLeast(raw, blockSize, minNum);
  }

  lemma MulCancelLess(a: nat, b: nat, c: nat)
    requires a * c < b * c
    ensures a < b
  {
    if b <= a { MulMonotone(b, a, c); }
  }

  lemma QuotientAtLeast(a: nat, b: nat, q: nat)
    requires b > 0 && a >= b * q
    ensures a / b >= q
  {
    assert a < (a / b + 1) * b;
    MulCancelLess(q, a / b + 1, b);
  }

  function CeilDiv(a: nat, b: nat): nat
    requires b > 0
  {
    (a + b - 1) / b
  }

  lemma CeilDivIs(a: nat, b: nat, q: nat)
    requires b > 0 && a <= q * b && (q > 0 ==> (q - 1) * b < a)
    ensures CeilDiv(a, b) == q
  {
    var n := a + b - 1;
    assert (q + 1) * b == q * b + b;
    assert q > 0 ==> (q - 1) * b == q * b - b;
    QuotientAtLeast(n, b, q);
    MulCancelLess(n / b, q + 1, b);
  }

  ghost predicate DistinctChunks(chunks: seq<FixedMemoryPool>) {
    forall i, j :: 0 <= i < j < |chunks| ==>
      chunks[i] != chunks[j] && chunks[i].mIndices != chunks[j].mIndices && chunks[i].mMemoryRaw != chunks[j].mMemoryRaw
  }

  ghost predicate DistinctRaws(raws: seq<nat>) {
    forall i, j :: 0 <= i < j < |raws| ==> raws[i] != raws[j]
  }

  ghost function Raws(chunks: seq<FixedMemoryPool>): seq<nat> {
    seq(|chunks|, i requires 0 <= i < |chunks| => chunks[i].mMemoryRaw)
  }

  /** Every slot of every chunk. */
  ghost function Slots(raws: seq<nat>, capacity: nat): (r: set<Ptr>)
    ensures forall p :: p in r <==> p.raw in raws && p.slot < capacity
  {
    set raw, s | raw in raws && s in Below(capacity) :: Ptr(raw, s)
  }

  lemma {:induction false} ChunkSlotCount(raw: nat, capacity: nat)
    ensures |Slots([raw], capacity)| == capacity
  {
    if capacity == 0 {
      assert Slots([raw], capacity) == {};
    } else {
      ChunkSlotCount(raw, capacity - 1);
      assert Slots([raw], capacity) == Slots([raw], capacity - 1) + {Ptr(raw, capacity - 1)};
    }
  }

  lemma SlotsSplit(raws: seq<nat>, n: nat, capacity: nat)
    requires DistinctRaws(raws) && n == |raws| - 1
    ensures Slots(raws, capacity) == Slots(raws[..n], capacity) + Slots([raws[n]], capacity)
    ensures Slots(raws[..n], capacity) !! Slots([raws[n]], capacity)
    ensures |raws| * capacity == n * capacity + capacity
  {
    assert raws == raws[..n] + [raws[n]];
  }

  lemma {:induction false} SlotCount(raws: seq<nat>, capacity: nat)
    requires DistinctRaws(raws)
    ensures |Slots(raws, capacity)| == |raws| * capacity
  {
    if raws == [] {
      assert Slots(raws, capacity) == {};
    } else {
      var n := |raws| - 1;
      hide Slots;
      SlotCount(raws[..n], capacity);
      ChunkSlotCount(raws[n], capacity);
      SlotsSplit(raws, n, capacity);
    }
  }

  lemma SubsetSize<T>(s: set<T>, t: set<T>)
    requires s <= t
    ensures |s| <= |t|
  {
    assert t == s + (t - s);
  }

  /** The blocks that are live, given each chunk's raw address and live slots: the first word of a live
      block names the chunk its memory belongs to, and every live slot of a chunk is a live block. */
  ghost predicate Accounted(live: set<Ptr>, chunkIdx: map<Ptr, nat>, raws: seq<nat>, slots: seq<set<nat>>) {
    && |slots| == |raws|
    && (forall p :: p in live ==> p in chunkIdx && chunkIdx[p] < |raws| && raws[chunkIdx[p]] == p.raw && p.slot in slots[chunkIdx[p]])
    && (forall i, s :: 0 <= i < |raws| && s in slots[i] ==> Ptr(raws[i], s) in live)
  }

  lemma TakeAccounts(live: set<Ptr>, chunkIdx: map<Ptr, nat>, raws: seq<nat>, slots: seq<set<nat>>, c: nat, s: nat)
    requires Accounted(live, chunkIdx, raws, slots) && DistinctRaws(raws)
    requires c < |raws| && s !in slots[c]
    ensures Ptr(raws[c], s) !in live
    ensures Accounted(live + {Ptr(raws[c], s)}, chunkIdx[Ptr(raws[c], s) := c], raws, slots[c := slots[c] + {s}])
  {
  }

  lemma ReturnAccounts(live: set<Ptr>, chunkIdx: map<Ptr, nat>, raws: seq<nat>, slots: seq<set<nat>>, p: Ptr)
    requires Accounted(live, chunkIdx, raws, slots) && DistinctRaws(raws) && p in live
    ensures p in chunkIdx && chunkIdx[p] < |raws| && raws[chunkIdx[p]] == p.raw && p.slot in slots[chunkIdx[p]]
    ensures Accounted(live - {p}, chunkIdx, raws, slots[chunkIdx[p] := slots[chunkIdx[p]] - {p.slot}])
  {
  }

  lemma GrowAccounts(live: set<Ptr>, chunkIdx: map<Ptr, nat>, raws: seq<nat>, slots: seq<set<nat>>, raw: nat)
    requires Accounted(live, chunkIdx, raws, slots)
    ensures Accounted(live, chunkIdx, raws + [raw], slots + [{}])
  {
  }

  /** Live blocks never outnumber the slots, and equal them when every chunk is full. */
  lemma LiveWithinSlots(live: set<Ptr>, chunkIdx: map<Ptr, nat>, raws: seq<nat>, slots: seq<set<nat>>, capacity: nat)
    requires Accounted(live, chunkIdx, raws, slots) && DistinctRaws(raws)
    requires forall i, s :: 0 <= i < |slots| && s in slots[i] ==> s < capacity
    ensures |live| <= |raws| * capacity
    ensures (forall i :: 0 <= i < |slots| ==> slots[i] == Below(capacity)) ==> |live| == |raws| * capacity
  {
    var all := Slots(raws, capacity);
    SlotCount(raws, capacity);
    SubsetSize(live, all);
    if forall i :: 0 <= i < |slots| ==> slots[i] == Below(capacity) {
      forall p | p in all ensures p in live {
        var i :| 0 <= i < |raws| && raws[i] == p.raw;
        assert p.slot in slots[i];
      }
      assert live == all;
    }
  }

  /** The chunks are exactly as many as the peak needs. */
  ghost predicate Sized(chunks: nat, capacity: nat, used: nat, peak: nat) {
    used <= peak <= chunks * capacity && (chunks > 0 ==> (chunks - 1) * capacity < peak)
  }

  lemma SizedIsCeil(chunks: nat, capacity: nat, used: nat, peak: nat)
    requires capacity > 0 && Sized(chunks, capacity, used, peak)
    ensures chunks == CeilDiv(peak, capacity)
  {
    CeilDivIs(peak, capacity, chunks);
  }

  function Max(a: nat, b: nat): nat { if a < b then b else a }

  /** One more block: either it fits, or all chunks were full and there is one chunk more. */
  lemma SizedTake(before: nat, chunks: nat, capacity: nat, used: nat, peak: nat)
    requires capacity > 0 && Sized(before, capacity, used, peak)
    requires (chunks == before && used + 1 <= chunks * capacity) || (chunks == before + 1 && used == before * capacity)
    ensures Sized(chunks, capacity, used + 1, Max(peak, used + 1))
  {
    assert (before + 1) * capacity == before * capacity + capacity;
  }

  lemma SizedLess(chunks: nat, capacity: nat, used: nat, used': nat, peak: nat)
    requires Sized(chunks, capacity, used, peak) && used' <= used
    ensures Sized(chunks, capacity, used', peak)
  {
  }

  ghost function LiveSlots(chunks: seq<FixedMemoryPool>): seq<set<nat>>
    reads chunks
  {
    seq(|chunks|, i requires 0 <= i < |chunks| reads chunks => chunks[i].live)
  }

  // ----- Bytes -----

  /** The pages of two chunks share no byte. */
  ghost predicate Apart(raws: seq<nat>, pages: nat) {
    forall i, j :: 0 <= i < j < |raws| ==> raws[i] + pages * PAGE_SIZE <= raws[j] || raws[j] + pages * PAGE_SIZE <= raws[i]
  }

  function FirstByte(p: Ptr, size: nat): nat {
    p.raw + Offset(p.slot, size)
  }

  /** If the pages of the chunks lie apart, two live blocks share no byte, whichever chunks they are in. */
  lemma LiveBlocksShareNoByte(live: set<Ptr>, chunkIdx: map<Ptr, nat>, raws: seq<nat>, slots: seq<set<nat>>,
                              pages: nat, size: nat, p: Ptr, q: Ptr)
    requires size > 0 && Accounted(live, chunkIdx, raws, slots) && Apart(raws, pages)
    requires forall i, s :: 0 <= i < |slots| && s in slots[i] ==> s < Capacity(pages, size)
    requires p in live && q in live && p != q
    ensures FirstByte(p, size) + size <= FirstByte(q, size) || FirstByte(q, size) + size <= FirstByte(p, size)
  {
    SlotsFitAndAreDisjoint(pages, size, p.slot, q.slot);
    SlotsFitAndAreDisjoint(pages, size, q.slot, p.slot);
    var i, j := chunkIdx[p], chunkIdx[q];
    assert raws[i] == p.raw && raws[j] == q.raw;
  }

  class FlexibleFixedMemoryPool {
    const blockSize: nat
    const pages: nat                  // of each chunk
    const capacity: nat
    var mChunks: seq<FixedMemoryPool>
    var mChunkCursor: nat
    var chunkIdx: map<Ptr, nat>       // the first word of each block
    ghost var live: set<Ptr>
    ghost var peak: nat               // the most blocks that were ever live at once

    ghost predicate ChunksValid()
      reads this, mChunks, set c | c in mChunks :: c.mIndices
    {
      && DistinctChunks(mChunks)
      && forall i :: 0 <= i < |mChunks| ==> mChunks[i].Valid() && mChunks[i].mCapacity == capacity
    }

    ghost predicate Laid()
      reads this, mChunks
    {
      blockSize > 0 && capacity == Capacity(pages, blockSize) && Apart(Raws(mChunks), pages)
    }

    ghost predicate Books()
      reads this, mChunks
    {
      Accounted(live, chunkIdx, Raws(mChunks), LiveSlots(mChunks))
    }

    ghost predicate FullBelow(n: nat)
      requires n <= |mChunks|
      reads this, mChunks
    {
      forall i :: 0 <= i < n ==> mChunks[i].IsCapacityFull()
    }

    ghost predicate Valid()
      reads this, mChunks, set c | c in mChunks :: c.mIndices
    {
      && capacity > 0
      && mChunkCursor <= |mChunks|
      && ChunksValid() && Books() && Laid() && FullBelow(mChunkCursor)
      && Sized(|mChunks|, capacity, |live|, peak)
    }

    constructor (blockSize: nat, minNum: nat)
      requires blockSize > 0 && minNum > 0
      ensures Valid() && live == {} && peak == 0 && mChunks == []
      ensures capacity >= minNum
    {
      ChunkHoldsMinimum(blockSize, minNum);
      this.blockSize, pages := blockSize, ChunkPages(blockSize, minNum);
      capacity := Capacity(ChunkPages(blockSize, minNum), blockSize);
      mChunks, mChunkCursor, chunkIdx := [], 0, map[];
      live, peak := {}, 0;
    }

    lemma ChunkFacts()
      requires ChunksValid() && Books()
      ensures DistinctRaws(Raws(mChunks))
      ensures |live| <= |mChunks| * capacity
      ensures FullBelow(|mChunks|) ==> |live| == |mChunks| * capacity
    {
      forall i | 0 <= i < |mChunks|
        ensures mChunks[i].IsCapacityFull() ==> LiveSlots(mChunks)[i] == Below(capacity)
      {
        CursorCountsLive(mChunks[i].mIndices[..], mChunks[i].mCursor, mChunks[i].live);
      }
      LiveWithinSlots(live, chunkIdx, Raws(mChunks), LiveSlots(mChunks), capacity);
    }

    /** No two live blocks share a byte. */
    lemma LiveBlocksApart(p: Ptr, q: Ptr)
      requires Valid() && p in live && q in live && p != q
      ensures FirstByte(p, blockSize) + blockSize <= FirstByte(q, blockSize) || FirstByte(q, blockSize) + blockSize <= FirstByte(p, blockSize)
    {
      LiveBlocksShareNoByte(live, chunkIdx, Raws(mChunks), LiveSlots(mChunks), pages, blockSize, p, q);
    }

    /** A block that was not live; the pool never fails and grows only when no chunk has room.
        raw is the address the next chunk's pages would get, apart from the others. */
    method Allocate(raw: nat) returns (p: Ptr)
      requires Valid() && raw !in Raws(mChunks) && Apart(Raws(mChunks) + [raw], pages)
      modifies this, mChunks
      ensures Valid() && p !in old(live) && live == old(live) + {p}
      ensures peak == Max(old(peak), |live|)
      ensures old(mChunks) <= mChunks && |mChunks| == CeilDiv(peak, capacity)
    {
      hide Partition, Accounted, Sized, DistinctRaws, LiveSlots, Raws, CeilDiv, Apart;
      while mChunkCursor < |mChunks| && mChunks[mChunkCursor].IsCapacityFull()
        invariant Valid() && live == old(live) && peak == old(peak) && mChunks == old(mChunks)
      {
        mChunkCursor := mChunkCursor + 1;
      }
      ChunkFacts();
      if mChunkCursor == |mChunks| {
        Grow(raw);
      }
      p := Take();
      ChunkFacts();
      SizedTake(|old(mChunks)|, |mChunks|, capacity, |old(live)|, old(peak));
      SizedIsCeil(|mChunks|, capacity, |live|, peak);
    }

    /** A new chunk, when the cursor has passed every chunk. */
    method Grow(raw: nat)
      requires ChunksValid() && Books() && capacity > 0 && mChunkCursor == |mChunks| && FullBelow(mChunkCursor)
      requires raw !in Raws(mChunks)
      modifies this
      ensures Raws(mChunks) == old(Raws(mChunks)) + [raw]
      ensures ChunksValid() && Books() && live == old(live) && peak == old(peak)
      ensures mChunkCursor == old(mChunkCursor) && |mChunks| == |old(mChunks)| + 1 && old(mChunks) <= mChunks
      ensures !mChunks[mChunkCursor].IsCapacityFull() && FullBelow(mChunkCursor)
      ensures fresh(mChunks[mChunkCursor]) && fresh(mChunks[mChunkCursor].mIndices)
    {
      hide Partition, Accounted;
      GrowAccounts(live, chunkIdx, Raws(mChunks), LiveSlots(mChunks), raw);
      assert forall i :: 0 <= i < |mChunks| ==> Raws(mChunks)[i] == mChunks[i].mMemoryRaw;
      var chunk := new FixedMemoryPool(capacity, raw);
      mChunks := mChunks + [chunk];
      assert Raws(mChunks) == old(Raws(mChunks)) + [raw];
      assert LiveSlots(mChunks) == old(LiveSlots(mChunks)) + [{}];
    }

    /** The next slot of the chunk at the cursor, stamped with that chunk's index. */
    method Take() returns (p: Ptr)
      requires ChunksValid() && Books()
      requires mChunkCursor < |mChunks| && !mChunks[mChunkCursor].IsCapacityFull() && FullBelow(mChunkCursor)
      modifies this, mChunks[mChunkCursor]
      ensures mChunks == old(mChunks) && mChunkCursor == old(mChunkCursor) && Raws(mChunks) == old(Raws(mChunks))
      ensures ChunksValid() && Books() && FullBelow(mChunkCursor)
      ensures p !in old(live) && live == old(live) + {p}
      ensures peak == Max(old(peak), |live|)
    {
      hide Partition, Accounted, DistinctRaws;
      ChunkFacts();
      var chunk := mChunks[mChunkCursor];
      var slot, bNull := chunk.Allocate();
      assert !bNull;
      TakeAccounts(live, chunkIdx, Raws(mChunks), old(LiveSlots(mChunks)), mChunkCursor, slot);
      assert LiveSlots(mChunks) == old(LiveSlots(mChunks))[mChunkCursor := chunk.live];
      p := Ptr(chunk.mMemoryRaw, slot);
      chunkIdx := chunkIdx[p := mChunkCursor];
      live := live + {p};
      peak := Max(peak, |live|);
    }

    /** The block goes back to the chunk its first word names, and the cursor moves back to that chunk. */
    method Deallocate(p: Ptr)
      requires Valid() && p in live
      modifies this, mChunks, set c | c in mChunks :: c.mIndices
      ensures Valid() && live == old(live) - {p}
      ensures mChunks == old(mChunks) && peak == old(peak)
    {
      hide Partition, Accounted, DistinctRaws, Sized;
      hide Apart;
      ChunkFacts();
      ReturnAccounts(live, chunkIdx, Raws(mChunks), LiveSlots(mChunks), p);
      var idx := chunkIdx[p];
      if idx < mChunkCursor {
        mChunkCursor := idx;
      }
      assert mChunks[idx].mMemoryRaw == p.raw;
      mChunks[idx].Deallocate(p.slot);
      assert LiveSlots(mChunks) == old(LiveSlots(mChunks))[idx := mChunks[idx].live];
      live := live - {p};
      SizedLess(|mChunks|, capacity, |old(live)|, |live|, peak);
    }
  }
}
