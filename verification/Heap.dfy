/** The heap object of zend_alloc.c, whose fields its methods change in place, against the state of module HeapState. */
module Heaps {
  import opened Wrappers
  import opened Sizes
  import opened Bitset
  import opened BestFit
  import opened Chunks
  import opened HeapState
  import opened HeapShape
  import opened Collecting
  import opened HeapSteps
  import Spans

  class Heap {
    const limit: nat
    const overflow: bool
    const answers: nat -> bool // what the operating system says to each request for memory
    var asked: nat             // how many requests there have been
    var size: int
    var realSize: int
    var freeSlot: seq<seq<Ptr>>
    var hugeList: seq<Huge>
    var ring: seq<Chunk>
    var cachedChunks: seq<Chunk>
    var chunksCount: int
    var peakChunksCount: int
    var cachedChunksCount: int
    var avgChunksCount: real
    var lastDeleteBoundary: int
    var lastDeleteCount: int

    ghost var st: State
    ghost var pin: Ptr        // a block in the main chunk that stays allocated
    ghost var drift: nat      // bytes charged to size by small allocations that failed
    ghost var refusals: nat   // how often the operating system has refused memory for good
    ghost var relief: nat     // what collections have given back after it refused a chunk at first
    ghost var unlisted: nat   // huge regions granted whose list entry could not be allocated
    ghost var uncharged: nat  // chunks that the last shutdown left in the cache without charging them to realSize

    ghost function Repr(): set<object>
      reads this
    {
      {this} + Objects(ring) + Objects(cachedChunks)
    }

    ghost predicate Shape()
      reads this, Repr()
    {
      ShapeOf(st, ring, cachedChunks, freeSlot, hugeList)
    }

    ghost predicate SizeOk()
      reads `size, `st, `drift
    {
      Sized(size, st.live, drift)
    }

    // realSize counts the chunks and huge blocks; what a shutdown left uncharged is outweighed by the average it also
    // left.
    ghost predicate RealOk()
      reads `chunksCount, `ring, `cachedChunksCount, `cachedChunks, `peakChunksCount, `realSize, `uncharged, `hugeList,
            `avgChunksCount
    {
      && chunksCount == |ring| && cachedChunksCount == |cachedChunks| && chunksCount <= peakChunksCount
      && realSize == (chunksCount + cachedChunksCount - uncharged) * CHUNK + HugeBytes(hugeList)
      && uncharged < chunksCount + cachedChunksCount
      && (uncharged > 0 ==> uncharged as real + 0.9 <= avgChunksCount)
    }

    ghost predicate Pinned()
      reads `st, `pin
    {
      Pins(st, pin)
    }

    // No collection is needed for count pages, or it cannot empty the main chunk.
    ghost predicate Ready(count: nat)
      reads `st, `pin, `ring, set c | c in ring :: c.freeMap
    {
      Pinned() || Roomy(count)
    }

    // Some chunk of the ring has room for count pages.
    ghost predicate Roomy(count: nat)
      reads `ring, set c | c in ring :: c.freeMap
    {
      !NoneFits(Maps(ring), count)
    }

    // A collection makes way for a chunk: it empties some, and one goes to the cache or the charge falls enough.
    ghost predicate Yields()
      reads `realSize, `st, `chunksCount, `cachedChunksCount, `avgChunksCount, `lastDeleteBoundary, `lastDeleteCount
    {
      Emptied(st) >= 2 || (Emptied(st) == 1 && (realSize <= limit || Delays()))
    }

    // No chunk can be had: none is cached, another one does not fit under the limit, and no collection makes way.
    ghost predicate Cornered()
      reads `cachedChunks, `realSize, `st, `chunksCount, `cachedChunksCount, `avgChunksCount, `lastDeleteBoundary,
            `lastDeleteCount
    {
      !overflow && cachedChunks == [] && realSize + CHUNK > limit && !Yields()
    }

    // A slot for a request is listed.
    ghost predicate OnList(length: nat)
      reads `freeSlot
    {
      length <= MAX_SMALL && |freeSlot| == BINS && freeSlot[SmallBin(length)] != []
    }

    // No slot is listed for a request, but some chunk has room for its run.
    ghost predicate FindsRun(length: nat)
      reads `freeSlot, `ring, set c | c in ring :: c.freeMap
    {
      !OnList(length) && Roomy(RunPages(length))
    }

    // A request served from a chunk cannot be served: no slot is listed, no run fits, no chunk can be had.
    ghost predicate Stuck(length: nat)
      reads `freeSlot, `cachedChunks, `realSize, `st, `chunksCount, `cachedChunksCount, `avgChunksCount,
            `lastDeleteBoundary, `lastDeleteCount, `ring, set c | c in ring :: c.freeMap
    {
      !OnList(length) && !FindsRun(length) && Cornered()
    }

    // As between calls: the limit is exceeded by a chunk at most, and there is no idle chunk in the ring.
    ghost predicate Proper()
      reads `realSize, `st
    {
      (overflow || realSize <= limit + CHUNK) && Busy(st)
    }

    // The invariant between calls.
    ghost predicate Valid()
      reads this, Repr()
    {
      Shape() && SizeOk() && RealOk() && Pinned() && Proper()
    }

    // ---- chunks ----

    // A chunk given back now goes to the cache: fewer chunks than average would be left, or chunks have come and gone
    // at this number before.
    ghost predicate Delays()
      reads `chunksCount, `cachedChunksCount, `avgChunksCount, `lastDeleteBoundary, `lastDeleteCount
    {
      || (chunksCount - 1 + cachedChunksCount) as real < avgChunksCount + 0.1
      || (chunksCount - 1 == lastDeleteBoundary && lastDeleteCount >= 4)
    }

    // The lists and counters of zend_mm_delete_chunk: whether the chunk is cached, dropped or swapped with a cached one
    // depends on the average number of chunks.
    method Unlink(i: nat)
      requires RealOk() && 0 < i < |ring|
      modifies this`ring, this`cachedChunks, this`chunksCount, this`cachedChunksCount, this`realSize,
               this`lastDeleteBoundary, this`lastDeleteCount
      ensures RealOk() && ring == Without(old(ring), i) && realSize <= old(realSize)
      ensures Retired(old(cachedChunks), cachedChunks, old(ring)[i])
      ensures old(Delays()) ==> cachedChunks == [old(ring)[i]] + old(cachedChunks) && realSize == old(realSize)
      ensures !old(Delays()) ==> realSize == old(realSize) - CHUNK
      ensures !old(Delays()) ==>
        cachedChunks == old(if cachedChunks == [] || ring[i].num > cachedChunks[0].num then cachedChunks
                            else [ring[i]] + cachedChunks[1..])
      ensures |cachedChunks| == old(|cachedChunks|) + if old(Delays()) then 1 else 0
      ensures if !old(Delays()) && old(cachedChunks) == []
        then lastDeleteBoundary == chunksCount &&
          lastDeleteCount == if old(lastDeleteBoundary) == chunksCount then old(lastDeleteCount) + 1 else 0
        else lastDeleteBoundary == old(lastDeleteBoundary) && lastDeleteCount == old(lastDeleteCount)
      ensures chunksCount == old(chunksCount) - 1
    {
      hide HugeBytes, Without;
      var c := ring[i];
      ring := Without(ring, i);
      chunksCount := chunksCount - 1;
      if chunksCount as real + cachedChunksCount as real < avgChunksCount + 0.1
         || (chunksCount == lastDeleteBoundary && lastDeleteCount >= 4) {
        // delay deletion
        cachedChunksCount := cachedChunksCount + 1;
        cachedChunks := [c] + cachedChunks;
      } else {
        realSize := realSize - CHUNK;
        if cachedChunks == [] {
          if chunksCount != lastDeleteBoundary {
            lastDeleteBoundary := chunksCount;
            lastDeleteCount := 0;
          } else {
            lastDeleteCount := lastDeleteCount + 1;
          }
        }
        // the younger of the chunk and the head of the cache is unmapped
        if cachedChunks != [] && c.num <= cachedChunks[0].num {
          cachedChunks := [c] + cachedChunks[1..];
        }
      }
    }

    /** zend_mm_delete_chunk: a chunk without runs leaves the ring for the cache or the operating system. */
    method DeleteChunk(i: nat)
      requires Shape() && RealOk() && 0 < i < |ring| && ring[i].runs == map[]
      modifies this`ring, this`cachedChunks, this`chunksCount, this`cachedChunksCount, this`realSize,
               this`lastDeleteBoundary, this`lastDeleteCount, this`st
      ensures Shape() && RealOk()
      ensures ring == Without(old(ring), i)
      ensures Objects(ring) + Objects(cachedChunks) <= old(Objects(ring) + Objects(cachedChunks))
      ensures st == old(st).(ring := Numbers(ring), cached := Numbers(cachedChunks))
      ensures realSize <= old(realSize)
      ensures Retired(old(cachedChunks), cachedChunks, old(ring)[i])
      ensures old(Delays()) ==> cachedChunks == [old(ring)[i]] + old(cachedChunks) && realSize == old(realSize)
      ensures !old(Delays()) ==> realSize == old(realSize) - CHUNK
      ensures !old(Delays()) ==>
        cachedChunks == old(if cachedChunks == [] || ring[i].num > cachedChunks[0].num then cachedChunks
                            else [ring[i]] + cachedChunks[1..])
      ensures |cachedChunks| == old(|cachedChunks|) + if old(Delays()) then 1 else 0
      ensures if !old(Delays()) && old(cachedChunks) == []
        then lastDeleteBoundary == chunksCount &&
          lastDeleteCount == if old(lastDeleteBoundary) == chunksCount then old(lastDeleteCount) + 1 else 0
        else lastDeleteBoundary == old(lastDeleteBoundary) && lastDeleteCount == old(lastDeleteCount)
      ensures chunksCount == old(chunksCount) - 1
    {
      hide Inv, ShapeOf, Shape, HugeBytes, Without, Numbers, Retired, Delays;
      Shaped(this);
      ghost var ring0, cached0, st0 := ring, cachedChunks, st;
      Unlink(i);
      Dropped(st0, ring0, cached0, freeSlot, hugeList, i, cachedChunks);
      st := st.(ring := Numbers(ring), cached := Numbers(cachedChunks));
      Reformed(this);
    }

    // ---- runs ----

    // The pages found become a live large run of the chunk.
    method TakeRun(c: Chunk, page: nat, count: nat, ghost data: seq<bv8>) returns (p: Ptr)
      requires Shape() && c in ring && 0 < count && page <= c.freeTail && Spans.Vacant(Lengths(c.runs), page, count)
      requires |data| == count * PAGE
      modifies this`st, c, c.freeMap, c.info
      ensures Shape()
      ensures st == AddLarge(old(st), Loc(c.number, page), count, data)
      ensures p == RunPtr(Loc(c.number, page)) && p !in old(st).live
    {
      hide *;
      OpenedAt(this, c);
      ghost var l, before := Loc(c.number, page), st;
      VacantRoom(st, c, page, count);
      AddLargeInv(st, l, count, data);
      ghost var entries, local := c.info[..], c.runs;
      c.Take(page, count);
      st := AddLarge(st, l, count, data);
      AddedParts(before, l, count, data);
      RunPut(c, local, entries, before.runs, page, Large(count));
      Closed(before, st, ring, cachedChunks, c);
      Reformed(this);
      p := Ptr(c.number, page * PAGE);
      RunPtrIs(c.number, page);
    }

    /** The pages of a large run are given back, with or without a pinned block: the test that deletes a chunk then
        holds for the main chunk exactly if this was its only run. */
    method ReleaseRun(c: Chunk, page: nat, count: nat)
      requires Shape() && c in ring && Loc(c.number, page) in st.runs && st.runs[Loc(c.number, page)] == Large(count)
      modifies this`st, c, c.freeMap, c.info
      ensures Shape() && st == DropLarge(old(st), Loc(c.number, page))
      ensures ring != [] &&
        (ring[0].freePages == PAGES - 1 <==>
          forall l :: l in old(st).runs && l.chunk == ring[0].number ==> l == Loc(c.number, page))
    {
      hide *;
      OpenedAt(this, c);
      ghost var l, before := Loc(c.number, page), st;
      RunInChunk(st, c, page);
      DropLargeInv(st, l);
      LengthLarge(count);
      ghost var entries, local := c.info[..], c.runs;
      c.Release(page, count);
      st := DropLarge(st, l);
      DroppedParts(before, l);
      RunCut(c, local, entries, before.runs, page);
      Closed(before, st, ring, cachedChunks, c);
      Reformed(this);
      Shaped(this);
      MainUnprotected(this);
    }

    // A large run is cut back to its first count pages.
    method CutRun(c: Chunk, page: nat, count: nat, ghost data: seq<bv8>)
      requires Shape() && c in ring && Loc(c.number, page) in st.runs && st.runs[Loc(c.number, page)].Large?
      requires 0 < count < st.runs[Loc(c.number, page)].pages && |data| == count * PAGE
      modifies this`st, c, c.freeMap, c.info
      ensures Shape() && st == ResizeLarge(old(st), Loc(c.number, page), count, data)
    {
      hide *;
      OpenedAt(this, c);
      ghost var l, before := Loc(c.number, page), st;
      RunInChunk(st, c, page);
      CutFits(st, l, count);
      ResizeLargeInv(st, l, count, data);
      ghost var entries, local := c.info[..], c.runs;
      c.Shrink(page, count);
      st := ResizeLarge(st, l, count, data);
      AddedParts(before, l, count, data);
      RunPut(c, local, entries, before.runs, page, Large(count));
      Closed(before, st, ring, cachedChunks, c);
      Reformed(this);
    }

    // A large run grows over the free pages behind it, if they are free.
    method GrowRun(c: Chunk, page: nat, count: nat, ghost data: seq<bv8>) returns (grown: bool)
      requires Shape() && c in ring && Loc(c.number, page) in st.runs && st.runs[Loc(c.number, page)].Large?
      requires st.runs[Loc(c.number, page)].pages < count && |data| == count * PAGE
      modifies this`st, c, c.freeMap, c.info
      ensures grown <==> RoomBehind(old(st), Loc(c.number, page), count)
      ensures Shape() && st == if grown then ResizeLarge(old(st), Loc(c.number, page), count, data) else old(st)
    {
      hide *;
      OpenedAt(this, c);
      ghost var l, before := Loc(c.number, page), st;
      RunInChunk(st, c, page);
      RoomBehindIs(st, l, count);
      ghost var entries, local := c.info[..], c.runs;
      GrowsIntoRoom(c, st.runs, page, count);
      grown := c.Grow(page, count);
      if grown {
        GrowFits(before, c, local, page, count);
        ResizeLargeInv(before, l, count, data);
        st := ResizeLarge(st, l, count, data);
        AddedParts(before, l, count, data);
        RunPut(c, local, entries, before.runs, page, Large(count));
      } else {
        SameRuns(c, local, entries, before.runs);
      }
      Closed(before, st, ring, cachedChunks, c);
      Reformed(this);
    }

    // A linked list of the elements from 1 to last.
    method LinkElements(l: Loc, bin: Bin) returns (list: seq<Ptr>)
      ensures list == NewFree(l, bin)
    {
      hide *;
      ElementsAtLeast(l, bin);
      list := [SlotPtr(l, bin, 1)];
      var k := 1;
      while k != Elements(bin) - 1
        invariant 1 <= k <= Elements(bin) - 1 && list == NewFree(l, bin)[..k]
        decreases Elements(bin) - k
      {
        NewFreeAt(l, bin, k);
        k := k + 1;
        list := list + [SlotPtr(l, bin, k)];
      }
    }

    /** The end of zend_mm_alloc_small_slow: the pages become a small run, its elements but the first the free list. */
    method CarveRun(c: Chunk, page: nat, bin: Bin, ghost data: seq<bv8>)
      requires Shape() && c in ring && Loc(c.number, page) in st.runs
        && st.runs[Loc(c.number, page)] == Large(BinPages(bin))
      requires |st.free| == BINS && st.free[bin] == [] && |data| == BinSize(bin)
      modifies this`st, this`freeSlot, c, c.info
      ensures Shape() && |old(st).free| == BINS && st == Carve(old(st), Loc(c.number, page), bin, data)
    {
      hide *;
      OpenedAt(this, c);
      var l := Loc(c.number, page);
      ghost var before := st;
      RunInChunk(st, c, page);
      CarveInv(st, l, bin, data);
      ghost var entries, local := c.info[..], c.runs;
      c.MakeSmall(page, bin);
      SmallEntries(c, local, page, bin);
      var list := LinkElements(l, bin);
      freeSlot := freeSlot[bin := list];
      st := Carve(st, l, bin, data);
      CarvedParts(before, l, bin, data);
      RunPut(c, local, entries, before.runs, page, Small(bin));
      Closed(before, st, ring, cachedChunks, c);
      Reformed(this);
    }

    // ---- collecting ----

    // ZEND_MM_ALIGNED_BASE: the chunk an address lies in.
    method ChunkAt(number: nat) returns (c: Chunk)
      requires number in Numbers(ring)
      ensures c in ring && c.number == number
    {
      ghost var i := NumbersOf(ring, number);
      assert ring[i] in ring;
      c :| c in ring && c.number == number;
    }

    method ChunkOf(p: Ptr) returns (c: Chunk)
      requires Shape() && p.chunk in Numbers(ring)
      ensures Shape() && c in ring && c.number == p.chunk
    {
      hide *;
      Shaped(this);
      ShapeParts(st, ring, cachedChunks, freeSlot, hugeList);
      c := ChunkAt(p.chunk);
      ShapeIs(st, ring, cachedChunks);
      Reformed(this);
    }

    // The chunk and first page of the small run that a slot belongs to.
    method RunOfSlot(p: Ptr, ghost i: nat, ghost j: nat) returns (c: Chunk, page: nat)
      requires Counting(st, ring, cachedChunks, i, j) && p in st.slots
      ensures Counting(st, ring, cachedChunks, i, j)
      ensures c in ring && st.slots[p].run == Loc(c.number, page) && page < c.info.Length
      ensures page in c.runs && c.runs[page] == Small(st.slots[p].bin)
      ensures c.info[page].Srun? && c.info[page].bin == st.slots[p].bin
    {
      hide *;
      CountingAre(st, ring, cachedChunks, i, j);
      PageOfSlot(st, p);
      c := ChunkAt(p.chunk);
      CountedAre(st, c, i, j);
      page := p.off / PAGE;
      EntryOfSlot(c, st.runs, st.slots[p].run, st.slots[p].bin, page);
      EntryOfSlot(c, st.runs, st.slots[p].run, st.slots[p].bin, st.slots[p].run.page);
      if c.info[page].Nrun? {
        page := page - c.info[page].offset;
      }
      CountingIs(st, ring, cachedChunks, i, j);
    }

    // One more free slot of its run is counted; full tells that the counter has come to the number of elements.
    method CountSlot(b: Bin, j: nat) returns (full: bool)
      requires Counting(st, ring, cachedChunks, b, j) && |st.free| == |freeSlot| == BINS
      requires freeSlot[b] == st.free[b] && j < |freeSlot[b]|
      modifies set c | c in ring :: c.info
      ensures Counting(st, ring, cachedChunks, b, j + 1)
      ensures !full && NoneFull(st, b, j) ==> NoneFull(st, b, j + 1)
    {
      hide *;
      CountingAre(st, ring, cachedChunks, b, j);
      FreeDistinct(st, b);
      var p := freeSlot[b][j];
      assert p in st.free[b];
      var c, page := RunOfSlot(p, b, j);
      CountingParts(st, ring, cachedChunks, b, j, c);
      CountedAre(st, c, b, j);
      TallyOf(st, c, b, j, page, b);
      var counter := c.info[page].counter + 1;
      full := counter == Elements(b);
      if !full && NoneFull(st, b, j) { NoneFullNext(st, b, j); }
      ghost var entries := c.info[..];
      c.SetCounter(page, b, counter % 512);
      TallyStep(st, c, c.runs, entries, b, j, page);
      forall d | d in ring && d != c ensures Counted(st, d, b, j + 1) { TallySame(st, d, b, j); }
      CountingIs(st, ring, cachedChunks, b, j + 1);
    }

    // The free slots of class b are counted in the entries of their runs; full tells of a run that has none but free
    // ones.
    method CountFree(b: Bin) returns (full: bool)
      requires Counting(st, ring, cachedChunks, b, 0) && |st.free| == |freeSlot| == BINS && freeSlot[b] == st.free[b]
      modifies set c | c in ring :: c.info
      ensures Counting(st, ring, cachedChunks, b + 1, 0)
      ensures full || forall l :: l in Garbage(st) ==> st.runs[l] != Small(b)
    {
      hide *;
      NoneFullYet(st, b);
      full := false;
      var j := 0;
      while j < |freeSlot[b]|
        invariant j <= |freeSlot[b]| && Counting(st, ring, cachedChunks, b, j)
        invariant full || NoneFull(st, b, j)
      {
        var reached := CountSlot(b, j);
        full := full || reached;
        j := j + 1;
      }
      CountingAre(st, ring, cachedChunks, b, j);
      ListCounted(st, ring, cachedChunks, b);
      if !full { NoneFullEnds(st, b); }
    }

    // The free list of class b without the slots of full runs.
    method WithoutFull(b: Bin) returns (kept: seq<Ptr>)
      requires Counting(st, ring, cachedChunks, b + 1, 0) && |st.free| == |freeSlot| == BINS
        && freeSlot[b] == st.free[b]
      ensures Counting(st, ring, cachedChunks, b + 1, 0)
      ensures |st.free| == BINS && kept == Kept(st.free[b], st.slots, Garbage(st))
    {
      hide *;
      CountingAre(st, ring, cachedChunks, b + 1, 0);
      FreeDistinct(st, b);
      var list := freeSlot[b];
      kept := [];
      KeptNone(list, st.slots, Garbage(st));
      var j := 0;
      while j < |list|
        invariant j <= |list| && Counting(st, ring, cachedChunks, b + 1, 0)
        invariant kept == Kept(list[..j], st.slots, Garbage(st))
      {
        var p := list[j];
        assert p in st.free[b];
        var c, page := RunOfSlot(p, b + 1, 0);
        CountingParts(st, ring, cachedChunks, b + 1, 0, c);
        TallyOf(st, c, b + 1, 0, page, b);
        CounterDecides(st, Loc(c.number, page));
        KeptNext(list, st.slots, Garbage(st), j);
        if c.info[page].counter != Elements(b) {
          kept := kept + [p];
        }
        j := j + 1;
      }
    }

    /** Chunk i is swept: its garbage runs are freed, its other counters reset. The test that deletes a chunk then holds
        exactly if all its runs were garbage; for the main chunk too, with or without a pinned block. */
    method SweepChunk(i: nat, ghost s0: State, ghost s: State) returns (got: nat)
      requires Sweeping(s0, s, ring, cachedChunks, i) && i < |ring|
      modifies ring[i], ring[i].freeMap, ring[i].info
      ensures Sweeping(s0, s, ring, cachedChunks, i + 1)
      ensures got == 0 <==> forall l :: l in Garbage(s0) ==> l.chunk != ring[i].number
      ensures ring[i].freePages == PAGES - 1 <==> forall l :: l in s0.runs && l.chunk == ring[i].number ==>
        l in Garbage(s0)
      ensures got == |GarbageIn(s0, [ring[i].number])|
    {
      hide *;
      var c := ring[i];
      SweepingAre(s0, s, ring, cachedChunks, i);
      SweepApart(s0, s, ring, cachedChunks, i);
      CountedAre(s0, c, BINS, 0);
      MarkedAre(s0, c);
      MatchesSwept(s0, c.number, c.runs, Marked(c.runs, c.info[..]));
      GarbageOfChunk(s0, c, Marked(c.runs, c.info[..]));
      got := c.Sweep();
      InUseIs(c, s.runs);
      forall d | d in ring && d in ring[..i + 1] ensures InUse(d, s.runs) { if d != c { UpTo(ring, i, d); } }
      SweepingIs(s0, s, ring, cachedChunks, i + 1);
      EmptyChunk(c);
      UseParts(c, s.runs);
      NoneInChunk(c, s.runs);
      LeftInChunk(s0, s, c.number);
    }

    // A chunk that a sweep has emptied is deleted.
    method DropEmptied(i: nat, ghost s0: State, ghost s: State) returns (ghost s': State)
      requires Sweeping(s0, s, ring, cachedChunks, i + 1) && RealOk() && 0 < i < |ring| && ring[i].runs == map[]
      modifies this`ring, this`cachedChunks, this`chunksCount, this`cachedChunksCount, this`realSize,
               this`lastDeleteBoundary, this`lastDeleteCount
      ensures Sweeping(s0, s', ring, cachedChunks, i) && RealOk()
      ensures s' == s.(ring := Numbers(ring), cached := Numbers(cachedChunks)) && ring != [] && ring[0] == old(ring)[0]
      ensures |ring| == old(|ring|) - 1 && i < |s.ring| && s'.ring == Without(s.ring, i)
      ensures i <= |s'.ring| && s'.ring[i..] == s.ring[i + 1..]
      ensures Objects(ring) <= old(Objects(ring))
      ensures Objects(ring) + Objects(cachedChunks) <= old(Objects(ring) + Objects(cachedChunks))
      ensures realSize <= old(realSize)
      ensures |cachedChunks| == old(|cachedChunks|) + if old(Delays()) then 1 else 0
    {
      hide Sweeping, HugeBytes, Numbers, Retired, RealOk, Inv;
      ghost var ring0, cached0 := ring, cachedChunks;
      NotAmong(this, ring0);
      NotAmong(this, cached0);
      Unlink(i);
      SweepDropped(s0, s, ring0, cached0, i, cachedChunks);
      FewerObjects(ring0, ring);
      NumbersTail(s0, s, ring0, cached0, i);
      DroppedNumbers(s0, s, ring0, cached0, i);
      s' := s.(ring := Numbers(ring), cached := Numbers(cachedChunks));
    }

    // Every chunk is swept; those it empties are deleted.
    method SweepChunks(ghost s0: State) returns (collected: nat, ghost s: State)
      requires |s0.free| == BINS && Sweeping(s0, Collect(s0, Garbage(s0)), ring, cachedChunks, 0) && RealOk()
        && HeldBy(s0, pin)
      modifies this`ring, this`cachedChunks, this`chunksCount, this`cachedChunksCount, this`realSize,
               this`lastDeleteBoundary, this`lastDeleteCount, Objects(ring)
      ensures Sweeping(s0, s, ring, cachedChunks, |ring|)
      ensures |s0.free| == BINS
        && s == Collect(s0, Garbage(s0)).(ring := Numbers(ring), cached := Numbers(cachedChunks))
      ensures collected == 0 <==> Garbage(s0) == {}
      ensures collected == |GarbagePages(s0)|
      ensures s0.ring != [] && s.ring == SweptRing(s0)
      ensures |ring| == old(|ring|) - 1 ==>
        |cachedChunks| == old(|cachedChunks|) + if old(Delays()) then 1 else 0
      ensures |ring| == old(|ring|) ==>
        ring == old(ring) && cachedChunks == old(cachedChunks) && realSize == old(realSize)
      ensures RealOk() && realSize <= old(realSize)
      ensures ring != [] && old(ring) != [] && ring[0] == old(ring)[0]
      ensures Objects(ring) + Objects(cachedChunks) <= old(Objects(ring) + Objects(cachedChunks))
      ensures Objects(ring) <= old(Objects(ring))
    {
      hide *;
      ghost var delays := Delays();
      ghost var ring0, all := ring, Objects(ring) + Objects(cachedChunks);
      s := Collect(s0, Garbage(s0));
      SweepingAre(s0, s, ring, cachedChunks, 0);
      AheadStarts(s0);
      GarbageEnds(s0);
      CollectParts(s0);
      HeldStill(s0, s, pin);
      NonEmpty(s0);
      SweptAll(s0, s.ring);
      collected := 0;
      var i := 0;
      while i < |ring|
        invariant i <= |ring| == |s.ring| && Sweeping(s0, s, ring, cachedChunks, i)
        invariant s == Collect(s0, Garbage(s0)).(ring := Numbers(ring), cached := Numbers(cachedChunks))
        invariant collected == 0 <==> Ahead(Garbage(s0), s.ring[i..])
        invariant collected + |GarbageIn(s0, s.ring[i..])| == |GarbagePages(s0)|
        invariant RealOk() && realSize <= old(realSize) && |ring| <= |ring0|
        invariant SweptTo(s0, s.ring, i) && (|ring| == |ring0| ==> Delays() == delays)
        invariant |ring| == |ring0| - 1 ==> |cachedChunks| == old(|cachedChunks|) + if delays then 1 else 0
        invariant |ring| == |ring0| ==> ring == ring0 && cachedChunks == old(cachedChunks) && realSize == old(realSize)
        invariant ring != [] && ring0 != [] && ring[0] == ring0[0]
        invariant Objects(ring) + Objects(cachedChunks) <= all
        invariant HeldBy(s, pin) && Objects(ring) <= Objects(ring0)
        decreases |ring| - i
      {
        SweepingAre(s0, s, ring, cachedChunks, i);
        AheadNext(s0, s, i);
        GarbageNext(s0, s, i);
        ObjectsHave(ring, ring[i]);
        var got := SweepChunk(i, s0, s);
        collected := collected + got;
        EmptiedChunk(s0, s, ring, cachedChunks, i, pin);
        SpentIs(s0, s, ring, i);
        if ring[i].freePages == PAGES - 1 {
          ghost var swept := s;
          SweptPast(s0, s.ring, i);
          s := DropEmptied(i, s0, s);
          SweepingAre(s0, s, ring, cachedChunks, i);
          HeldStill(swept, s, pin);
        } else {
          SweptNext(s0, s.ring, i);
          i := i + 1;
        }
        SweepingAre(s0, s, ring, cachedChunks, i);
      }
      SweptAll(s0, s.ring);
      assert s.ring[i..] == [];
    }

    // The first two passes of zend_mm_gc for one class.
    method UnlistClass(b: Bin)
      requires Counting(st, ring, cachedChunks, b, 0) && |st.free| == |freeSlot| == BINS && freeSlot[b] == st.free[b]
      modifies this`freeSlot, set c | c in ring :: c.info
      ensures Counting(st, ring, cachedChunks, b + 1, 0)
      ensures |st.free| == BINS && freeSlot == old(freeSlot)[b := Kept(st.free[b], st.slots, Garbage(st))]
    {
      hide *;
      CountingAre(st, ring, cachedChunks, b, 0);
      var full := CountFree(b);
      CountingAre(st, ring, cachedChunks, b + 1, 0);
      FreeDistinct(st, b);
      if full {
        var kept := WithoutFull(b);
        CountingAre(st, ring, cachedChunks, b + 1, 0);
        freeSlot := freeSlot[b := kept];
      } else {
        NothingToUnlist(st, b);
      }
      CountingIs(st, ring, cachedChunks, b + 1, 0);
    }

    // The first two passes of zend_mm_gc, class by class.
    method UnlistGarbage()
      requires Shape()
      modifies this`freeSlot, set c | c in ring :: c.info
      ensures Counting(st, ring, cachedChunks, BINS, 0)
      ensures |st.free| == BINS && freeSlot == Collect(st, Garbage(st)).free
    {
      hide *;
      Shaped(this);
      StartCounting(st, ring, cachedChunks, freeSlot, hugeList);
      var i := 0;
      while i < BINS
        invariant i <= BINS == |freeSlot| == |st.free| && Counting(st, ring, cachedChunks, i, 0)
        invariant forall b :: 0 <= b < BINS ==>
          freeSlot[b] == if b < i then Kept(st.free[b], st.slots, Garbage(st)) else st.free[b]
      {
        UnlistClass(i);
        i := i + 1;
      }
      FreeCollected(st, freeSlot);
    }

    /** zend_mm_gc: no live block changes; exactly the runs of classes 1 to 29 without a live slot are freed and their
        slots unlisted; the result is their bytes, zero exactly if there are none, and there are none afterwards. */
    method Gc() returns (collected: nat)
      requires Shape() && RealOk() && Pinned()
      modifies this`freeSlot, this`ring, this`cachedChunks, this`chunksCount, this`cachedChunksCount, this`realSize,
               this`lastDeleteBoundary, this`lastDeleteCount, this`st, Objects(ring)
      ensures Shape() && RealOk() && Pinned()
      ensures |old(st).free| == BINS && st == Collect(old(st), Garbage(old(st))).(ring := st.ring, cached := st.cached)
      ensures collected == 0 <==> Garbage(old(st)) == {}
      ensures collected == |GarbagePages(old(st))| * PAGE
      ensures Garbage(st) == {}
      ensures old(st).ring != [] && st.ring == SweptRing(old(st)) && Busy(st)
      ensures |ring| == old(|ring|) - 1 ==>
        |cachedChunks| == old(|cachedChunks|) + if old(Delays()) then 1 else 0
      ensures |ring| == old(|ring|) ==>
        ring == old(ring) && cachedChunks == old(cachedChunks) && realSize == old(realSize)
      ensures realSize <= old(realSize)
      ensures ring != [] && old(ring) != [] && ring[0] == old(ring)[0]
      ensures Objects(ring) + Objects(cachedChunks) <= old(Objects(ring) + Objects(cachedChunks))
      ensures Objects(ring) <= old(Objects(ring))
    {
      hide *;
      ghost var before := st;
      Shaped(this);
      PinHeld(this);
      InfosIn(ring);
      UnlistGarbage();
      SweepStart(st, ring, cachedChunks);
      ghost var s;
      collected, s := SweepChunks(before);
      SweepingAre(before, s, ring, cachedChunks, |ring|);
      GarbageGone(before);
      GarbageSame(before, s);
      CollectParts(before);
      SweepDone(before, s, ring, cachedChunks, freeSlot, hugeList);
      st := s;
      PinStays(this, before);
      Reformed(this);
      SweptBusy(before, s);
      collected := collected * PAGE;
    }

    // ---- pages ----

    // The search of zend_mm_alloc_pages: the first chunk of the ring that has room, the best fit in it.
    method FindRun(count: nat) returns (found: bool, i: nat, page: nat)
      requires Shape() && 0 < count
      modifies (set c | c in ring)`freeTail
      ensures Shape()
      ensures found ==> i < |ring| && BestFitAt(ring[i].freeMap[..], count, page)
                        && page < ring[i].freeTail && Spans.Vacant(Lengths(ring[i].runs), page, count)
      ensures forall k :: 0 <= k < |ring| && (k < i || !found) ==> NoFit(ring[k].freeMap[..], count)
    {
      hide *;
      i := 0;
      while i < |ring|
        invariant i <= |ring| && Shape()
        invariant forall k :: 0 <= k < i ==> NoFit(ring[k].freeMap[..], count)
      {
        var c := ring[i];
        OpenedAt(this, c);
        ghost var entries, local := c.info[..], c.runs;
        found, page := c.Find(count);
        SameRuns(c, local, entries, st.runs);
        Closed(st, st, ring, cachedChunks, c);
        Reformed(this);
        if found { return true, i, page; }
        i := i + 1;
      }
      found, page := false, 0;
    }

    predicate IsUnmapped(start: nat, units: nat)
      reads `ring, `cachedChunks, `hugeList
    {
      && 0 < start
      && (forall c :: c in ring ==> !(start <= c.number < start + units))
      && (forall c :: c in cachedChunks ==> !(start <= c.number < start + units))
      && (forall i :: 0 <= i < |hugeList| ==> Apart(hugeList[i].ptr.chunk, Units(hugeList[i].size), start, units))
    }

    // Address space that is granted lies anywhere outside the heap, aligned to a chunk.
    method MapSpace(units: nat) returns (start: nat)
      requires Shape()
      ensures Shape() && Unmapped(st, start, units)
    {
      hide *;
      SpaceExists(this, units);
      start :| IsUnmapped(start, units);
      SpaceIsUnmapped(this, start, units);
    }

    // The end of get_chunk: chunk c, which is nobody's, is counted, initialized and put at the end of the ring.
    method Enter(c: Chunk)
      requires Inv(st) && Numbers(ring) == st.ring && Unshared(ring + cachedChunks) && freeSlot == st.free
        && hugeList == st.huge
      requires Distinct(Numbers(cachedChunks)) && forall n :: n in Numbers(cachedChunks) ==> n in st.cached
      requires Stranger(c, ring) && Stranger(c, cachedChunks) && Clean(c) && c.number != 0
      requires c.number in st.cached || Unmapped(st, c.number, 1)
      requires forall d :: d in ring ==> InUse(d, st.runs)
      requires forall d :: d in cachedChunks ==> Clean(d)
      modifies `ring, `chunksCount, `peakChunksCount, `st, c, c.freeMap, c.info
      ensures Shape() && ring == old(ring) + [c] && c.Valid() && c.runs == map[]
      ensures st == old(st).(ring := Numbers(ring), cached := Numbers(cachedChunks))
      ensures old(ring) != [] && c.num == old(ring[|ring| - 1].num) + 1
      ensures chunksCount == old(chunksCount) + 1
        && peakChunksCount == old(if chunksCount + 1 > peakChunksCount then chunksCount + 1 else peakChunksCount)
    {
      hide *;
      chunksCount := chunksCount + 1;
      if chunksCount > peakChunksCount { peakChunksCount := chunksCount; }
      StrangerParts(c, ring);
      StrangerParts(c, cachedChunks);
      CleanParts(c);
      NonEmpty(st);
      MapsAre(ring);
      c.num := ring[|ring| - 1].num + 1;
      c.Initialize();
      Entered(st, ring, cachedChunks, c);
      NotAmong(this, ring + [c]);
      NotAmong(this, cachedChunks);
      ring := ring + [c];
      st := st.(ring := Numbers(ring), cached := Numbers(cachedChunks));
      Reformed(this);
    }

    // The head of the cache enters the ring.
    method EnterCached()
      requires Shape() && RealOk() && cachedChunks != []
      modifies `ring, `cachedChunks, `chunksCount, `peakChunksCount, `cachedChunksCount, `st,
               cachedChunks[0], cachedChunks[0].freeMap, cachedChunks[0].info
      ensures Shape() && RealOk() && ring == old(ring) + [old(cachedChunks[0])]
      ensures st == old(st).(ring := Numbers(ring), cached := Numbers(cachedChunks))
      ensures ring[|ring| - 1].Valid() && ring[|ring| - 1].runs == map[]
      ensures cachedChunks == old(cachedChunks)[1..]
      ensures Objects(ring) + Objects(cachedChunks) <= old(Objects(ring) + Objects(cachedChunks))
    {
      hide Inv, ShapeOf, Shape, HugeBytes, Numbers, InUse, Clean, Stranger, Unmapped, Unshared, Distinct, Consistent,
        Objects;
      Shaped(this);
      ShapeParts(st, ring, cachedChunks, freeSlot, hugeList);
      HeadApart(st, ring, cachedChunks, freeSlot, hugeList);
      cachedChunksCount := cachedChunksCount - 1;
      var chunk := cachedChunks[0];
      cachedChunks := cachedChunks[1..];
      Enter(chunk);
      EnteredObjects(old(ring), old(cachedChunks));
    }

    // Memory just mapped is a chunk of its own.
    method MapChunk(start: nat) returns (chunk: Chunk)
      requires Shape() && Unmapped(st, start, 1)
      ensures fresh(chunk) && fresh(chunk.freeMap) && fresh(chunk.info) && chunk.number == start && Clean(chunk)
        && start != 0
      ensures Stranger(chunk, ring) && Stranger(chunk, cachedChunks)
    {
      hide Inv, ShapeOf, Shape, Numbers, InUse, Clean, Unmapped, Unshared;
      Shaped(this);
      ShapeParts(st, ring, cachedChunks, freeSlot, hugeList);
      UnmappedChunk(st, ring, cachedChunks, start);
      chunk := new Chunk(start);
      BlankIsClean(chunk);
    }

    // A chunk just mapped enters the ring and is charged.
    method EnterMapped(start: nat) returns (chunk: Chunk)
      requires Shape() && RealOk() && Unmapped(st, start, 1)
      modifies `ring, `chunksCount, `peakChunksCount, `realSize, `st
      ensures Shape() && RealOk() && ring == old(ring) + [chunk]
      ensures fresh(chunk) && fresh(chunk.freeMap) && fresh(chunk.info) && chunk.Valid() && chunk.runs == map[]
      ensures st == old(st).(ring := Numbers(ring), cached := Numbers(cachedChunks))
      ensures realSize == old(realSize) + CHUNK
    {
      hide Inv, ShapeOf, Shape, HugeBytes, Numbers, InUse, Clean, Stranger, Unmapped, Unshared, Distinct, Consistent,
        Objects;
      Shaped(this);
      ShapeParts(st, ring, cachedChunks, freeSlot, hugeList);
      CachedDistinct(st);
      chunk := MapChunk(start);
      realSize := realSize + CHUNK;
      Enter(chunk);
    }

    // A collection as part of an allocation.
    method TryGc() returns (collected: nat)
      requires Shape() && RealOk() && Pinned()
      modifies `freeSlot, `ring, `cachedChunks, `chunksCount, `cachedChunksCount, `realSize,
               `lastDeleteBoundary, `lastDeleteCount, `st, Objects(ring)
      ensures Shape() && RealOk() && Pinned() && Trimmed(old(st), st)
      ensures old(|ring|) == 1 ==> ring == old(ring) && cachedChunks == old(cachedChunks) && realSize == old(realSize)
      ensures collected > 0 ==> |st.runs| < |old(st).runs|
      ensures collected == 0 <==> Garbage(old(st)) == {}
      ensures MaybeCollected(old(st), st) && Garbage(st) == {} && Busy(st)
      ensures realSize == old(realSize) - ChunksLost(old(st), st) * CHUNK
      ensures old(st).ring != [] && st.ring == SweptRing(old(st))
      ensures Emptied(old(st)) == 1 ==> |cachedChunks| == old(|cachedChunks|) + if old(Delays()) then 1 else 0
      ensures !Reclaimable(old(st)) ==>
        ring == old(ring) && cachedChunks == old(cachedChunks) && realSize == old(realSize)
      ensures |cachedChunks| == |st.cached|
      ensures realSize <= old(realSize) && refusals == old(refusals) && relief == old(relief)
      ensures Objects(ring) + Objects(cachedChunks) <= old(Objects(ring) + Objects(cachedChunks))
      ensures Objects(ring) <= old(Objects(ring))
    {
      hide *;
      ghost var before := st;
      Shaped(this);
      NotAmong(this, ring);
      RealByChunks(this);
      NonEmpty(st);
      SweptShorter(st);
      EmptiedIs(st);
      collected := Gc();
      RealByChunks(this);
      LostAre(before, st);
      Collected(before, this);
    }

    // The part of get_chunk before a chunk is taken: while the cache is empty and another chunk would exceed the limit,
    // garbage is collected. The loop ends because a collection that frees nothing ends it.
    method MakeRoom() returns (room: bool)
      requires Shape() && RealOk() && Pinned()
      modifies `freeSlot, `ring, `cachedChunks, `chunksCount, `cachedChunksCount, `realSize,
               `lastDeleteBoundary, `lastDeleteCount, `st, Objects(ring)
      ensures Shape() && RealOk() && Pinned() && Trimmed(old(st), st)
      ensures room && cachedChunks == [] && !overflow ==> realSize + CHUNK <= limit
      ensures realSize <= old(realSize) && refusals == old(refusals) && relief == old(relief)
      ensures old(cachedChunks) != [] || old(realSize) + CHUNK <= limit ==>
        room && cachedChunks == old(cachedChunks) && realSize == old(realSize)
      ensures !room ==> !overflow && old(realSize) + CHUNK > limit
      ensures old(|ring|) == 1 ==> |ring| == 1
      ensures Denied(old(Cornered()), old(Proper()), !room, true, old(st), st) && (old(Busy(st)) ==> Busy(st))
      ensures old(Busy(st)) && !room ==> Cornered()
      ensures old(realSize) + CHUNK <= limit ==> st == old(st)
      ensures Asked(old(st), old(realSize) + CHUNK <= limit, st)
      ensures Objects(ring) + Objects(cachedChunks) <= old(Objects(ring) + Objects(cachedChunks))
    {
      hide *;
      ghost var before0, charged, delays, cornered, proper := st, realSize, Delays(), Cornered(), Proper();
      Shaped(this);
      EmptiedIs(st);
      CorneredIs(this);
      TrimmedSame(this);
      CachedCount(this);
      ghost var tried := false;
      while cachedChunks == [] && realSize + CHUNK > limit
        invariant MaybeCollected(before0, st) && charged - realSize == ChunksLost(before0, st) * CHUNK
        invariant |cachedChunks| == |st.cached| && (st == before0 ==> Delays() == delays)
        invariant st == before0 ==> cachedChunks == old(cachedChunks)
        invariant st != before0 && Emptied(before0) == 1 ==>
          |cachedChunks| == old(|cachedChunks|) + if delays then 1 else 0
        invariant !Reclaimable(before0) ==> cachedChunks == old(cachedChunks) && realSize == charged
        invariant tried ==> Garbage(st) == {} && Busy(st)
        invariant !tried ==> st == before0 && cachedChunks == old(cachedChunks) && realSize == charged
        invariant tried ==> before0.cached == [] && charged + CHUNK > limit
        invariant Shape() && RealOk() && Pinned() && Trimmed(old(st), st)
        invariant refusals == old(refusals) && relief == old(relief) && realSize <= old(realSize)
        invariant old(cachedChunks) != [] || old(realSize) + CHUNK <= limit ==>
          cachedChunks == old(cachedChunks) && realSize == old(realSize)
        invariant old(|ring|) == 1 ==> |ring| == 1
        invariant Objects(ring) + Objects(cachedChunks) <= old(Objects(ring) + Objects(cachedChunks))
        invariant Objects(ring) <= old(Objects(ring))
        decreases |st.runs|
      {
        ghost var before, still := st, realSize;
        var collected := TryGc();
        tried := true;
        TrimmedOn(old(st), before, st);
        MaybeOn(before0, before, st);
        MaybeBusy(before0, before);
        MaybeBusy(before0, st);
        LostAre(before0, before);
        LostAre(before, st);
        LostAre(before0, st);
        if Busy(before) && Garbage(before) == {} { NothingSpent(before); }
        MaybeShorter(before0, before);
        MaybeShorter(before0, st);
        NothingLeft(this);
        if collected == 0 {
          DeniedIs(cornered, proper, !overflow, true, before0, st);
          AskedIs(before0, charged + CHUNK <= limit, st);
          return overflow;
        }
      }
      room := true;
      AskedIs(before0, charged + CHUNK <= limit, st);
      MaybeBusy(before0, st);
      MaybeShorter(before0, st);
      LostAre(before0, st);
      DeniedIs(cornered, proper, false, true, before0, st);
    }

    ghost method NoteRefusal()
      requires Shape()
      modifies `refusals
      ensures Shape() && refusals == old(refusals) + 1
    {
      hide *;
      Shaped(this);
      refusals := refusals + 1;
      Reformed(this);
    }

    ghost method NoteRelief(given: nat)
      requires Shape()
      modifies `relief
      ensures Shape() && relief == old(relief) + given
    {
      hide *;
      Shaped(this);
      relief := relief + given;
      Reformed(this);
    }

    // mmap, as far as it is granted or refused.
    method AskSystem() returns (granted: bool)
      requires Shape()
      modifies `asked
      ensures Shape() && granted == answers(old(asked)) && asked == old(asked) + 1
    {
      hide *;
      Shaped(this);
      granted := answers(asked);
      asked := asked + 1;
      Reformed(this);
    }

    // Memory that the operating system grants at once, or when it is asked again after a collection that freed
    // something.
    method AskTwice() returns (granted: bool)
      requires Shape() && RealOk() && Pinned()
      modifies `freeSlot, `ring, `cachedChunks, `chunksCount, `cachedChunksCount, `realSize,
               `lastDeleteBoundary, `lastDeleteCount, `refusals, `asked, `st, Objects(ring)
      ensures Shape() && RealOk() && Pinned() && Trimmed(old(st), st) && realSize <= old(realSize)
      ensures MaybeCollected(old(st), st)
      ensures if answers(old(asked)) then granted && st == old(st) && asked == old(asked) + 1
        else if Garbage(old(st)) == {} then !granted && asked == old(asked) + 1
        else asked == old(asked) + 2 && (granted <==> answers(old(asked) + 1))
      ensures relief == old(relief) && (old(Busy(st)) ==> Busy(st))
      ensures !granted ==> refusals > old(refusals)
      ensures granted ==> refusals == old(refusals)
      ensures old(|ring|) == 1 ==> ring == old(ring) && cachedChunks == old(cachedChunks) && realSize == old(realSize)
      ensures Objects(ring) <= old(Objects(ring))
      ensures Objects(ring) + Objects(cachedChunks) <= old(Objects(ring) + Objects(cachedChunks))
    {
      hide *;
      TrimmedSame(this);
      NotAmong(this, ring);
      granted := AskSystem();
      if !granted {
        var collected := TryGc();
        if collected > 0 { granted := AskSystem(); }
        if !granted { NoteRefusal(); }
      }
    }

    // The part of get_chunk that asks the operating system, which may refuse, after a collection once more.
    method MapNew() returns (chunk: Option<Chunk>, ghost kept: State)
      requires Shape() && RealOk() && Pinned()
      modifies `freeSlot, `ring, `cachedChunks, `chunksCount, `peakChunksCount, `cachedChunksCount, `realSize,
               `refusals, `asked, `relief,
               `lastDeleteBoundary, `lastDeleteCount, `st, Objects(ring), Objects(cachedChunks)
      ensures Shape() && RealOk() && Pinned() && Trimmed(old(st), st)
      ensures chunk.Some? ==>
        2 <= |ring| && chunk.value == ring[|ring| - 1] && chunk.value.Valid() && chunk.value.runs == map[]
      ensures if chunk.Some? then MaybeCollected(old(st), kept) && Enters(kept, st, chunk.value.number, kept.cached)
        else MaybeCollected(old(st), st)
      ensures if answers(old(asked)) then chunk.Some? && kept == old(st) && asked == old(asked) + 1
        else if Garbage(old(st)) == {} then chunk.None? && asked == old(asked) + 1
        else asked == old(asked) + 2 && (chunk.Some? <==> answers(old(asked) + 1))
      ensures relief >= old(relief)
      ensures old(Busy(st)) ==> if chunk.Some? then BusyBut(st, chunk.value.number) else Busy(st)
      ensures chunk.Some? ==> realSize + relief - old(relief) == old(realSize) + CHUNK && refusals == old(refusals)
      ensures chunk.None? ==> realSize <= old(realSize) && refusals > old(refusals)
      ensures old(|ring|) == 1 ==> relief == old(relief)
      ensures refusals >= old(refusals)
      ensures forall o :: o in Objects(ring) + Objects(cachedChunks) ==>
        o in old(Objects(ring) + Objects(cachedChunks)) || fresh(o)
    {
      hide *;
      TrimmedSame(this);
      kept := st;
      BeforeEntry(this);
      Shaped(this);
      MaybeSame(st);
      ghost var charged := realSize;
      var granted := AskTwice();
      NoteRelief(charged - realSize);
      if !granted { return None, st; }
      var start := MapSpace(1);
      ghost var before, ring0 := st, ring;
      kept := st;
      BeforeEntry(this);
      var c := EnterMapped(start);
      ObjectsJoin(ring0, [c]);
      ObjectsOne(c);
      assert Objects(ring) + Objects(cachedChunks) - old(Objects(ring) + Objects(cachedChunks))
        <= {c as object, c.freeMap, c.info};
      EnteredTrim(before, this, ring0, c);
      EnteredBusy(before, this, ring0, c);
      EntersIs(before, this, ring0, c);
      TrimmedOn(old(st), before, st);
      PinTrimmed(this, before);
      chunk := Some(c);
    }

    // get_chunk: a chunk from the cache, else one from the operating system within the limit, collecting garbage first
    // where that helps.
    method GetChunk() returns (chunk: Option<Chunk>, ghost kept: State)
      requires Shape() && RealOk() && Pinned()
      modifies `freeSlot, `ring, `cachedChunks, `chunksCount, `peakChunksCount, `cachedChunksCount, `realSize,
               `refusals, `asked, `relief,
               `lastDeleteBoundary, `lastDeleteCount, `st, Objects(ring), Objects(cachedChunks)
      ensures Shape() && RealOk() && Pinned() && Trimmed(old(st), st)
      ensures chunk.Some? ==>
        2 <= |ring| && chunk.value == ring[|ring| - 1] && chunk.value.Valid() && chunk.value.runs == map[]
      ensures realSize <= old(realSize) + CHUNK && (overflow || realSize <= old(realSize) || realSize <= limit)
      ensures chunk.None? ==>
        old(cachedChunks) == [] && (refusals > old(refusals) || (!overflow && old(realSize) + CHUNK > limit))
      ensures Grew(false, old(cachedChunks) != [], old(realSize), realSize, limit, relief - old(relief), chunk.Some?)
      ensures old(|ring|) == 1 ==> relief == old(relief)
      ensures chunk.None? ==> realSize <= old(realSize)
      ensures Denied(old(Cornered()), old(Proper()), chunk.None?, refusals == old(refusals), old(st), st)
      ensures old(Busy(st)) && chunk.None? && refusals == old(refusals) ==> Cornered()
      ensures old(Busy(st)) ==> if chunk.Some? then BusyBut(st, chunk.value.number) else Busy(st)
      ensures if chunk.Some?
        then ChunkJoined(old(st), old(realSize) + CHUNK <= limit, kept, st, chunk.value.number)
        else MaybeCollected(old(st), st)
      ensures refusals >= old(refusals)
      ensures forall o :: o in Objects(ring) + Objects(cachedChunks) ==>
        o in old(Objects(ring) + Objects(cachedChunks)) || fresh(o)
    {
      hide *;
      GrewCases();
      ghost var before0, cornered, proper := st, Cornered(), Proper();
      ghost var fits := realSize + CHUNK <= limit;
      CachedCount(this);
      var room := MakeRoom();
      DeniedIs(cornered, proper, !room, true, before0, st);
      AskedIs(before0, fits, st);
      JoinedIs();
      CachedCount(this);
      if !room { return None, st; }
      ghost var before := st;
      kept := st;
      if cachedChunks != [] {
        ghost var ring0, cached0 := ring, cachedChunks;
        BeforeEntry(this);
        ObjectsHave(cachedChunks, cachedChunks[0]);
        EnterCached();
        EnteredTrim(before, this, ring0, ring[|ring| - 1]);
        EnteredBusy(before, this, ring0, ring[|ring| - 1]);
        EntersCached(before, this, ring0, cached0);
        DeniedIs(cornered, proper, false, true, before0, st);
        TrimmedOn(old(st), before, st);
        PinTrimmed(this, before);
        return Some(ring[|ring| - 1]), before;
      }
      chunk, kept := MapNew();
      if chunk.Some? { AskedOn(before0, fits, before, kept); } else { MaybeOn(before0, before, st); }
      DeniedIs(cornered, proper, chunk.None?, chunk.Some?, before0, st);
      TrimmedOn(old(st), before, st);
    }

    // A chunk found late in the ring moves behind the main chunk.
    method MoveChunk(i: nat)
      requires Shape() && RealOk() && 0 < i < |ring|
      modifies `ring, `st
      ensures Shape() && RealOk() && old(|ring|) == |ring|
        && ring == old([ring[0], ring[i]] + ring[1..i] + ring[i + 1..])
      ensures st == old(st).(ring := Numbers(ring)) && Objects(ring) == old(Objects(ring))
    {
      hide Inv, Shape, ShapeOf, HugeBytes, Numbers, Objects;
      NotAmong(this, ring);
      NotAmong(this, cachedChunks);
      MovedShape(this, i);
      ghost var ring0, cached0 := ring, cachedChunks;
      ring := [ring[0], ring[i]] + ring[1..i] + ring[i + 1..];
      st := st.(ring := Numbers(ring));
      Reformed(this);
    }

    // The end of zend_mm_alloc_pages.
    method PlaceRun(i: nat, page: nat, steps: nat, count: nat, ghost data: seq<bv8>) returns (p: Ptr)
      requires Shape() && RealOk() && i < |ring| && (steps > 2 ==> 0 < i)
      requires 0 < count && page <= ring[i].freeTail && Spans.Vacant(Lengths(ring[i].runs), page, count)
        && |data| == count * PAGE
      modifies `ring, `st, ring[i], ring[i].freeMap, ring[i].info
      ensures Shape() && RealOk() && Objects(ring) == old(Objects(ring)) && |ring| == old(|ring|)
      ensures st.ring == Reordered(old(st).ring, i, steps, count) && st.cached == old(st).cached
      ensures BusyBut(old(st), old(ring[i]).number) ==> Busy(st)
      ensures p == RunPtr(Loc(old(ring[i]).number, page)) && RunAdded(old(st), st, p, count, data)
    {
      hide *;
      var chunk := ring[i];
      Shaped(this);
      NumbersAre(this);
      ReorderedIs(ring, i, steps, count);
      if steps > 2 && count < 8 {
        MoveChunk(i);
        RingMoved(old(st), this, old(ring), i, chunk.number);
      }
      Shaped(this);
      ghost var middle := st;
      AddedParts(st, Loc(chunk.number, page), count, data);
      AddedRun(old(st), st, Loc(chunk.number, page), count, data);
      p := TakeRun(chunk, page, count, data);
      RunPuts(middle, Loc(chunk.number, page), count, data);
    }

    // The end of zend_mm_alloc_pages when no chunk has room: the first pages of another chunk.
    method AllocInNew(count: nat, ghost data: seq<bv8>) returns (p: Option<Ptr>)
      requires Shape() && RealOk() && Pinned() && 1 <= count <= 511 && |data| == count * PAGE
      modifies `freeSlot, `ring, `cachedChunks, `chunksCount, `peakChunksCount, `cachedChunksCount, `realSize,
               `refusals, `asked, `relief,
               `lastDeleteBoundary, `lastDeleteCount, `st, Objects(ring), Objects(cachedChunks)
      ensures Shape() && RealOk() && Pinned()
      ensures if p.Some? then PagesAdded(old(st), st, p.value, count, data) else Trimmed(old(st), st)
      ensures realSize <= old(realSize) + CHUNK && (overflow || realSize <= old(realSize) || realSize <= limit)
      ensures p.None? ==>
        old(cachedChunks) == [] && (refusals > old(refusals) || (!overflow && old(realSize) + CHUNK > limit))
      ensures p.Some? ==> p.value.off == 4096
      ensures Grew(false, old(cachedChunks) != [], old(realSize), realSize, limit, relief - old(relief), p.Some?)
      ensures old(|ring|) == 1 ==> relief == old(relief)
      ensures p.None? ==> realSize <= old(realSize)
      ensures Denied(old(Cornered()), old(Proper()), p.None?, refusals == old(refusals), old(st), st)
      ensures old(Busy(st)) && p.None? && refusals == old(refusals) ==> Cornered()
      ensures if p.Some? then InNew(old(st), old(realSize) + CHUNK <= limit, count, Large(count), st, p.value)
        else MaybeCollected(old(st), st)
      ensures (old(Busy(st)) ==> Busy(st)) && refusals >= old(refusals)
      ensures forall o :: o in Objects(ring) + Objects(cachedChunks) ==>
        o in old(Objects(ring) + Objects(cachedChunks)) || fresh(o)
    {
      hide *;
      GrewCases();
      ghost var before, stuck, proper := st, Cornered(), Proper();
      PinIs(this);
      Shaped(this);
      ghost var fits := realSize + CHUNK <= limit;
      var hops := |ring| - 1;
      ghost var kept;
      NumbersAre(this);
      MapsAre(ring);
      var chunk;
      chunk, kept := GetChunk();
      DeniedIs(stuck, proper, chunk.None?, refusals == old(refusals), before, st);
      if chunk.None? { return None; }
      ghost var middle := st;
      Shaped(this);
      var i := |ring| - 1;
      RunPtrIs(ring[i].number, 1);
      BlankRoom(ring[i], count);
      ObjectsHave(ring, ring[i]);
      ghost var objects := Objects(ring) + Objects(cachedChunks);
      assert ring[i] as object in objects && ring[i].freeMap as object in objects && ring[i].info as object in objects;
      ghost var number := ring[i].number;
      NumbersAre(this);
      MapsAre(ring);
      var q := PlaceRun(i, 1, hops, count, data);
      JoinedLength(before, fits, kept, middle, number);
      RunIsPut(middle, st, q, count, data);
      PlacedNew(before, fits, kept, middle, count, st, q);
      PagesAfterTrim(before, middle, st, q, count, data);
      PinAdded(this, before, q, count, data);
      DeniedIs(stuck, proper, false, refusals == old(refusals), before, st);
      p := Some(q);
    }

    /** zend_mm_alloc_pages: the best fit in the first chunk of the ring that has one, else the first pages of another
        chunk. */
    method AllocPages(count: nat, ghost data: seq<bv8>) returns (p: Option<Ptr>)
      requires Shape() && RealOk() && 1 <= count <= 511 && |data| == count * PAGE
      requires Ready(count)
      modifies `freeSlot, `ring, `cachedChunks, `chunksCount, `peakChunksCount, `cachedChunksCount, `realSize,
               `refusals, `asked, `relief,
               `lastDeleteBoundary, `lastDeleteCount, `st, Objects(ring), Objects(cachedChunks)
      ensures Shape() && RealOk() && (old(Pinned()) ==> Pinned())
      ensures if p.Some? then PagesAdded(old(st), st, p.value, count, data) else Trimmed(old(st), st)
      ensures RunPlaced(old(st), old(Maps(ring)), old(realSize) + CHUNK <= limit, count, Large(count), st, p)
      ensures old(Roomy(count)) ==>
        p.Some? && |ring| == old(|ring|) && realSize == old(realSize) && cachedChunks == old(cachedChunks)
        && refusals == old(refusals)
      ensures realSize <= old(realSize) + CHUNK && (overflow || realSize <= old(realSize) || realSize <= limit)
      ensures p.None? ==>
        (old(!Roomy(count)) && old(cachedChunks) == [] &&
         (refusals > old(refusals) || (!overflow && old(realSize) + CHUNK > limit)))
      ensures p.Some? && old(!Roomy(count)) ==> p.value.off == 4096
      ensures Grew(old(Roomy(count)), old(cachedChunks) != [], old(realSize), realSize, limit,
        relief - old(relief), p.Some?)
      ensures old(|ring|) == 1 ==> relief == old(relief)
      ensures p.None? ==> realSize <= old(realSize)
      ensures Denied(old(!Roomy(count) && Cornered()), old(Proper()), p.None?, refusals == old(refusals),
        old(st), st)
      ensures old(Busy(st)) ==> Busy(st)
      ensures old(Busy(st)) && p.None? && refusals == old(refusals) ==> Cornered()
      ensures old(Roomy(count)) ==>
        p.Some? && st.runs == old(st).runs[Loc(p.value.chunk, p.value.off / 4096) := Large(count)]
      ensures refusals >= old(refusals)
      ensures forall o :: o in Objects(ring) + Objects(cachedChunks) ==>
        o in old(Objects(ring) + Objects(cachedChunks)) || fresh(o)
    {
      hide *;
      GrewCases();
      ghost var maps, fits := Maps(ring), realSize + CHUNK <= limit;
      NumbersAre(this);
      ghost var before, stuck, proper := st, !Roomy(count) && Cornered(), Proper();
      CorneredIs(this);
      ChunksIn(ring);
      MapsAre(ring);
      TrimmedSame(this);
      Shaped(this);
      PinIs(this);
      ReadyIs(this, count);
      var found, i, page := FindRun(count);
      if found {
        FitsSome(maps, count, i, page);
        if Busy(st) { BusyButAny(st, ring[i].number); }
        ObjectsHave(ring, ring[i]);
        var q := PlaceRun(i, page, i, count, data);
        PagesAfterTrim(before, before, st, q, count, data);
        PinAdded(this, before, q, count, data);
        RunIsPut(before, st, q, count, data);
        PlacedOld(before, maps, fits, count, i, page, st, q);
        DeniedIs(stuck, proper, false, refusals == old(refusals), before, st);
        p := Some(q);
      } else {
        NoneFitsIs(maps, count);
        CorneredIs(this);
        p := AllocInNew(count, data);
        PlacedIs(before, maps, fits, count, Large(count), st, p);
      }
    }

    // ---- slots ----

    // A live slot goes back to the head of its free list.
    method PushSlot(p: Ptr, b: Bin)
      requires Shape() && p in st.slots && st.slots[p].bin == b && p in st.live
      requires forall i :: 0 <= i < |st.huge| ==> st.huge[i].node != p
      modifies this`freeSlot, this`st
      ensures Shape() && |old(st).free| == BINS && st == Push(old(st), p)
    {
      hide *;
      Pushed(this, p, b);
      freeSlot := freeSlot[b := [p] + freeSlot[b]];
      st := Push(st, p);
      Reformed(this);
    }

    // The head of a free list is handed out.
    method PopSlot(b: Bin, ghost data: seq<bv8>) returns (p: Ptr)
      requires Shape() && |freeSlot| == BINS && freeSlot[b] != [] && |data| == BinSize(b)
      modifies this`freeSlot, this`st
      ensures Shape() && |old(st).free| == BINS && old(st).free[b] != [] && st == Pop(old(st), b, data)
      ensures p == old(st).free[b][0] && p !in old(st).live && p in st.slots && st.slots[p].bin == b
    {
      hide *;
      Popped(this, b, data);
      p := freeSlot[b][0];
      freeSlot := freeSlot[b := freeSlot[b][1..]];
      st := Pop(st, b, data);
      Reformed(this);
    }

    // ---- handing out ----

    // zend_mm_alloc_small_slow: a new run for a class whose free list is empty.
    method AllocSmallSlow(bin: Bin, ghost data: seq<bv8>) returns (p: Option<Ptr>)
      requires Shape() && RealOk() && Ready(BinPages(bin)) && |data| == BinSize(bin)
      requires |freeSlot| == BINS && freeSlot[bin] == []
      modifies `freeSlot, `ring, `cachedChunks, `chunksCount, `peakChunksCount, `cachedChunksCount, `realSize,
               `refusals, `asked, `relief,
               `lastDeleteBoundary, `lastDeleteCount, `st, Objects(ring), Objects(cachedChunks)
      ensures Shape() && RealOk() && (old(Pinned()) ==> Pinned())
      ensures if p.Some? then SmallAdded(old(st), st, p.value, bin, data) else Trimmed(old(st), st)
      ensures old(Roomy(BinPages(bin))) ==>
        p.Some? && |ring| == old(|ring|) && realSize == old(realSize) && cachedChunks == old(cachedChunks)
        && refusals == old(refusals)
      ensures realSize <= old(realSize) + CHUNK && (overflow || realSize <= old(realSize) || realSize <= limit)
      ensures p.None? ==>
        (old(!Roomy(BinPages(bin))) && old(cachedChunks) == [] &&
         (refusals > old(refusals) || (!overflow && old(realSize) + CHUNK > limit)))
      ensures Grew(old(Roomy(BinPages(bin))), old(cachedChunks) != [], old(realSize), realSize, limit,
        relief - old(relief), p.Some?)
      ensures p.Some? ==> |freeSlot| == BINS && FirstOfRun(p.value, freeSlot[bin], bin)
      ensures old(|ring|) == 1 ==> relief == old(relief)
      ensures p.None? ==> realSize <= old(realSize)
      ensures Denied(old(!Roomy(BinPages(bin)) && Cornered()), old(Proper()), p.None?,
        refusals == old(refusals), old(st), st)
      ensures old(Busy(st)) ==> Busy(st)
      ensures old(Busy(st)) && p.None? && refusals == old(refusals) ==> Cornered()
      ensures old(Roomy(BinPages(bin))) ==>
        p.Some? && st.runs == old(st).runs[Loc(p.value.chunk, p.value.off / 4096) := Small(bin)]
      ensures RunPlaced(old(st), old(Maps(ring)), old(realSize) + CHUNK <= limit, BinPages(bin), Small(bin), st, p)
      ensures refusals >= old(refusals)
      ensures forall o :: o in Objects(ring) + Objects(cachedChunks) ==>
        o in old(Objects(ring) + Objects(cachedChunks)) || fresh(o)
    {
      hide *;
      Constants();
      PinIs(this);
      Shaped(this);
      ghost var bytes := RunBytes(bin);
      ghost var before0, stuck, proper := st, !Roomy(BinPages(bin)) && Cornered(), Proper();
      ghost var maps, fits := Maps(ring), realSize + CHUNK <= limit;
      p := AllocPages(BinPages(bin), bytes);
      if p.None? {
        PlacedIs(before0, maps, fits, BinPages(bin), Large(BinPages(bin)), st, None);
        PlacedIs(before0, maps, fits, BinPages(bin), Small(bin), st, None);
        return;
      }
      DeniedIs(stuck, proper, false, refusals == old(refusals), before0, st);
      ghost var middle := st;
      PagesParts(old(st), middle, p.value, BinPages(bin), bytes);
      RunPlace(this, p.value);
      var c := ChunkOf(p.value);
      ObjectsHave(ring, c);
      ghost var objects := Objects(ring) + Objects(cachedChunks);
      assert c as object in objects && c.info as object in objects;
      CarveRun(c, p.value.off / PAGE, bin, data);
      CarvedFirst(old(st), middle, st, p.value, bin, bytes, data);
      Shaped(this);
      CarvedSmall(old(st), middle, st, p.value, bin, bytes, data);
      PinSmall(this, old(st), p.value, bin, data);
      CarvedRuns(middle, Loc(p.value.chunk, p.value.off / 4096), bin, data);
      PlacedCarved(before0, maps, fits, BinPages(bin), bin, middle, st, p.value);
      DeniedIs(stuck, proper, false, refusals == old(refusals), before0, st);
    }

    /** zend_mm_alloc_small: the head of the free list, else the first element of a new run. The block is charged first,
        and stays charged if there are no pages for it. */
    method AllocSmall(bin: Bin, ghost data: seq<bv8>) returns (p: Option<Ptr>)
      requires Shape() && RealOk() && SizeOk() && Ready(BinPages(bin)) && |data| == BinSize(bin)
      modifies `freeSlot, `ring, `cachedChunks, `chunksCount, `peakChunksCount, `cachedChunksCount, `realSize,
               `refusals, `asked, `relief,
               `lastDeleteBoundary, `lastDeleteCount, `size, `drift, `st, Objects(ring), Objects(cachedChunks)
      ensures Shape() && RealOk() && SizeOk() && (old(Pinned()) ==> Pinned())
      ensures if p.Some? then SmallAdded(old(st), st, p.value, bin, data) else Trimmed(old(st), st)
      ensures |old(freeSlot)| == BINS && (old(freeSlot)[bin] != [] || old(Roomy(BinPages(bin)))) ==>
        p.Some? && |ring| == old(|ring|) && realSize == old(realSize) && cachedChunks == old(cachedChunks)
        && refusals == old(refusals)
      ensures drift == old(drift) + if p.Some? then 0 else BinSize(bin)
      ensures realSize <= old(realSize) + CHUNK && (overflow || realSize <= old(realSize) || realSize <= limit)
      ensures |old(freeSlot)| == BINS && (old(freeSlot)[bin] != [] ==> p == Some(old(freeSlot)[bin][0]))
      ensures p.None? ==>
        (old(!Roomy(BinPages(bin))) && old(cachedChunks) == [] &&
         (refusals > old(refusals) || (!overflow && old(realSize) + CHUNK > limit)))
      ensures |old(freeSlot)| == BINS &&
        Grew(old(freeSlot)[bin] != [] || old(Roomy(BinPages(bin))), old(cachedChunks) != [],
          old(realSize), realSize, limit, relief - old(relief), p.Some?)
      ensures p.Some? && old(freeSlot)[bin] == [] ==> |freeSlot| == BINS && FirstOfRun(p.value, freeSlot[bin], bin)
      ensures old(|ring|) == 1 ==> relief == old(relief)
      ensures p.None? ==> realSize <= old(realSize)
      ensures Denied(old(freeSlot)[bin] == [] && old(!Roomy(BinPages(bin)) && Cornered()), old(Proper()),
        p.None?, refusals == old(refusals), old(st), st)
      ensures old(Busy(st)) ==> Busy(st)
      ensures old(Busy(st)) && p.None? && refusals == old(refusals) ==> Cornered()
      ensures old(freeSlot)[bin] == [] && old(Roomy(BinPages(bin))) ==>
        p.Some? && st.runs == old(st).runs[Loc(p.value.chunk, p.value.off / 4096) := Small(bin)]
      ensures |old(freeSlot)| == BINS && Served(old(freeSlot)[bin] != [], old(st), old(Maps(ring)),
        old(realSize) + CHUNK <= limit, BinPages(bin), Small(bin), st, p)
      ensures refusals >= old(refusals)
      ensures forall o :: o in Objects(ring) + Objects(cachedChunks) ==>
        o in old(Objects(ring) + Objects(cachedChunks)) || fresh(o)
    {
      hide *;
      GrewCases();
      ghost var before, maps, fits := st, Maps(ring), realSize + CHUNK <= limit;
      ghost var stuck, proper := !Roomy(BinPages(bin)) && Cornered(), Proper();
      CorneredIs(this);
      Constants();
      PinIs(this);
      SizeIs(this);
      Shaped(this);
      ChargeSmall(this, bin, data);
      size := size + BinSize(bin);
      Reformed(this);
      CorneredIs(this);
      if freeSlot[bin] != [] {
        var q := PopSlot(bin, data);
        PoppedSmall(before, st, bin, data);
        PinSmall(this, before, q, bin, data);
        PoppedRuns(before, bin, data);
        DeniedIs(false, proper, false, true, before, st);
        p := Some(q);
        ServedIs(true, before, maps, fits, BinPages(bin), Small(bin), st, p);
      } else {
        p := AllocSmallSlow(bin, data);
        ServedIs(false, before, maps, fits, BinPages(bin), Small(bin), st, p);
      }
      if p.Some? {
        SmallParts(before, st, p.value, bin, data);
      } else {
        Shaped(this);
        drift := drift + BinSize(bin);
        Reformed(this);
        TrimmedParts(before, st);
      }
      SizeIs(this);
    }

    // zend_mm_alloc_large: whole pages, charged when they are there.
    method AllocLarge(length: nat, ghost data: seq<bv8>) returns (p: Option<Ptr>)
      requires Shape() && RealOk() && SizeOk() && MAX_SMALL < length <= MAX_LARGE && |data| == Aligned(length)
      requires Ready(PageCount(length))
      modifies `freeSlot, `ring, `cachedChunks, `chunksCount, `peakChunksCount, `cachedChunksCount, `realSize,
               `refusals, `asked, `relief,
               `lastDeleteBoundary, `lastDeleteCount, `size, `st, Objects(ring), Objects(cachedChunks)
      ensures Shape() && RealOk() && SizeOk() && (old(Pinned()) ==> Pinned())
      ensures if p.Some? then PagesAdded(old(st), st, p.value, PageCount(length), data) else Trimmed(old(st), st)
      ensures old(Roomy(PageCount(length))) ==>
        p.Some? && |ring| == old(|ring|) && realSize == old(realSize) && cachedChunks == old(cachedChunks)
        && refusals == old(refusals)
      ensures realSize <= old(realSize) + CHUNK && (overflow || realSize <= old(realSize) || realSize <= limit)
      ensures p.None? ==>
        (old(!Roomy(PageCount(length))) && old(cachedChunks) == [] &&
         (refusals > old(refusals) || (!overflow && old(realSize) + CHUNK > limit)))
      ensures Grew(old(Roomy(PageCount(length))), old(cachedChunks) != [], old(realSize), realSize,
        limit, relief - old(relief), p.Some?)
      ensures p.None? ==> realSize <= old(realSize)
      ensures Denied(old(!Roomy(PageCount(length)) && Cornered()), old(Proper()), p.None?,
        refusals == old(refusals), old(st), st)
      ensures old(Busy(st)) ==> Busy(st)
      ensures old(Busy(st)) && p.None? && refusals == old(refusals) ==> Cornered()
      ensures old(Roomy(PageCount(length))) ==>
        p.Some? && st.runs == old(st).runs[Loc(p.value.chunk, p.value.off / 4096) := Large(PageCount(length))]
      ensures RunPlaced(old(st), old(Maps(ring)), old(realSize) + CHUNK <= limit, PageCount(length),
        Large(PageCount(length)), st, p)
      ensures refusals >= old(refusals)
      ensures forall o :: o in Objects(ring) + Objects(cachedChunks) ==>
        o in old(Objects(ring) + Objects(cachedChunks)) || fresh(o)
    {
      hide *;
      ghost var before := st;
      SizeIs(this);
      Shaped(this);
      PinIs(this);
      AlignedFacts(length);
      AlignedIs(length);
      var count := PageCount(length);
      p := AllocPages(count, data);
      if p.Some? {
        LargeParts(before, st, p.value, count, data);
        SizedPut(size, before.live, drift, p.value, Block(LargeBlock, data));
        Shaped(this);
        size := size + count * PAGE;
        Reformed(this);
      } else {
        TrimmedParts(before, st);
      }
      SizeIs(this);
    }

    // Whether a huge block of this length may be mapped, after a collection if need be.
    method RoomForHuge(length: nat) returns (room: bool)
      requires Shape() && RealOk() && Pinned()
      modifies `freeSlot, `ring, `cachedChunks, `chunksCount, `cachedChunksCount, `realSize,
               `lastDeleteBoundary, `lastDeleteCount, `st, Objects(ring)
      ensures Shape() && RealOk() && Pinned() && Trimmed(old(st), st)
      ensures MaybeCollected(old(st), st)
      ensures if old(realSize) + length <= limit then st == old(st) else Garbage(st) == {} && Busy(st)
      ensures realSize <= old(realSize) && (room && !overflow ==> realSize + length <= limit)
      ensures refusals == old(refusals) && relief == old(relief)
      ensures !room ==> !overflow && old(realSize) + length > limit
      ensures old(Busy(st)) && !overflow ==> (room <==> realSize + length <= limit)
      ensures old(|ring|) == 1 ==> ring == old(ring) && cachedChunks == old(cachedChunks) && realSize == old(realSize)
      ensures Objects(ring) <= old(Objects(ring))
      ensures Objects(ring) + Objects(cachedChunks) <= old(Objects(ring) + Objects(cachedChunks))
    {
      hide *;
      TrimmedSame(this);
      Shaped(this);
      MaybeSame(st);
      room := true;
      if realSize + length > limit {
        ghost var before, charged := st, realSize;
        var collected := TryGc();
        if collected == 0 && Busy(before) {
          MaybeNothing(before, st);
          LostAre(before, st);
        }
        if !(collected > 0 && realSize + length <= limit) {
          room := overflow;
        }
      }
    }

    // zend_mm_add_huge_block and the charges: the region of a huge block is entered in the list.
    method ListHuge(node: Ptr, length: nat, ghost data: seq<bv8>) returns (p: Ptr)
      requires Shape() && RealOk() && 0 < length && length % 4096 == 0 && |data| == length
      requires node in st.slots && st.slots[node].bin == NODE_BIN && node in st.live && !IsNode(st, node)
      modifies `hugeList, `realSize, `size, `st
      ensures Shape() && RealOk() && realSize == old(realSize) + length && size == old(size) + length
      ensures Busy(old(st)) ==> Busy(st)
      ensures st == AddHuge(old(st), Huge(node, p, length), data) && p !in old(st).live && p !in old(st).slots
    {
      hide *;
      Constants();
      UnitsPositive(length);
      RealIs(this);
      var start := MapSpace(Units(length));
      p := Ptr(start, 0);
      Listed(this, node, p, length, data);
      AddedHugeParts(st, Huge(node, p, length), data);
      BusySame(st, AddHuge(st, Huge(node, p, length), data));
      hugeList := [Huge(node, p, length)] + hugeList;
      st := AddHuge(st, Huge(node, p, length), data);
      realSize := realSize + length;
      size := size + length;
      Reformed(this);
      RealIs(this);
    }

    // The main chunk is the only one, and one large block fills it.
    ghost predicate MainFull()
      reads `ring, `cachedChunks, `st, `pin
    {
      |ring| == 1 && cachedChunks == [] && Fills(st, pin)
    }

    // What decides how the entry of a huge block is allocated, and the memory charged before that.
    ghost function Now(): Moment
      reads `realSize, `st
    {
      Moment(realSize, st)
    }

    // Whether a huge block may be mapped: by the limit and by the operating system, with a collection where that helps.
    method GrantHuge(length: nat) returns (granted: bool)
      requires Shape() && RealOk() && Pinned()
      modifies `freeSlot, `ring, `cachedChunks, `chunksCount, `cachedChunksCount, `realSize,
               `lastDeleteBoundary, `lastDeleteCount, `refusals, `asked, `st, Objects(ring)
      ensures Shape() && RealOk() && Pinned() && Trimmed(old(st), st) && realSize <= old(realSize)
      ensures MaybeCollected(old(st), st) && realSize == old(realSize) - ChunksLost(old(st), st) * CHUNK
      ensures old(realSize) + length > limit ==> Garbage(st) == {}
      ensures refusals >= old(refusals)
      ensures granted ==> refusals == old(refusals) && (overflow || realSize + length <= limit)
      ensures old(Busy(st)) && !granted ==> refusals > old(refusals) || (!overflow && realSize + length > limit)
      ensures !granted ==> refusals > old(refusals) || (!overflow && old(realSize) + length > limit)
      ensures old(|ring|) == 1 ==> ring == old(ring) && cachedChunks == old(cachedChunks) && realSize == old(realSize)
      ensures Objects(ring) <= old(Objects(ring)) && drift == old(drift) && unlisted == old(unlisted)
      ensures relief == old(relief) && size == old(size) && pin == old(pin)
      ensures Objects(ring) + Objects(cachedChunks) <= old(Objects(ring) + Objects(cachedChunks))
    {
      hide *;
      NotAmong(this, ring);
      RealByChunks(this);
      granted := RoomForHuge(length);
      RealByChunks(this);
      LostAre(old(st), st);
      if !granted { return; }
      ghost var middle := st;
      NotAmong(this, ring);
      granted := AskTwice();
      TrimmedOn(old(st), middle, st);
      MaybeOn(old(st), middle, st);
      if Garbage(middle) == {} && Busy(middle) { MaybeNothing(middle, st); }
      RealByChunks(this);
      LostAre(old(st), st);
    }

    // The region of a huge block is entered in the list by a slot just allocated.
    method ListEntry(node: Ptr, length: nat, ghost before: State, ghost held: seq<bv8>, ghost data: seq<bv8>)
      returns (q: Ptr)
      requires Shape() && RealOk() && SizeOk() && Pinned() && Busy(st) && 0 < length && length % 4096 == 0
      requires |data| == length && Inv(before) && Trimmed(before, before) && Pins(before, pin)
      requires SmallAdded(before, st, node, NODE_BIN, held) && (overflow || realSize + length <= limit + CHUNK)
      modifies `hugeList, `realSize, `size, `st
      ensures Valid() && HugeEntered(before, st, q, data) && realSize == old(realSize) + length
    {
      hide *;
      ghost var middle := st;
      SizeIs(this);
      NodeFits(this, before, before, node, held);
      q := ListHuge(node, length, data);
      HugeIs(before, before, middle, st, node, q, held, data);
      SizedPut(size - length, middle.live, drift, q, Block(HugeBlock, data));
      PinHuge(this, before, middle, node, held, q, data);
      ValidIs(this);
    }

    // zend_mm_add_huge_block: the entry of a region just granted is allocated, then the region is entered and charged.
    method EnterHuge(length: nat, ghost data: seq<bv8>) returns (p: Option<Ptr>)
      requires Valid() && MAX_LARGE < length && |data| == Aligned(length)
      requires overflow || realSize + Aligned(length) <= limit
      modifies `freeSlot, `ring, `cachedChunks, `chunksCount, `peakChunksCount, `cachedChunksCount, `realSize,
               `refusals, `asked, `relief, `lastDeleteBoundary, `lastDeleteCount, `size, `drift, `unlisted,
               `hugeList, `st,
               Objects(ring), Objects(cachedChunks)
      ensures Valid()
      ensures if p.Some? then HugeEntered(old(st), st, p.value, data) else SameLive(old(st), st)
      ensures p.Some? ==> realSize - Aligned(length) <= old(realSize) + CHUNK
      ensures p.Some? && !overflow ==>
        realSize + relief - old(relief) == old(realSize) + Aligned(length) + if old(Now()).Starved() then CHUNK else 0
      ensures p.None? ==> realSize <= old(realSize)
      ensures p.None? ==> refusals > old(refusals)
      ensures relief >= old(relief)
      ensures drift == old(drift) + if p.None? then BinSize(NODE_BIN) else 0
      ensures unlisted == old(unlisted) + if p.None? then 1 else 0
      ensures old(|ring|) == 1 ==> relief == old(relief)
      ensures refusals >= old(refusals)
      ensures forall o :: o in Objects(ring) + Objects(cachedChunks) ==>
        o in old(Objects(ring) + Objects(cachedChunks)) || fresh(o)
    {
      hide *;
      ghost var before, held := st, Unset(BinSize(NODE_BIN));
      AlignedFacts(length);
      GrewCases();
      Constants();
      StarvedIs(this);
      ValidParts(this);
      ReadyIs(this, BinPages(NODE_BIN));
      Shaped(this);
      TrimmedSame(this);
      PinIs(this);
      var node := AllocSmall(NODE_BIN, held);
      SizeIs(this);
      PinIs(this);
      if node.None? {
        TrimmedParts(before, st);
        SameLiveIs(before, st);
        Shaped(this);
        unlisted := unlisted + 1;
        Reformed(this);
        SizeIs(this);
        PinIs(this);
        ValidIs(this);
        return None;
      }
      var q := ListEntry(node.value, Aligned(length), before, held, data);
      p := Some(q);
    }

    /** zend_mm_alloc_huge: a region of its own, entered in the list by a small block. The limit is checked before that
        block is allocated and the region charged after it. So the memory charged ends up above the limit exactly if,
        when the limit has been checked and the region granted, no slot for the block is listed, no chunk cached and no
        page free, and another chunk, less what collections give back when the operating system refuses it at first,
        does not fit under the limit. Where a granted region lies is settled when its entry is made. */
    method AllocHuge(length: nat, ghost data: seq<bv8>) returns (p: Option<Ptr>, ghost at: Option<Moment>)
      requires Valid() && MAX_LARGE < length && |data| == Aligned(length)
      modifies `freeSlot, `ring, `cachedChunks, `chunksCount, `peakChunksCount, `cachedChunksCount, `realSize,
               `refusals, `asked, `relief, `lastDeleteBoundary, `lastDeleteCount, `size, `drift, `unlisted,
               `hugeList, `st,
               Objects(ring), Objects(cachedChunks)
      ensures Valid()
      ensures if p.Some? then HugeEntered(old(st), st, p.value, data) else SameLive(old(st), st)
      ensures overflow || realSize <= old(realSize) || realSize <= limit + CHUNK
      ensures p.Some? ==> at.Some?
      ensures at.Some? ==> MaybeCollected(old(st), at.value.state)
      ensures at.Some? ==> at.value.realSize == old(realSize) - ChunksLost(old(st), at.value.state) * CHUNK
      ensures at.Some? && old(realSize) + Aligned(length) > limit ==> Garbage(at.value.state) == {}
      ensures relief >= old(relief)
      ensures at.Some? && !overflow ==> at.value.realSize + Aligned(length) <= limit
      ensures p.Some? && !overflow ==>
        realSize + relief - old(relief) ==
          at.value.realSize + Aligned(length) + if at.value.Starved() then CHUNK else 0
      ensures p.Some? && !overflow ==>
        (realSize > limit <==>
          (at.value.Starved() && at.value.realSize + Aligned(length) + CHUNK - (relief - old(relief)) > limit))
      ensures at.Some? && Garbage(old(st)) == {} ==> at.value == old(Now())
      ensures refusals == old(refusals) ==> (p.Some? <==> at.Some?)
      ensures refusals == old(refusals) && p.None? ==> !overflow && realSize + Aligned(length) > limit
      ensures Garbage(old(st)) == {} && refusals == old(refusals) ==>
        (p.None? <==> !overflow && old(realSize) + Aligned(length) > limit)
      ensures p.None? ==> realSize <= old(realSize)
      ensures p.Some? ==> realSize <= old(realSize) + Aligned(length) + CHUNK
      ensures at.Some? && old(MainFull()) ==> at.value.Starved() && at.value.realSize == old(realSize)
      ensures p.None? ==> refusals > old(refusals) || (!overflow && old(realSize) + Aligned(length) > limit)
      ensures p.Some? ==> drift == old(drift) && unlisted == old(unlisted)
      ensures p.None? ==> drift == old(drift) + (if at.Some? then BinSize(NODE_BIN) else 0)
      ensures p.None? ==> unlisted == old(unlisted) + (if at.Some? then 1 else 0)
      ensures old(|ring|) == 1 ==> relief == old(relief)
      ensures refusals >= old(refusals)
      ensures forall o :: o in Objects(ring) + Objects(cachedChunks) ==>
        o in old(Objects(ring) + Objects(cachedChunks)) || fresh(o)
    {
      hide *;
      ghost var before := st;
      AlignedFacts(length);
      ValidParts(this);
      MainFullIs(this);
      var granted := GrantHuge(Aligned(length));
      TrimmedValid(this, before);
      MaybeBusy(before, st);
      SameLiveIs(before, st);
      at := None;
      if Garbage(before) == {} {
        MaybeNothing(before, st);
        LostAre(before, st);
      }
      if !granted { return None, None; }
      ghost var middle := st;
      MainFullIs(this);
      FillsStill(before, st, pin);
      if MainFull() { FullStarves(this); }
      StarvedIs(this);
      at := Some(Now());
      p := EnterHuge(length, data);
      if p.Some? { EnteredSince(before, middle, st, p.value, data); } else { SameLiveOn(before, middle, st); }
    }

    // zend_mm_alloc_heap for the sizes that live in chunks.
    method AllocInChunk(length: nat) returns (p: Option<Ptr>)
      requires Shape() && RealOk() && SizeOk() && length <= MAX_LARGE && Ready(RunPages(length))
      modifies `freeSlot, `ring, `cachedChunks, `chunksCount, `peakChunksCount, `cachedChunksCount, `realSize,
               `refusals, `asked, `relief,
               `lastDeleteBoundary, `lastDeleteCount, `size, `drift, `st, Objects(ring), Objects(cachedChunks)
      ensures Shape() && RealOk() && SizeOk() && (old(Pinned()) ==> Pinned())
      ensures if p.Some? then BlockAdded(old(st), st, p.value, BlockSize(length)) else SameLive(old(st), st)
      ensures old(Roomy(RunPages(length)) || OnList(length)) ==>
        p.Some? && |ring| == old(|ring|) && realSize == old(realSize) && cachedChunks == old(cachedChunks)
        && refusals == old(refusals)
      ensures realSize <= old(realSize) + CHUNK && (overflow || realSize <= old(realSize) || realSize <= limit)
      ensures p.None? ==>
        (old(!FindsRun(length) && !OnList(length)) && old(cachedChunks) == [] &&
         (refusals > old(refusals) || (!overflow && old(realSize) + CHUNK > limit)))
      ensures FromList(old(freeSlot), length, p)
      ensures drift == old(drift) + if p.None? && length <= MAX_SMALL then BlockSize(length) else 0
      ensures p.None? ==> realSize <= old(realSize)
      ensures Denied(old(Stuck(length)), old(Proper()), p.None?, refusals == old(refusals), old(st), st)
      ensures old(Busy(st)) ==> Busy(st)
      ensures old(Busy(st)) && p.None? && refusals == old(refusals) ==> Cornered()
      ensures old(FindsRun(length)) ==> p.Some? && RunAt(old(st), st, p.value, RunFor(length))
      ensures Served(old(OnList(length)), old(st), old(Maps(ring)), old(realSize) + CHUNK <= limit, RunPages(length),
        RunFor(length), st, p)
      ensures refusals >= old(refusals)
      ensures forall o :: o in Objects(ring) + Objects(cachedChunks) ==>
        o in old(Objects(ring) + Objects(cachedChunks)) || fresh(o)
    {
      hide *;
      ghost var before, data := st, Unset(BlockSize(length));
      Shaped(this);
      SizesAre(length);
      StuckIs(this, length);
      ghost var maps, fits := Maps(ring), realSize + CHUNK <= limit;
      if length <= MAX_SMALL {
        p := AllocSmall(SmallBin(length), data);
        if p.Some? { AddedSmall(before, st, p.value, SmallBin(length), data); } else { TrimmedParts(before, st); }
      } else {
        p := AllocLarge(length, data);
        ServedIs(false, before, maps, fits, RunPages(length), RunFor(length), st, p);
        if p.Some? { AddedLarge(before, st, p.value, PageCount(length), data); } else { TrimmedParts(before, st); }
      }
      if p.None? { SameLiveIs(before, st); }
    }

    /** zend_mm_alloc_heap: the client gains a block of the size that its request is rounded up to, and loses none. */
    method Alloc(length: nat) returns (p: Option<Ptr>)
      requires Valid()
      modifies `freeSlot, `ring, `cachedChunks, `chunksCount, `peakChunksCount, `cachedChunksCount, `realSize,
               `refusals, `asked, `relief, `lastDeleteBoundary, `lastDeleteCount, `size, `drift, `unlisted,
               `hugeList, `st,
               Objects(ring), Objects(cachedChunks)
      ensures Valid()
      ensures if p.Some? then Handed(old(st), st, p.value, BlockSize(length)) else Blocks(st) == old(Blocks(st))
      ensures overflow || realSize <= old(realSize) || realSize <= limit + CHUNK
      ensures p.None? ==> refusals > old(refusals) || (!overflow && old(realSize) + Need(length) > limit)
      ensures p.None? && length <= MAX_LARGE ==> old(!FindsRun(length) && !OnList(length)) && old(cachedChunks) == []
      ensures FromList(old(freeSlot), length, p)
      ensures Settled(p.Some?, length, old(drift), drift, old(unlisted), unlisted)
      ensures p.Some? && MAX_LARGE < length && !overflow && old(MainFull()) ==>
        realSize == old(realSize) + Aligned(length) + CHUNK
      ensures length <= MAX_LARGE ==> (p.None? && refusals == old(refusals) <==> old(Stuck(length)))
      ensures length <= MAX_LARGE && old(Stuck(length)) ==>
        MaybeCollected(old(st), st) && Garbage(st) == {} && Cornered()
      ensures MAX_LARGE < length && refusals == old(refusals) ==> drift == old(drift)
      ensures MAX_LARGE < length && Garbage(old(st)) == {} && refusals == old(refusals) ==>
        (p.None? <==> !overflow && old(realSize) + Aligned(length) > limit)
      ensures length <= MAX_LARGE && old(FindsRun(length)) ==> p.Some? && RunAt(old(st), st, p.value, RunFor(length))
      ensures length <= MAX_LARGE && old(Roomy(RunPages(length)) || OnList(length)) ==>
        p.Some? && |ring| == old(|ring|) && realSize == old(realSize) && cachedChunks == old(cachedChunks)
        && refusals == old(refusals)
      ensures p.Some? ==> (p.value.off == 0 <==> MAX_LARGE < length)
      ensures realSize <= old(realSize) + if p.Some? then Cost(length) else 0
      ensures length <= MAX_LARGE ==> Served(old(OnList(length)), old(st), old(Maps(ring)),
        old(realSize) + CHUNK <= limit, RunPages(length), RunFor(length), st, p)
      ensures refusals >= old(refusals)
      ensures forall o :: o in Objects(ring) + Objects(cachedChunks) ==>
        o in old(Objects(ring) + Objects(cachedChunks)) || fresh(o)
    {
      hide *;
      SettledCases();
      ghost var before := st;
      ValidParts(this);
      Shaped(this);
      Constants();
      NeedIs(length);
      CostIs(length);
      StuckIs(this, length);
      if length <= MAX_LARGE {
        ReadyIs(this, RunPages(length));
        ghost var stuck, proper := Stuck(length), Proper();
        p := AllocInChunk(length);
        DeniedIs(stuck, proper, p.None?, refusals == old(refusals), before, st);
        ValidAgain(this);
        if p.Some? {
          HandedInChunk(before, st, p.value, BlockSize(length));
          PlacedInChunk(this, before, p.value, BlockSize(length));
        } else {
          SameBlocks(before, st);
        }
      } else {
        SizesAre(length);
        ghost var data := Unset(BlockSize(length));
        MainFullIs(this);
        ghost var at;
        p, at := AllocHuge(length, data);
        if p.Some? {
          HandedHuge(before, st, p.value, data);
          ValidParts(this);
          PlacedApart(this, before, p.value, data);
        } else {
          SameBlocks(before, st);
        }
      }
    }

    // ---- giving back ----

    // The page entry of a live block in a chunk tells its class or its number of pages.
    method EntryAt(p: Ptr) returns (c: Chunk, page: nat, info: PageInfo)
      requires Shape() && p in st.live && st.live[p].kind != HugeBlock
      ensures Shape() && c in ring && c.number == p.chunk && page == p.off / 4096 && EntryFits(st, p, page, info)
    {
      hide *;
      Constants();
      Shaped(this);
      ShapeParts(st, ring, cachedChunks, freeSlot, hugeList);
      InItsRun(st, p);
      c := ChunkOf(p);
      Shaped(this);
      ShapeParts(st, ring, cachedChunks, freeSlot, hugeList);
      page := p.off / PAGE;
      EntryOfBlock(st, c, p, page);
      info := c.info[page];
    }

    // zend_mm_free_small
    method FreeSmall(p: Ptr, b: Bin)
      requires Shape() && p in st.slots && st.slots[p].bin == b && p in st.live && !IsNode(st, p)
      modifies `freeSlot, `size, `st
      ensures Busy(old(st)) ==> Busy(st)
      ensures Shape() && size == old(size) - BinSize(b) && |old(st).free| == BINS && st == Push(old(st), p)
    {
      hide *;
      Shaped(this);
      NotNode(st, p);
      size := size - BinSize(b);
      Reformed(this);
      ghost var before := st;
      PushSlot(p, b);
      PushParts(before, p);
      BusySame(before, st);
    }

    // zend_mm_free_small on a client's block of a known class
    method FreeSlotOf(p: Ptr, b: Bin)
      requires Valid() && p in Blocks(st) && p != pin
      requires Blocks(st)[p].kind == SmallBlock && |Blocks(st)[p].data| == BinSize(b)
      modifies `freeSlot, `size, `st
      ensures Valid() && Blocks(st) == old(Blocks(st)) - {p}
    {
      hide *;
      ghost var before := st;
      ValidParts(this);
      Shaped(this);
      BlocksAre(st, p);
      SlotOfClass(st, p, b);
      SizedWithout(size, st.live, drift, p);
      FreeSmall(p, b);
      PushParts(before, p);
      PinFreed(this, before, p);
      FreedIs(before, st, p);
      LostInChunk(before, st, p);
      ValidIs(this);
    }

    // zend_mm_free_pages: the run is given back; a chunk left without runs is deleted. The main chunk is never left so.
    method FreePages(c: Chunk, page: nat, count: nat)
      requires Shape() && RealOk() && Pinned() && c in ring
      requires Loc(c.number, page) in st.runs && st.runs[Loc(c.number, page)] == Large(count)
      requires RunPtr(Loc(c.number, page)) != pin
      modifies `ring, `cachedChunks, `chunksCount, `cachedChunksCount, `realSize, `lastDeleteBoundary, `lastDeleteCount,
               `st, c, c.freeMap, c.info
      ensures Shape() && RealOk() && Pinned()
      ensures st == DropLarge(old(st), Loc(c.number, page)).(ring := st.ring, cached := st.cached)
      ensures realSize <= old(realSize) && (Busy(old(st)) ==> Busy(st))
      ensures c in ring <==> HoldsRun(st.runs, c.number)
      ensures if HoldsRun(st.runs, c.number)
        then ring == old(ring) && cachedChunks == old(cachedChunks) && realSize == old(realSize)
        else Retired(old(cachedChunks), cachedChunks, c) &&
             exists i :: 0 < i < |old(ring)| && old(ring)[i] == c && ring == Without(old(ring), i)
      ensures Objects(ring) + Objects(cachedChunks) <= old(Objects(ring) + Objects(cachedChunks))
    {
      hide *;
      ghost var before, ring0 := st, ring;
      Shaped(this);
      NumbersAre(this);
      PinIs(this);
      ReleaseRun(c, page, count);
      DroppedParts(before, Loc(c.number, page));
      assert st == st.(ring := st.ring, cached := st.cached);
      PinDropped(this, before, Loc(c.number, page));
      EmptiedByFree(this, c);
      if c.freePages == PAGES - 1 {
        var i :| 0 <= i < |ring| && ring[i] == c;
        MainNotEmpty(this, i);
        ghost var dropped := st;
        Shaped(this);
        DeleteChunk(i);
        Shaped(this);
        PinStays(this, dropped);
        LeftRing(before, this, ring0, i, Loc(c.number, page));
      } else {
        BusyLess(before, st, Loc(c.number, page));
      }
    }


    // zend_mm_free_heap on a block in a chunk
    method FreeInChunk(p: Ptr)
      requires Valid() && p in st.live && st.live[p].kind != HugeBlock && !IsNode(st, p) && p != pin
      modifies `freeSlot, `size, `ring, `cachedChunks, `chunksCount, `cachedChunksCount, `realSize,
               `lastDeleteBoundary, `lastDeleteCount, `st, Objects(ring)
      ensures Valid() && Freed(old(st), st, p) && realSize <= old(realSize)
      ensures old(st).live[p].kind == SmallBlock ==>
        st.runs == old(st).runs && ring == old(ring) && cachedChunks == old(cachedChunks) && realSize == old(realSize)
      ensures Objects(ring) + Objects(cachedChunks) <= old(Objects(ring) + Objects(cachedChunks))
    {
      hide *;
      ghost var before := st;
      ValidParts(this);
      var c, page, info := EntryAt(p);
      EntryCases(st, p, page, info);
      SizedWithout(size, st.live, drift, p);
      if info.Lrun? {
        ObjectsHave(ring, c);
        Shaped(this);
        size := size - info.count * PAGE;
        Reformed(this);
        FreePages(c, page, info.count);
        DroppedParts(before, Loc(c.number, page));
      } else {
        FreeSmall(p, info.bin);
        PushParts(before, p);
        PinFreed(this, before, p);
      }
      FreedIs(before, st, p);
      ValidIs(this);
    }

    // The entry of a huge block in the list.
    method HugeIndex(p: Ptr) returns (i: nat)
      requires Shape() && p in st.live && st.live[p].kind == HugeBlock
      ensures Shape() && i < |hugeList| && hugeList == st.huge && hugeList[i].ptr == p
        && hugeList[i].size == |st.live[p].data|
    {
      hide *;
      Shaped(this);
      ghost var k := HugeEntry(st, p);
      i := 0;
      while hugeList[i].ptr != p
        invariant i <= k
        decreases k - i
      {
        i := i + 1;
      }
      HugeSizeIs(st, i);
    }

    // zend_mm_free_huge: the entry leaves the list, the small block that held it is freed, the region is unmapped.
    method FreeHuge(p: Ptr)
      requires Valid() && p in st.live && st.live[p].kind == HugeBlock
      modifies `freeSlot, `hugeList, `size, `realSize, `st
      ensures Valid() && HugeFreed(old(st), st, p) && realSize <= old(realSize)
    {
      hide *;
      ghost var before := st;
      ValidParts(this);
      RealIs(this);
      Constants();
      var i := HugeIndex(p);
      var node, length := hugeList[i].node, hugeList[i].size;
      HugeNode(this, i);
      SizedWithout(size, st.live, drift, p);
      SizedWithout(size - |st.live[p].data|, st.live - {p}, drift, node);
      HugeBytesWithout(hugeList, i);
      // zend_mm_del_huge_block
      Unlisted(this, i);
      hugeList := Without(hugeList, i);
      st := RemoveHuge(st, i);
      BusySame(before, st);
      Reformed(this);
      ghost var middle := st;
      var c, page, info := EntryAt(node);
      EntryCases(st, node, page, info);
      FreeSmall(node, info.bin);
      PushParts(middle, node);
      // zend_mm_chunk_free
      Shaped(this);
      realSize := realSize - length;
      size := size - length;
      Reformed(this);
      RealIs(this);
      HugeGone(before, middle, st, p, i);
      PinLeft(this, before, p, i);
      ValidIs(this);
    }

    /** zend_mm_free_heap: the client loses the block and nothing else; freeing the null pointer does nothing. */
    method Free(p: Ptr)
      requires Valid() && (p == NULL || p in Blocks(st)) && p != pin
      modifies `freeSlot, `size, `ring, `cachedChunks, `chunksCount, `cachedChunksCount, `realSize,
               `lastDeleteBoundary, `lastDeleteCount, `hugeList, `st, Objects(ring)
      ensures Valid() && Blocks(st) == old(Blocks(st)) - {p} && realSize <= old(realSize)
      ensures p != NULL ==> p in old(Blocks(st))
      ensures p != NULL && old(Blocks(st))[p].kind == SmallBlock ==>
        st.runs == old(st).runs && ring == old(ring) && cachedChunks == old(cachedChunks) && realSize == old(realSize)
      ensures Objects(ring) + Objects(cachedChunks) <= old(Objects(ring) + Objects(cachedChunks))
    {
      hide *;
      ghost var before := st;
      ValidParts(this);
      Shaped(this);
      BlockPlace(this, p);
      BlocksAre(st, p);
      if p.off == 0 {
        if p != NULL {
          FreeHuge(p);
          LostHuge(before, st, p);
        }
      } else {
        FreeInChunk(p);
        LostInChunk(before, st, p);
      }
    }

    /** zend_mm_size: the size of a block. */
    method Size(p: Ptr) returns (n: nat)
      requires Valid() && p in Blocks(st)
      ensures Valid()
      ensures n == |Blocks(st)[p].data|
    {
      hide *;
      Constants();
      ValidParts(this);
      Shaped(this);
      BlockPlace(this, p);
      BlocksAre(st, p);
      if p.off == 0 {
        var i := HugeIndex(p);
        n := hugeList[i].size;
      } else {
        var c, page, info := EntryAt(p);
        EntryCases(st, p, page, info);
        n := if info.Lrun? then info.count * PAGE else BinSize(info.bin);
      }
      ValidAgain(this);
    }

    // ---- reallocation ----

    // memcpy of n bytes from block p to block q
    method CopyBytes(q: Ptr, p: Ptr, n: nat)
      requires Shape() && SizeOk() && p in st.live && q in st.live && n <= |st.live[p].data| && n <= |st.live[q].data|
      modifies `st
      ensures Shape() && SizeOk() && st == Write(old(st), q, Copied(old(st), q, p, n))
    {
      hide *;
      Overwritten(this, q, Copied(st, q, p, n));
      st := Write(st, q, Copied(st, q, p, n));
      Reformed(this);
      SizeIs(this);
    }

    // memcpy from one block of the client to another
    method CopyOver(q: Ptr, p: Ptr, n: nat)
      requires Valid() && p in Blocks(st) && q in Blocks(st) && p in st.live && q in st.live && p != q
      requires n <= |st.live[p].data| && n <= |st.live[q].data|
      modifies `st
      ensures Valid() && st == Write(old(st), q, Copied(old(st), q, p, n))
      ensures p in Blocks(st) && Blocks(st)[p] == old(Blocks(st))[p] && st.slots == old(st).slots
    {
      hide *;
      ghost var before := st;
      ValidParts(this);
      CopyBytes(q, p, n);
      PinWritten(this, before, q, p, n);
      WrittenBusy(before, q, Copied(before, q, p, n));
      StillThere(before, st, p, q, n);
      WriteSlots(before, q, Copied(before, q, p, n));
      ValidAgain(this);
    }

    // A client writes into its block.
    ghost method Store(p: Ptr, data: seq<bv8>)
      requires Valid() && p in Blocks(st) && |data| == |Blocks(st)[p].data|
      modifies `st
      ensures Valid() && p in old(st).live && |data| == |old(st).live[p].data| && st == Write(old(st), p, data)
    {
      hide *;
      ghost var before := st;
      ValidParts(this);
      Shaped(this);
      BlocksAre(st, p);
      Overwritten(this, p, data);
      st := Write(st, p, data);
      Reformed(this);
      SizeIs(this);
      PinStored(this, before, p, data);
      WrittenBusy(before, p, data);
      ValidAgain(this);
    }

    // zend_mm_realloc_slow: a new block, the bytes copied, the old block freed.
    method ReallocSlow(p: Ptr, length: nat, copySize: nat) returns (r: Option<Ptr>)
      requires Valid() && p in Blocks(st) && p != pin && copySize <= BlockSize(length)
        && copySize <= |Blocks(st)[p].data|
      modifies `freeSlot, `ring, `cachedChunks, `chunksCount, `peakChunksCount, `cachedChunksCount, `realSize,
               `refusals, `asked, `relief, `lastDeleteBoundary, `lastDeleteCount, `size, `drift, `unlisted,
               `hugeList, `st,
               Objects(ring), Objects(cachedChunks)
      ensures Valid()
      ensures if r.Some? then Reallocated(old(st), st, p, r.value, BlockSize(length), copySize)
        else Blocks(st) == old(Blocks(st))
      ensures overflow || realSize <= old(realSize) || realSize <= limit + CHUNK
      ensures r.None? ==> refusals > old(refusals) || (!overflow && old(realSize) + Need(length) > limit)
      ensures realSize <= old(realSize) + if r.Some? then Cost(length) else 0
      ensures Settled(r.Some?, length, old(drift), drift, old(unlisted), unlisted)
      ensures r.Some? ==> r.value != p
      ensures refusals >= old(refusals)
      ensures forall o :: o in Objects(ring) + Objects(cachedChunks) ==>
        o in old(Objects(ring) + Objects(cachedChunks)) || fresh(o)
    {
      hide *;
      CostIs(length);
      SettledCases();
      ghost var before := st;
      ValidParts(this);
      Shaped(this);
      r := Alloc(length);
      if r.None? { return; }
      ghost var s1 := st;
      BlockSizeEnough(length);
      BothLive(before, s1, p, r.value, BlockSize(length));
      CopyOver(r.value, p, copySize);
      ghost var s2 := st;
      forall o | o in Objects(ring) ensures o in old(Objects(ring) + Objects(cachedChunks)) || fresh(o) {
        assert o in Objects(ring) + Objects(cachedChunks);
      }
      Free(p);
      MovedBlock(before, s1, s2, st, p, r.value, BlockSize(length), copySize);
    }

    // The copying path of zend_mm_realloc_heap between two small classes.
    method ReallocSmall(p: Ptr, oldBin: Bin, length: nat, copySize: nat) returns (r: Option<Ptr>)
      requires Valid() && p in Blocks(st) && p != pin && copySize <= length <= MAX_SMALL
        && copySize <= |Blocks(st)[p].data|
      requires p in st.slots && st.slots[p].bin == oldBin
      modifies `freeSlot, `ring, `cachedChunks, `chunksCount, `peakChunksCount, `cachedChunksCount, `realSize,
               `refusals, `asked, `relief, `lastDeleteBoundary, `lastDeleteCount, `size, `drift, `unlisted,
               `hugeList, `st,
               Objects(ring), Objects(cachedChunks)
      ensures Valid()
      ensures if r.Some? then Reallocated(old(st), st, p, r.value, BlockSize(length), copySize)
        else Blocks(st) == old(Blocks(st))
      ensures overflow || realSize <= old(realSize) || realSize <= limit + CHUNK
      ensures r.None? ==> refusals > old(refusals) || (!overflow && old(realSize) + Need(length) > limit)
      ensures realSize <= old(realSize) + if r.Some? then Cost(length) else 0
      ensures Settled(r.Some?, length, old(drift), drift, old(unlisted), unlisted)
      ensures r.Some? ==> r.value != p
      ensures refusals >= old(refusals)
      ensures forall o :: o in Objects(ring) + Objects(cachedChunks) ==>
        o in old(Objects(ring) + Objects(cachedChunks)) || fresh(o)
    {
      hide *;
      CostIs(length);
      SettledSmall(length, drift, unlisted);
      NeedIs(length);
      ghost var before, data := st, Unset(BlockSize(length));
      Constants();
      ValidParts(this);
      Shaped(this);
      SizesAre(length);
      ReadyIs(this, BinPages(SmallBin(length)));
      BlocksAre(st, p);
      SlotKind(st, p);
      BlockIs(st, p);
      r := AllocSmall(SmallBin(length), data);
      ValidAgain(this);
      if r.None? {
        TrimmedParts(before, st);
        SameLiveIs(before, st);
        SameBlocks(before, st);
        return;
      }
      ghost var s1 := st;
      AddedSmall(before, s1, r.value, SmallBin(length), data);
      HandedInChunk(before, s1, r.value, BlockSize(length));
      BlockSizeEnough(length);
      BothLive(before, s1, p, r.value, BlockSize(length));
      BlocksAre(s1, p);
      CopyOver(r.value, p, copySize);
      ghost var s2 := st;
      BlocksAre(s2, p);
      FreeSlotOf(p, oldBin);
      MovedBlock(before, s1, s2, st, p, r.value, BlockSize(length), copySize);
    }

    // zend_mm_realloc_heap on a large run that stays large: kept, cut back, or grown over free pages, where it is.
    method ReallocLarge(p: Ptr, c: Chunk, page: nat, count: nat, length: nat) returns (done: bool)
      requires Valid() && p in Blocks(st) && MAX_SMALL < length <= MAX_LARGE
      requires c in ring && p == RunPtr(Loc(c.number, page)) && Loc(c.number, page) in st.runs
      requires st.runs[Loc(c.number, page)] == Large(count) && st.live[p].kind == LargeBlock
        && |Blocks(st)[p].data| == count * PAGE
      modifies `size, `st, c, c.freeMap, c.info
      ensures Valid() && |old(Blocks(st))[p].data| == count * PAGE
      ensures if done then Reallocated(old(st), st, p, p, BlockSize(length), Least(count * PAGE, length))
        else st == old(st)
      ensures done <==> PageCount(length) <= count || RoomBehind(old(st), Loc(c.number, page), PageCount(length))
    {
      hide *;
      ghost var before := st;
      ValidParts(this);
      Shaped(this);
      BlocksAre(st, p);
      AlignedFacts(length);
      AlignedIs(length);
      SizesAre(length);
      LeastIs(count * 4096, length);
      Constants();
      var newCount := PageCount(length);
      ghost var l, data := Loc(c.number, page), Fitted(st.live[p].data, newCount * 4096);
      SizedPut(size, st.live, drift, p, Block(LargeBlock, data));
      ResizedParts(before, l, newCount, data);
      ResizedBusy(before, l, newCount, data);
      FittedKeeps(st.live[p].data, newCount * 4096, count * 4096, length);
      if newCount == count {
        LeftAlone(before, p, Least(count * 4096, length));
        return true;
      } else if newCount < count {
        // free tail pages
        size := size - (count - newCount) * PAGE;
        Reformed(this);
        CutRun(c, page, newCount, data);
      } else {
        // try to allocate tail pages after this block
        var grown := GrowRun(c, page, newCount, data);
        if !grown {
          ValidIs(this);
          return false;
        }
        Shaped(this);
        size := size + (newCount - count) * PAGE;
        Reformed(this);
      }
      ResizedInPlace(before, st, p, Block(LargeBlock, data), Least(count * 4096, length));
      PinResized(this, before, p, Block(LargeBlock, data));
      ValidIs(this);
      done := true;
    }

    predicate IsExtensible(i: nat, length: nat)
      requires i < |hugeList|
      reads `ring, `cachedChunks, `hugeList
    {
      var start, units := hugeList[i].ptr.chunk, Units(length);
      && (forall c :: c in ring ==> !(start <= c.number < start + units))
      && (forall c :: c in cachedChunks ==> !(start <= c.number < start + units))
      && (forall j :: 0 <= j < |hugeList| && j != i ==>
        Apart(hugeList[j].ptr.chunk, Units(hugeList[j].size), start, units))
    }

    // A huge block gets another size where it is, and the charges follow.
    method ResizeHugeAt(i: nat, length: nat, ghost data: seq<bv8>)
      requires Valid() && i < |hugeList| && 0 < length && length % 4096 == 0 && |data| == length
      requires length <= hugeList[i].size || IsExtensible(i, length)
      requires length <= hugeList[i].size || overflow || realSize + length - hugeList[i].size <= limit
      modifies `hugeList, `realSize, `size, `st
      ensures Valid() && i < |old(st).huge| && st == ResizeHuge(old(st), i, length, data)
      ensures realSize == old(realSize) + length - old(hugeList)[i].size
    {
      hide *;
      ghost var before := st;
      ValidParts(this);
      RealIs(this);
      HugeNode(this, i);
      Constants();
      ghost var p := hugeList[i].ptr;
      HugeResizable(this, i, length, data);
      SizedPut(size, st.live, drift, p, Block(HugeBlock, data));
      HugeBytesResized(hugeList, i, length);
      ResizedNodes(st, i, length, data);
      BusySame(st, ResizeHuge(st, i, length, data));
      var oldLength := hugeList[i].size;
      realSize := realSize + (length - oldLength);
      size := size + (length - oldLength);
      hugeList := hugeList[i := hugeList[i].(size := length)];
      st := ResizeHuge(st, i, length, data);
      Reformed(this);
      RealIs(this);
      PinResizedHuge(this, before, i, length, data);
      ValidIs(this);
    }

    // A huge block takes another size where it is, and keeps its first bytes.
    method FitHuge(p: Ptr, i: nat, newSize: nat, ghost keep: nat)
      requires Valid() && p in Blocks(st) && i < |hugeList| && hugeList[i].ptr == p
      requires 0 < newSize && newSize % 4096 == 0
      requires newSize <= hugeList[i].size || IsExtensible(i, newSize)
      requires newSize <= hugeList[i].size || overflow || realSize + newSize - hugeList[i].size <= limit
      requires keep <= Least(hugeList[i].size, newSize)
      modifies `hugeList, `realSize, `size, `st
      ensures Valid() && Reallocated(old(st), st, p, p, newSize, keep)
      ensures realSize == old(realSize) + newSize - old(hugeList)[i].size
    {
      hide *;
      ghost var before, oldSize := st, hugeList[i].size;
      ValidParts(this);
      Shaped(this);
      BlocksAre(st, p);
      HugeNode(this, i);
      LeastIs(oldSize, newSize);
      LeastIs(oldSize, keep);
      ghost var data := Fitted(st.live[p].data, newSize);
      FittedKeeps(st.live[p].data, newSize, oldSize, keep);
      ResizedNodes(st, i, newSize, data);
      ResizeHugeAt(i, newSize, data);
      ResizedInPlace(before, st, p, Block(HugeBlock, data), keep);
    }

    /** zend_mm_realloc_huge: truncated or extended where it is if it stays huge and the operating system allows, else
        moved. */
    method ReallocHuge(p: Ptr, length: nat, copySize: nat) returns (r: Option<Ptr>)
      requires Valid() && p in Blocks(st) && p != pin && p.off == 0
      requires length <= MAX_LARGE ==> Least(|Blocks(st)[p].data|, copySize) <= BlockSize(length)
      modifies `freeSlot, `ring, `cachedChunks, `chunksCount, `peakChunksCount, `cachedChunksCount, `realSize,
               `refusals, `asked, `relief, `lastDeleteBoundary, `lastDeleteCount, `size, `drift, `unlisted,
               `hugeList, `st,
               Objects(ring), Objects(cachedChunks)
      ensures Valid()
      ensures if r.Some? then
        p in old(Blocks(st)) && Reallocated(old(st), st, p, r.value, BlockSize(length),
          Carried(|old(Blocks(st))[p].data|, copySize, BlockSize(length)))
        else Blocks(st) == old(Blocks(st))
      ensures p in old(Blocks(st))
      ensures MAX_LARGE < length && Aligned(length) <= |old(Blocks(st))[p].data| ==> r == Some(p)
      ensures r == Some(p) ==> MAX_LARGE < length && Reallocated(old(st), st, p, p, BlockSize(length),
        Least(|old(Blocks(st))[p].data|, BlockSize(length)))
      ensures overflow || realSize <= old(realSize) || realSize <= limit + CHUNK
      ensures r.None? ==> refusals > old(refusals) || (!overflow && old(realSize) + Need(length) > limit)
      ensures realSize <= old(realSize) + if r.Some? then Cost(length) else 0
      ensures Settled(r.Some?, length, old(drift), drift, old(unlisted), unlisted)
      ensures refusals >= old(refusals)
      ensures forall o :: o in Objects(ring) + Objects(cachedChunks) ==>
        o in old(Objects(ring) + Objects(cachedChunks)) || fresh(o)
    {
      hide *;
      CostIs(length);
      SettledCases();
      NeedIs(length);
      SizesAre(length);
      ghost var before := st;
      ValidParts(this);
      Shaped(this);
      BlockPlace(this, p);
      BlocksAre(st, p);
      var i := HugeIndex(p);
      ValidAgain(this);
      var oldSize := hugeList[i].size;
      LeastIs(oldSize, copySize);
      if length > MAX_LARGE {
        AlignedFacts(length);
        Constants();
        var newSize := Aligned(length);
        ghost var keep := Least(oldSize, newSize);
        CarriedIs(oldSize, copySize, newSize);
        LeastIs(oldSize, newSize);
        if newSize <= oldSize {
          // the tail is unmapped
          FitHuge(p, i, newSize, keep);
          KeptMore(before, st, p, p, newSize, keep, Carried(oldSize, copySize, newSize));
          return Some(p);
        } else {
          var room := RoomForHuge(newSize - oldSize);
          ghost var s1 := st;
          TrimmedValid(this, before);
          MaybeBusy(before, st);
          SameLiveIs(before, st);
          SameBlocks(before, st);
          if !room { return None; }
          Shaped(this);
          HugeListSame(this, before);
          // map the tail right behind the block, which may fail
          var done: bool := *;
          if done && IsExtensible(i, newSize) {
            FitHuge(p, i, newSize, keep);
            SameBefore(before, s1, st, p, p, newSize, keep);
            KeptMore(before, st, p, p, newSize, keep, Carried(oldSize, copySize, newSize));
            return Some(p);
          }
        }
      }
      ghost var s1 := st;
      forall o | o in Objects(ring) + Objects(cachedChunks) ensures o in old(Objects(ring) + Objects(cachedChunks)) {}
      r := ReallocSlow(p, length, Least(oldSize, copySize));
      if r.Some? {
        SameBefore(before, s1, st, p, r.value, BlockSize(length), Least(oldSize, copySize));
        CarriedIs(oldSize, copySize, BlockSize(length));
        KeptMore(before, st, p, r.value, BlockSize(length), Least(oldSize, copySize),
          Carried(oldSize, copySize, BlockSize(length)));
      }
    }

    // zend_mm_realloc_heap on a small block: kept, or moved to a better class.
    method ReallocFromSmall(p: Ptr, oldBin: Bin, length: nat, useCopySize: bool, copySize: nat) returns (r: Option<Ptr>)
      requires Valid() && p in Blocks(st) && p != pin && (useCopySize || copySize == length)
      requires p in st.slots && st.slots[p].bin == oldBin && |Blocks(st)[p].data| == BinSize(oldBin)
      modifies `freeSlot, `ring, `cachedChunks, `chunksCount, `peakChunksCount, `cachedChunksCount, `realSize,
               `refusals, `asked, `relief, `lastDeleteBoundary, `lastDeleteCount, `size, `drift, `unlisted,
               `hugeList, `st,
               Objects(ring), Objects(cachedChunks)
      ensures Valid()
      ensures if r.Some? then
        p in old(Blocks(st)) && Reallocated(old(st), st, p, r.value,
          if r.value == p then BinSize(oldBin) else BlockSize(length), Carried(BinSize(oldBin), copySize, length))
        else Blocks(st) == old(Blocks(st))
      ensures if length <= BinSize(oldBin) && (oldBin == 0 || BinSize(oldBin - 1) <= length)
        then r == Some(p) && st == old(st)
        else r != Some(p)
      ensures overflow || realSize <= old(realSize) || realSize <= limit + CHUNK
      ensures r.None? ==> refusals > old(refusals) || (!overflow && old(realSize) + Need(length) > limit)
      ensures realSize <= old(realSize) + if r.Some? then Cost(length) else 0
      ensures Settled(r.Some?, length, old(drift), drift, old(unlisted), unlisted)
      ensures refusals >= old(refusals)
      ensures forall o :: o in Objects(ring) + Objects(cachedChunks) ==>
        o in old(Objects(ring) + Objects(cachedChunks)) || fresh(o)
    {
      hide *;
      CostIs(length);
      SettledCases();
      NeedIs(length);
      Constants();
      var oldSize := BinSize(oldBin);
      CarriedIs(oldSize, copySize, length);
      LeastIs(oldSize, copySize);
      LeastIs(length, copySize);
      LastBin(oldBin);
      BlockSizeEnough(length);
      if length <= oldSize {
        if oldBin > 0 && length < BinSize(oldBin - 1) {
          // truncation
          r := ReallocSmall(p, oldBin, length, if useCopySize then Least(length, copySize) else length);
        } else {
          // reallocation in place
          LeftAlone(st, p, Carried(oldSize, copySize, length));
          r := Some(p);
        }
      } else if length <= MAX_SMALL {
        // small extension
        r := ReallocSmall(p, oldBin, length, if useCopySize then Least(oldSize, copySize) else oldSize);
      } else {
        r := ReallocSlow(p, length, Least(oldSize, copySize));
      }
    }

    // zend_mm_realloc_heap on a large run: where it is if it stays large and there is room, else moved.
    method ReallocFromLarge(p: Ptr, c: Chunk, page: nat, count: nat, length: nat, copySize: nat)
      returns (r: Option<Ptr>)
      requires Valid() && p in Blocks(st) && p != pin && !Spills(p, count * PAGE, copySize, length)
      requires c in ring && p == RunPtr(Loc(c.number, page)) && Loc(c.number, page) in st.runs
      requires st.runs[Loc(c.number, page)] == Large(count) && p in st.live && st.live[p].kind == LargeBlock
        && |Blocks(st)[p].data| == count * PAGE
      modifies `freeSlot, `ring, `cachedChunks, `chunksCount, `peakChunksCount, `cachedChunksCount, `realSize,
               `refusals, `asked, `relief, `lastDeleteBoundary, `lastDeleteCount, `size, `drift, `unlisted,
               `hugeList, `st,
               Objects(ring), Objects(cachedChunks)
      ensures Valid()
      ensures if r.Some? then
        p in old(Blocks(st)) && Reallocated(old(st), st, p, r.value, BlockSize(length),
          Carried(count * PAGE, copySize, length))
        else Blocks(st) == old(Blocks(st))
      ensures r == Some(p) ==> Reallocated(old(st), st, p, p, BlockSize(length), Least(count * PAGE, length))
      ensures r == Some(p) <==>
        (MAX_SMALL < length <= MAX_LARGE &&
         (PageCount(length) <= count || RoomBehind(old(st), Loc(c.number, page), PageCount(length))))
      ensures overflow || realSize <= old(realSize) || realSize <= limit + CHUNK
      ensures r.None? ==> refusals > old(refusals) || (!overflow && old(realSize) + Need(length) > limit)
      ensures realSize <= old(realSize) + if r.Some? then Cost(length) else 0
      ensures Settled(r.Some?, length, old(drift), drift, old(unlisted), unlisted)
      ensures refusals >= old(refusals)
      ensures forall o :: o in Objects(ring) + Objects(cachedChunks) ==>
        o in old(Objects(ring) + Objects(cachedChunks)) || fresh(o)
    {
      hide *;
      CostIs(length);
      ghost var before := st;
      SettledCases();
      NeedIs(length);
      ValidParts(this);
      Shaped(this);
      var oldSize := count * PAGE;
      Constants();
      LeastIs(oldSize, copySize);
      CarriedIs(oldSize, copySize, length);
      LargeSize(st, Loc(c.number, page), count, length);
      SpillsIs(p, oldSize, copySize, length);
      BlockSizeEnough(length);
      SizesAre(length);
      if length > MAX_SMALL && length <= MAX_LARGE {
        ObjectsHave(ring, c);
        LeastIs(oldSize, length);
        var done := ReallocLarge(p, c, page, count, length);
        if done {
          KeptMore(before, st, p, p, BlockSize(length), Least(oldSize, length), Carried(oldSize, copySize, length));
          return Some(p);
        }
      }
      r := ReallocSlow(p, length, Least(oldSize, copySize));
      if r.Some? { Keeps(before, st, p, r.value, length, copySize); }
    }

    /** zend_mm_realloc_heap: the block comes back with at least length bytes, at the same place or another, beginning
        with the bytes it had, up to the copy size; every other block is as before. A failed reallocation changes no
        block. */
    method Realloc(p: Ptr, length: nat, useCopySize: bool, copySize: nat) returns (r: Option<Ptr>)
      requires Valid() && (p == NULL || p in Blocks(st)) && p != pin && (useCopySize || copySize == length)
      requires p != NULL ==> !Spills(p, |Blocks(st)[p].data|, copySize, length)
      modifies `freeSlot, `ring, `cachedChunks, `chunksCount, `peakChunksCount, `cachedChunksCount, `realSize,
               `refusals, `asked, `relief, `lastDeleteBoundary, `lastDeleteCount, `size, `drift, `unlisted,
               `hugeList, `st,
               Objects(ring), Objects(cachedChunks)
      ensures Valid()
      ensures r.None? ==> Blocks(st) == old(Blocks(st))
      ensures r.Some? && p == NULL ==> Handed(old(st), st, r.value, BlockSize(length))
      ensures r.Some? && p != NULL ==>
        p in old(Blocks(st)) && Reallocated(old(st), st, p, r.value, NewSize(p, |old(Blocks(st))[p].data|, length),
          Carried(|old(Blocks(st))[p].data|, copySize, length))
      ensures p != NULL && r == Some(p) ==>
        p in old(Blocks(st)) && Reallocated(old(st), st, p, p, NewSize(p, |old(Blocks(st))[p].data|, length),
          Least(|old(Blocks(st))[p].data|, length))
      ensures p != NULL ==> p in old(Blocks(st)) && (Stays(p, |old(Blocks(st))[p].data|, length) ==> r == Some(p))
      ensures p.off != 0 ==> (r == Some(p) <==> KeepsPlace(old(st), p, length))
      ensures p != NULL && p.off == 0 && r == Some(p) ==> MAX_LARGE < length
      ensures p.off != 0 && Stays(p, |old(Blocks(st))[p].data|, length) && |old(Blocks(st))[p].data| <= MAX_SMALL ==>
        st == old(st)
      ensures overflow || realSize <= old(realSize) || realSize <= limit + CHUNK
      ensures r.None? ==> refusals > old(refusals) || (!overflow && old(realSize) + Need(length) > limit)
      ensures realSize <= old(realSize) + if r.Some? then Cost(length) else 0
      ensures Settled(r.Some?, length, old(drift), drift, old(unlisted), unlisted)
      ensures refusals >= old(refusals)
      ensures forall o :: o in Objects(ring) + Objects(cachedChunks) ==>
        o in old(Objects(ring) + Objects(cachedChunks)) || fresh(o)
    {
      hide *;
      CostIs(length);
      ghost var before := st;
      SettledCases();
      NeedIs(length);
      ValidParts(this);
      Shaped(this);
      BlockPlace(this, p);
      if p.off == 0 {
        if p == NULL {
          r := Alloc(length);
        } else {
          SpillsIs(p, |Blocks(st)[p].data|, copySize, length);
          r := ReallocHuge(p, length, copySize);
          StaysHuge(p, |Blocks(before)[p].data|, length);
          if r.Some? { KeepsLess(before, st, p, r.value, length, copySize); }
          if r == Some(p) { KeepsAll(before, st, p, length); }
        }
        return;
      }
      BlocksAre(st, p);
      var c, page, info := EntryAt(p);
      ValidAgain(this);
      EntryCases(st, p, page, info);
      KeepsPlaceIs(st, p, length);
      if !info.Lrun? {
        StaysSmall(p, info.bin, length);
        LeastIs(BinSize(info.bin), length);
        LeftAlone(st, p, Least(BinSize(info.bin), length));
        r := ReallocFromSmall(p, info.bin, length, useCopySize, copySize);
      } else {
        LargeSize(st, Loc(c.number, page), info.count, length);
        StaysLarge(p, info.count, length);
        LargePlace(p, c.number, page);
        r := ReallocFromLarge(p, c, page, info.count, length, copySize);
      }
    }

    // ---- beginning and end ----

    // A heap without blocks, whose only chunk in use is the main chunk: as it starts, and as a shutdown leaves it.
    ghost predicate Blank()
      reads this, Repr()
    {
      && Shape() && SizeOk() && RealOk()
      && |ring| == 1 && st.runs == map[] && st.live == map[]
      && realSize == CHUNK && size == 0
    }

    /** zend_mm_init */
    constructor (start: nat, limit: nat, overflow: bool)
      requires 0 < start
      ensures Blank() && this.limit == limit && this.overflow == overflow
      ensures drift == 0 && refusals == 0 && relief == 0 && unlisted == 0
      ensures ring != [] && ring[0].number == start
      ensures cachedChunks == [] && fresh(Objects(ring)) && avgChunksCount == 1.0
    {
      hide *;
      this.limit, this.overflow, asked := limit, overflow, 0;
      var answers: nat -> bool := *;
      this.answers := answers;
      var chunk := new Chunk(start);
      size, realSize := 0, CHUNK;
      ring, cachedChunks, hugeList := [chunk], [], [];
      freeSlot := seq(BINS, _ => []);
      chunksCount, peakChunksCount, cachedChunksCount := 1, 1, 0;
      avgChunksCount := 1.0;
      lastDeleteBoundary, lastDeleteCount := 0, 0;
      drift, uncharged, pin := 0, 0, NULL;
      refusals, relief, unlisted := 0, 0, 0;
      st := NoBlocks([start], []);
      new;
      Constants();
      chunk.Initialize();
      FirstChunk(chunk);
      ObjectsOne(chunk);
      BlankCounts(this);
      BlankIs(this, chunk);
    }

    /** zend_mm_startup_ex: the first block of a blank heap lies in the main chunk; while it is not freed, the main
        chunk is not deleted. */
    method Pin(length: nat) returns (p: Ptr)
      requires Blank() && length <= MAX_LARGE
      modifies `freeSlot, `ring, `cachedChunks, `chunksCount, `peakChunksCount, `cachedChunksCount, `realSize,
               `refusals, `asked, `relief,
               `lastDeleteBoundary, `lastDeleteCount, `size, `drift, `pin, `st, Objects(ring), Objects(cachedChunks)
      ensures Valid() && p == pin && Handed(old(st), st, p, BlockSize(length)) && Blocks(old(st)) == map[]
      ensures old(st).runs == map[] && RunAt(old(st), st, p, RunFor(length))
      ensures |ring| == 1 && cachedChunks == old(cachedChunks) && realSize == old(realSize) && drift == old(drift)
      ensures refusals == old(refusals)
      ensures old(ring) != [] && p.chunk == old(ring)[0].number
      ensures refusals >= old(refusals)
      ensures forall o :: o in Objects(ring) + Objects(cachedChunks) ==>
        o in old(Objects(ring) + Objects(cachedChunks)) || fresh(o)
    {
      hide *;
      ghost var before := st;
      BlankParts(this);
      Shaped(this);
      Constants();
      RoomInBlank(this, length);
      BlankRuns(this);
      StuckIs(this, length);
      var r := AllocInChunk(length);
      Shaped(this);
      pin := r.value;
      p := r.value;
      Reformed(this);
      PinIsFirst(this, before, p, BlockSize(length));
      PinsFirst(before, st, p, BlockSize(length));
      HandedInChunk(before, st, p, BlockSize(length));
      NumbersAre(this);
      MapsAre(ring);
      BusyAlone(st);
      ValidAgain(this);
    }

    /** Any block in the main chunk can take the part of the pinned one. */
    ghost method Repin(p: Ptr)
      requires Valid() && p in Blocks(st) && p.chunk == ring[0].number
      modifies `pin
      ensures Valid() && pin == p
    {
      hide *;
      ValidParts(this);
      Shaped(this);
      MainHolds(st, p);
      pin := p;
      Reformed(this);
      PinIs(this);
      ValidIs(this);
    }

    // The chunks behind the main chunk all go to the cache.
    method CacheAll()
      requires Distinct(Numbers(ring)) && ChunksOk(Numbers(ring), Numbers(cachedChunks)) && ring != []
      requires cachedChunksCount == |cachedChunks| && chunksCount == |ring|
      modifies `ring, `cachedChunks, `chunksCount, `cachedChunksCount
      ensures ring == [old(ring)[0]] && ChunksOk(Numbers(ring), Numbers(cachedChunks))
      ensures forall c :: c in cachedChunks ==> c in old(ring + cachedChunks)
      ensures cachedChunksCount == |cachedChunks| == old(|ring| + |cachedChunks|) - 1 && chunksCount == 1
    {
      hide *;
      ghost var main := ring[0];
      while |ring| > 1
        invariant ring != [] && ring[0] == main && ChunksOk(Numbers(ring), Numbers(cachedChunks))
        invariant forall c :: c in ring + cachedChunks ==> c in old(ring + cachedChunks)
        invariant cachedChunksCount == |cachedChunks| && chunksCount == |ring|
        invariant |ring| + |cachedChunks| == old(|ring| + |cachedChunks|)
        decreases |ring|
      {
        CachedNext(ring, cachedChunks);
        cachedChunks := [ring[1]] + cachedChunks;
        ring := [ring[0]] + ring[2..];
        chunksCount := chunksCount - 1;
        cachedChunksCount := cachedChunksCount + 1;
      }
    }

    // Cached chunks are unmapped until the average number of chunks exceeds theirs.
    method TrimCache()
      requires cachedChunksCount == |cachedChunks|
      modifies `cachedChunks, `cachedChunksCount
      ensures cachedChunksCount == |cachedChunks| <= old(|cachedChunks|)
      ensures cachedChunks == old(cachedChunks)[old(|cachedChunks|) - |cachedChunks|..]
      ensures Spare(|cachedChunks|, old(|cachedChunks|), avgChunksCount)
    {
      while cachedChunksCount as real + 0.9 > avgChunksCount && cachedChunks != []
        invariant cachedChunksCount == |cachedChunks| <= old(|cachedChunks|)
        invariant cachedChunks == old(cachedChunks)[old(|cachedChunks|) - |cachedChunks|..]
        invariant |cachedChunks| == old(|cachedChunks|) || (|cachedChunks| + 1) as real + 0.9 > avgChunksCount
        decreases |cachedChunks|
      {
        cachedChunks := cachedChunks[1..];
        cachedChunksCount := cachedChunksCount - 1;
      }
    }

    // The headers of the chunks left in the cache are cleared.
    method WipeAll(cs: seq<Chunk>)
      requires Unshared(cs) && forall c :: c in cs ==> c.freeMap.Length == 8 && c.info.Length == 512
      modifies Objects(cs)
      ensures forall c :: c in cs ==> Clean(c)
    {
      hide *;
      Constants();
      var i := 0;
      while i < |cs|
        invariant i <= |cs| && forall c :: c in cs[..i] ==> Clean(c)
      {
        var c := cs[i];
        ObjectsHave(cs, c);
        forall d: Chunk | d in cs && d != c
          ensures {d as object, d.freeMap, d.info} !! {c as object, c.freeMap, c.info} {
          Footprints(cs, c, d);
        }
        c.Wipe();
        BlankIsClean(c);
        forall d | d in cs[..i + 1] ensures Clean(d) {
          if d != c { UpTo(cs, i, d); }
        }
        i := i + 1;
      }
      assert cs[..i] == cs;
    }

    // The headers of all chunks left are cleared; the main chunk gets a fresh one.
    method ClearChunks()
      requires |ring| == 1 && Leftover(ring, cachedChunks)
      modifies Objects(ring), Objects(cachedChunks)
      ensures ring[0].Valid() && ring[0].runs == map[] && forall d :: d in cachedChunks ==> Clean(d)
    {
      hide *;
      Constants();
      LeftoverParts(ring, cachedChunks);
      NotAmong(this, ring);
      NotAmong(this, cachedChunks);
      var main := ring[0];
      ObjectsHave(ring, main);
      WipeAll(cachedChunks);
      StrangerParts(main, cachedChunks);
      main.Wipe();
      main.Initialize();
    }

    // Huge blocks are unmapped, all chunks but the first go to the cache, and some of the cached ones are unmapped.
    method DropChunks()
      requires Shape() && RealOk()
      modifies `ring, `cachedChunks, `chunksCount, `cachedChunksCount, `hugeList, `avgChunksCount
      ensures old(ring) != [] && ring == [old(ring)[0]] && Leftover(ring, cachedChunks)
      ensures chunksCount == 1 && cachedChunksCount == |cachedChunks| && hugeList == []
      ensures avgChunksCount == old(avgChunksCount + peakChunksCount as real) / 2.0
      ensures Spare(|cachedChunks|, old(|ring| + |cachedChunks|) - 1, avgChunksCount)
      ensures forall c :: c in cachedChunks ==> c in old(ring + cachedChunks)
      ensures Objects(ring) + Objects(cachedChunks) <= old(Objects(ring) + Objects(cachedChunks))
    {
      hide *;
      AllChunks(this);
      RealIs(this);
      hugeList := [];
      CacheAll();
      avgChunksCount := (avgChunksCount + peakChunksCount as real) / 2.0;
      ghost var all := cachedChunks;
      TrimCache();
      LeftChunks(old(ring), old(cachedChunks), ring, all, cachedChunks);
    }

    // The fields of the heap start over.
    method Restart()
      requires cachedChunksCount >= 0
      modifies `freeSlot, `chunksCount, `peakChunksCount, `lastDeleteBoundary, `lastDeleteCount, `realSize, `size,
               `drift, `uncharged, `st
      ensures freeSlot == seq(BINS, _ => []) && chunksCount == peakChunksCount == 1
      ensures lastDeleteBoundary == lastDeleteCount == 0
      ensures realSize == CHUNK && size == 0 && drift == 0 && uncharged == cachedChunksCount
      ensures st == NoBlocks(Numbers(ring), Numbers(cachedChunks))
    {
      freeSlot := seq(BINS, _ => []);
      chunksCount, peakChunksCount := 1, 1;
      lastDeleteBoundary, lastDeleteCount := 0, 0;
      realSize, size := CHUNK, 0;
      drift, uncharged := 0, cachedChunksCount;
      st := NoBlocks(Numbers(ring), Numbers(cachedChunks));
    }

    /** zend_mm_shutdown, not full: every block is gone, the main chunk is blank again, some chunks stay in the cache.
        They are not charged; only the average number of chunks, which decided how many stay, knows of them. */
    method Shutdown()
      requires Shape() && RealOk()
      modifies this, Objects(ring), Objects(cachedChunks)
      ensures Blank() && old(ring) != [] && ring[0] == old(ring)[0]
      ensures avgChunksCount == old(avgChunksCount + peakChunksCount as real) / 2.0
      ensures refusals == old(refusals)
      ensures uncharged == |cachedChunks| && forall c :: c in cachedChunks ==> c in old(ring + cachedChunks)
      ensures Spare(|cachedChunks|, old(|ring| + |cachedChunks|) - 1, avgChunksCount)
      ensures Objects(ring) + Objects(cachedChunks) <= old(Objects(ring) + Objects(cachedChunks))
    {
      hide *;
      DropChunks();
      LeftoverParts(ring, cachedChunks);
      NotAmong(this, ring);
      NotAmong(this, cachedChunks);
      ClearChunks();
      Restart();
      SpareIs(|cachedChunks|, old(|ring| + |cachedChunks|) - 1, avgChunksCount);
      BlankCounts(this);
      BlankIs(this, ring[0]);
    }
  }

  // k of total chunks stay in the cache: as many as there are, as long as the average allows.
  predicate Spare(k: nat, total: int, average: real)
  {
    && k <= total
    && (k == 0 || k as real + 0.9 <= average)
    && (k == total || (k + 1) as real + 0.9 > average)
  }

  lemma SpareIs(k: nat, total: int, average: real)
    requires Spare(k, total, average)
    ensures k == 0 || k as real + 0.9 <= average
  {}

  lemma OpenedAt(h: Heap, c: Chunk)
    requires h.Shape() && c in h.ring
    ensures Inv(h.st) && Numbers(h.ring) == h.st.ring && Numbers(h.cachedChunks) == h.st.cached
    ensures h.freeSlot == h.st.free && |h.freeSlot| == BINS == 30 && h.hugeList == h.st.huge
      && Unshared(h.ring + h.cachedChunks)
    ensures InUse(c, h.st.runs) && c.Valid() && Matches(c.number, c.runs, h.st.runs) && Quiet(c.runs, c.info[..])
    ensures c.number in h.st.ring && c.info.Length == PAGES == 512 && PAGE == 4096
    ensures forall d :: d in h.ring && d != c ==>
      InUse(d, h.st.runs) && {d as object, d.freeMap, d.info} !! {h as object, c, c.freeMap, c.info}
    ensures forall d :: d in h.cachedChunks ==>
      Clean(d) && {d as object, d.freeMap, d.info} !! {h as object, c, c.freeMap, c.info}
  {
    hide ShapeOf, InUse, Clean, Inv, Matches, Quiet, Unshared;
    Opened(h.st, h.ring, h.cachedChunks, h.freeSlot, h.hugeList, c);
  }

  lemma NotAmong(h: Heap, cs: seq<Chunk>)
    ensures h !in Objects(cs)
  {}

  lemma UpTo<T>(s: seq<T>, i: nat, x: T)
    requires i < |s| && x in s[..i + 1] && x != s[i]
    ensures x in s[..i]
  {}

  lemma Shaped(h: Heap)
    requires h.Shape()
    ensures Inv(h.st) && |h.st.free| == BINS && h.freeSlot == h.st.free && h.hugeList == h.st.huge
    ensures ShapeOf(h.st, h.ring, h.cachedChunks, h.freeSlot, h.hugeList)
    ensures h !in Objects(h.ring) && h !in Objects(h.cachedChunks)
    ensures h.ring != [] && h.st.ring != [] && h.st.ring[0] == h.ring[0].number
  {
    hide RunsOk, SlotsOk, LiveOk, HugeOk, RegionsOk;
  }

  lemma PinIs(h: Heap)
    ensures h.Pinned() <==> Pins(h.st, h.pin)
  {}

  lemma ReadyIs(h: Heap, count: nat)
    ensures h.Ready(count) <==> h.Pinned() || h.Roomy(count)
    ensures h.Roomy(count) <==> !NoneFits(Maps(h.ring), count)
  {
    hide NoneFits;
  }

  lemma PinHeld(h: Heap)
    requires h.Pinned()
    ensures HeldBy(h.st, h.pin) && Pins(h.st, h.pin) && PAGE == 4096
  {}

  lemma PinStays(h: Heap, before: State)
    requires Pins(before, h.pin) && h.st.live == before.live && h.st.huge == before.huge
    requires h.st.ring != [] && before.ring != [] && h.st.ring[0] == before.ring[0]
    ensures h.Pinned()
  {}

  lemma TrimmedSame(h: Heap)
    requires h.Shape()
    ensures Trimmed(h.st, h.st) && MaybeCollected(h.st, h.st) && CHUNK == 2097152
  {
    Shaped(h);
    MaybeSame(h.st);
    hide MaybeCollected;
  }

  // A collection trims the heap, and shrinks it unless there is nothing to collect.
  lemma Collected(before: State, h: Heap)
    requires |before.free| == BINS
      && h.st == Collect(before, Garbage(before)).(ring := h.st.ring, cached := h.st.cached)
    requires h.Shape() && h.ring != [] && before.ring != [] && before.ring[0] == h.ring[0].number
    ensures Trimmed(before, h.st)
    ensures (Garbage(h.st) == {} && h.st.ring == SweptRing(before) &&
             (!Reclaimable(before) ==> h.st.cached == before.cached)) ==> MaybeCollected(before, h.st)
    ensures Garbage(before) != {} ==> |h.st.runs| < |before.runs|
  {
    Shaped(h);
    CollectParts(before);
    GarbageIdle(before);
    if Garbage(before) != {} { FewerRuns(before.runs, Garbage(before)); }
    hide Inv, Garbage, h.Shape, ShapeOf, Idle, SweptRing, Reclaimable;
  }

  lemma DroppedNumbers(s0: State, s: State, ring: seq<Chunk>, cached: seq<Chunk>, i: nat)
    requires Sweeping(s0, s, ring, cached, i + 1) && i < |ring|
    ensures i < |s.ring| && Numbers(Without(ring, i)) == Without(s.ring, i)
  {
    hide Sweeping, Inv, Numbers, Without;
    SweepingAre(s0, s, ring, cached, i + 1);
    NumbersWithout(ring, i);
  }

  lemma SpentIs(s0: State, s: State, ring: seq<Chunk>, i: nat)
    requires Numbers(ring) == s.ring && i < |ring|
    ensures i < |s.ring| && s.ring[i] == ring[i].number
    ensures Spent(s0, s.ring[i]) <==> forall l :: l in s0.runs && l.chunk == ring[i].number ==> l in Garbage(s0)
  {
    hide Garbage;
  }

  // A chunk that enters the ring leaves it trimmed.
  lemma EnteredTrim(before: State, h: Heap, ring: seq<Chunk>, c: Chunk)
    requires h.Shape() && h.ring == ring + [c] && ring != [] && |before.free| == BINS && before.ring == Numbers(ring)
    requires h.st == before.(ring := h.st.ring, cached := h.st.cached)
    ensures Trimmed(before, h.st)
  {
    Shaped(h);
    hide Inv, ShapeOf;
  }

  lemma PinTrimmed(h: Heap, before: State)
    requires Pins(before, h.pin) && Trimmed(before, h.st)
    ensures h.Pinned()
  {}

  lemma StrangerParts(c: Chunk, cs: seq<Chunk>)
    requires Stranger(c, cs)
    ensures forall d: Chunk :: d in cs ==>
      d.number != c.number && {d as object, d.freeMap, d.info} !! {c as object, c.freeMap, c.info}
  {}

  lemma BlankIsClean(c: Chunk)
    requires c.freeMap.Length == 8 && c.info.Length == PAGES && Members(c.freeMap[..]) == {}
    ensures Clean(c)
  {}

  lemma UnmappedChunk(st: State, ring: seq<Chunk>, cached: seq<Chunk>, start: nat)
    requires Unmapped(st, start, 1) && Numbers(ring) == st.ring && Numbers(cached) == st.cached
    ensures start != 0 && forall d :: d in ring + cached ==> d.number != start
  {
    forall d | d in ring + cached ensures d.number != start {
      if d in ring { NumbersHas(ring, d); } else { NumbersHas(cached, d); }
      assert d.number in st.ring + st.cached;
    }
  }

  lemma SpaceExists(h: Heap, units: nat)
    ensures exists start: nat :: h.IsUnmapped(start, units)
  {
    hide Units;
    var start := BeyondHuge(h.hugeList, BeyondChunks(h.cachedChunks, BeyondChunks(h.ring, 1)));
    assert h.IsUnmapped(start, units);
  }

  ghost function BeyondChunks(cs: seq<Chunk>, start: nat): (s: nat)
    ensures start <= s && forall c :: c in cs ==> c.number < s
  {
    if cs == [] then start
    else
      assert cs == [cs[0]] + cs[1..];
      BeyondChunks(cs[1..], if cs[0].number < start then start else cs[0].number + 1)
  }

  ghost function BeyondHuge(huge: seq<Huge>, start: nat): (s: nat)
    ensures start <= s && forall i :: 0 <= i < |huge| ==> huge[i].ptr.chunk + Units(huge[i].size) <= s
  {
    if huge == [] then start
    else
      assert forall i :: 0 < i < |huge| ==> huge[i] == huge[1..][i - 1];
      var end := huge[0].ptr.chunk + Units(huge[0].size);
      BeyondHuge(huge[1..], if end < start then start else end)
  }

  lemma SpaceIsUnmapped(h: Heap, start: nat, units: nat)
    requires h.Shape() && h.IsUnmapped(start, units)
    ensures Unmapped(h.st, start, units)
  {
    hide ShapeOf, Inv, Units;
    Shaped(h);
    ShapeParts(h.st, h.ring, h.cachedChunks, h.freeSlot, h.hugeList);
    forall n | n in h.st.ring + h.st.cached ensures !(start <= n < start + units) {
      if n in h.st.ring {
        var i := NumbersOf(h.ring, n);
        assert h.ring[i] in h.ring;
      } else {
        var i := NumbersOf(h.cachedChunks, n);
        assert h.cachedChunks[i] in h.cachedChunks;
      }
    }
  }

  lemma MovedShape(h: Heap, i: nat)
    requires h.Shape() && 0 < i < |h.ring|
    ensures var ring' := [h.ring[0], h.ring[i]] + h.ring[1..i] + h.ring[i + 1..];
      Objects(ring') == Objects(h.ring) &&
      ShapeOf(h.st.(ring := Numbers(ring')), ring', h.cachedChunks, h.freeSlot, h.hugeList)
  {
    Shaped(h);
    hide ShapeOf, Numbers, Inv, Objects;
    Moved(h.st, h.ring, h.cachedChunks, h.freeSlot, h.hugeList, i);
  }

  // The page bitmaps of the chunks.
  ghost function Maps(cs: seq<Chunk>): seq<seq<bv64>>
    reads set c: Chunk | c in cs :: c.freeMap
  {
    seq(|cs|, i requires 0 <= i < |cs| reads set c: Chunk | c in cs :: c.freeMap => cs[i].freeMap[..])
  }

  // Page q of chunk i is the best fit of the first chunk that has one.
  ghost predicate FirstFit(maps: seq<seq<bv64>>, count: nat, i: nat, q: nat)
  {
    && i < |maps| && BestFitAt(maps[i], count, q)
    && forall k :: 0 <= k < i ==> NoFit(maps[k], count)
  }

  ghost predicate NoneFits(maps: seq<seq<bv64>>, count: nat)
  {
    forall k :: 0 <= k < |maps| ==> NoFit(maps[k], count)
  }

  lemma NoneFitsIs(maps: seq<seq<bv64>>, count: nat)
    ensures NoneFits(maps, count) <==> forall k :: 0 <= k < |maps| ==> NoFit(maps[k], count)
  {
    hide NoFit;
  }

  lemma FitsSome(maps: seq<seq<bv64>>, count: nat, i: nat, q: nat)
    requires i < |maps| && BestFitAt(maps[i], count, q)
    ensures !NoneFits(maps, count)
  {
    hide MaximalRun;
    assert !NoFit(maps[i], count);
  }

  // The ring, with chunk i moved behind the main one if more than two hops led to it and fewer than 8 pages are asked
  // for.
  function Reordered(ring: seq<nat>, i: nat, hops: nat, count: nat): seq<nat>
  {
    if hops > 2 && count < 8 && 0 < i < |ring| then [ring[0], ring[i]] + ring[1..i] + ring[i + 1..] else ring
  }

  // What a heap is when a chunk joins it: as before if one is cached; collected if another does not fit under the
  // limit; and else it may be collected, because the operating system refuses a chunk at first.
  ghost predicate Asked(s: State, fits: bool, kept: State)
  {
    && MaybeCollected(s, kept)
    && (s.cached != [] ==> kept == s)
    && (s.cached == [] && !fits ==> Garbage(kept) == {} && Busy(kept))
  }

  ghost predicate Enters(kept: State, s': State, n: nat, cached: seq<nat>)
  {
    s' == kept.(ring := kept.ring + [n], cached := cached)
  }

  // Chunk n, the head of the cache or a new one, has joined the ring at its end.
  ghost predicate ChunkJoined(s: State, fits: bool, kept: State, s': State, n: nat)
  {
    && Asked(s, fits, kept)
    && if FromCache(s, fits, kept) then n == kept.cached[0] && Enters(kept, s', n, kept.cached[1..])
       else Enters(kept, s', n, kept.cached)
  }

  // A cached chunk comes first; one that the operating system grants after it refused one does not ask for the cache.
  ghost predicate FromCache(s: State, fits: bool, kept: State)
  {
    kept.cached != [] && (s.cached != [] || !fits)
  }

  // A run at the best fit of the first chunk that has one.
  ghost predicate InOld(s: State, maps: seq<seq<bv64>>, count: nat, run: Run, s': State, p: Ptr)
  {
    exists i: nat, q: nat :: FirstFit(maps, count, i, q) && i < |s.ring| && p == RunPtr(Loc(s.ring[i], q))
      && s'.ring == Reordered(s.ring, i, i, count) && s'.cached == s.cached
      && s'.runs == s.runs[Loc(s.ring[i], q) := run]
  }

  // A run on the first pages of another chunk. The hops are those of the search before.
  ghost predicate InNew(s: State, fits: bool, count: nat, run: Run, s': State, p: Ptr)
  {
    exists kept: State, mid: State :: ChunkJoined(s, fits, kept, mid, p.chunk)
      && p == RunPtr(Loc(p.chunk, 1)) && s.ring != []
      && s'.ring == Reordered(mid.ring, |kept.ring|, |s.ring| - 1, count) && s'.cached == mid.cached
      && s'.runs == mid.runs[Loc(p.chunk, 1) := run]
  }

  // What the search for pages leaves of the ring, the cache and the runs.
  ghost predicate RunPlaced(s: State, maps: seq<seq<bv64>>, fits: bool, count: nat, run: Run, s': State, p: Option<Ptr>)
  {
    if !NoneFits(maps, count) then p.Some? && InOld(s, maps, count, run, s', p.value)
    else if p.Some? then InNew(s, fits, count, run, s', p.value)
    else MaybeCollected(s, s')
  }

  // A listed slot takes no pages.
  ghost predicate Served(listed: bool, s: State, maps: seq<seq<bv64>>, fits: bool, count: nat, run: Run, s': State,
                         p: Option<Ptr>)
  {
    if listed then s'.ring == s.ring && s'.cached == s.cached && s'.runs == s.runs
    else RunPlaced(s, maps, fits, count, run, s', p)
  }

  lemma ServedIs(listed: bool, s: State, maps: seq<seq<bv64>>, fits: bool, count: nat, run: Run, s': State,
                 p: Option<Ptr>)
    ensures Served(listed, s, maps, fits, count, run, s', p) <==>
      if listed then s'.ring == s.ring && s'.cached == s.cached && s'.runs == s.runs
      else RunPlaced(s, maps, fits, count, run, s', p)
  {
    hide RunPlaced;
  }

  lemma AskedIs(s: State, fits: bool, kept: State)
    ensures Asked(s, fits, kept) <==>
      && MaybeCollected(s, kept)
      && (s.cached != [] ==> kept == s)
      && (s.cached == [] && !fits ==> Garbage(kept) == {} && Busy(kept))
  {
    hide MaybeCollected, Garbage, Busy;
  }

  lemma JoinedIs()
    ensures forall s, fits, kept, s', n :: ChunkJoined(s, fits, kept, s', n) <==>
      Asked(s, fits, kept) &&
      if FromCache(s, fits, kept) then n == kept.cached[0] && Enters(kept, s', n, kept.cached[1..])
       else Enters(kept, s', n, kept.cached)
    ensures forall s, fits, kept :: FromCache(s, fits, kept) <==> kept.cached != [] && (s.cached != [] || !fits)
  {
    hide Asked, Enters;
  }

  lemma JoinedLength(s: State, fits: bool, kept: State, s': State, n: nat)
    requires ChunkJoined(s, fits, kept, s', n)
    ensures |s'.ring| == |kept.ring| + 1
  {
    hide Asked;
  }

  // A collection more, after a chunk was not granted.
  lemma AskedOn(s: State, fits: bool, mid: State, kept: State)
    requires Asked(s, fits, mid) && mid.cached == [] && (fits && s.cached == [] ==> mid == s)
    requires MaybeCollected(mid, kept)
    ensures Asked(s, fits, kept) && (s.cached == [] && !fits ==> kept == mid)
  {
    hide *;
    AskedIs(s, fits, mid);
    MaybeOn(s, mid, kept);
    if Garbage(mid) == {} && Busy(mid) { MaybeNothing(mid, kept); }
    AskedIs(s, fits, kept);
  }

  lemma EntersIs(kept: State, h: Heap, ring: seq<Chunk>, c: Chunk)
    requires h.ring == ring + [c] && kept.ring == Numbers(ring)
    requires h.st == kept.(ring := Numbers(h.ring), cached := Numbers(h.cachedChunks))
    ensures Enters(kept, h.st, c.number, h.st.cached)
  {
    assert Numbers(h.ring) == Numbers(ring) + [c.number];
  }

  lemma EntersCached(kept: State, h: Heap, ring: seq<Chunk>, cached: seq<Chunk>)
    requires cached != [] && h.ring == ring + [cached[0]]
    requires kept.ring == Numbers(ring) && kept.cached == Numbers(cached)
    requires h.st == kept.(ring := Numbers(h.ring), cached := Numbers(h.cachedChunks)) && h.cachedChunks == cached[1..]
    ensures kept.cached != [] && cached[0].number == kept.cached[0]
    ensures Enters(kept, h.st, cached[0].number, kept.cached[1..])
  {
    EntersIs(kept, h, ring, cached[0]);
    assert Numbers(cached[1..]) == Numbers(cached)[1..];
  }

  lemma ReorderedIs(ring: seq<Chunk>, i: nat, hops: nat, count: nat)
    requires i < |ring| && (hops > 2 ==> 0 < i)
    ensures Reordered(Numbers(ring), i, hops, count) == if hops > 2 && count < 8
      then Numbers([ring[0], ring[i]] + ring[1..i] + ring[i + 1..]) else Numbers(ring)
  {
    if hops > 2 && count < 8 {
      var n, moved := Numbers(ring), [ring[0], ring[i]] + ring[1..i] + ring[i + 1..];
      assert forall k :: 0 <= k < |moved| ==> Numbers(moved)[k] == moved[k].number;
      assert forall k :: 0 <= k < |ring| ==> n[k] == ring[k].number;
      hide Numbers;
      var want := [n[0], n[i]] + n[1..i] + n[i + 1..];
      assert |moved| == |want|;
      forall k | 0 <= k < |moved| ensures moved[k].number == want[k] {
        var j := if k == 0 then 0 else if k == 1 then i else if k <= i then k - 1 else k;
        assert moved[k] == ring[j] && want[k] == n[j];
      }
      assert Numbers(moved) == want;
    }
  }

  lemma PlacedOld(s: State, maps: seq<seq<bv64>>, fits: bool, count: nat, i: nat, q: nat, s': State, p: Ptr)
    requires i < |s.ring| == |maps| && BestFitAt(maps[i], count, q) && forall k :: 0 <= k < i ==> NoFit(maps[k], count)
    requires p == RunPtr(Loc(s.ring[i], q)) && s'.ring == Reordered(s.ring, i, i, count) && s'.cached == s.cached
    requires s'.runs == s.runs[Loc(p.chunk, p.off / 4096) := Large(count)]
    ensures RunPlaced(s, maps, fits, count, Large(count), s', Some(p))
  {
    FitsSome(maps, count, i, q);
    hide BestFitAt, NoFit, NoneFits, Reordered, InNew;
    RunPtrIs(s.ring[i], q);
    assert FirstFit(maps, count, i, q);
  }

  lemma PlacedNew(s: State, fits: bool, kept: State, mid: State, count: nat, s': State, p: Ptr)
    requires ChunkJoined(s, fits, kept, mid, p.chunk) && p == RunPtr(Loc(p.chunk, 1)) && s.ring != []
    requires s'.ring == Reordered(mid.ring, |kept.ring|, |s.ring| - 1, count) && s'.cached == mid.cached
    requires s'.runs == mid.runs[Loc(p.chunk, p.off / 4096) := Large(count)]
    ensures InNew(s, fits, count, Large(count), s', p)
  {
    hide ChunkJoined, Reordered;
    RunPtrIs(p.chunk, 1);
  }

  lemma PlacedIs(s: State, maps: seq<seq<bv64>>, fits: bool, count: nat, run: Run, s': State, p: Option<Ptr>)
    ensures RunPlaced(s, maps, fits, count, run, s', p) <==>
      if !NoneFits(maps, count) then p.Some? && InOld(s, maps, count, run, s', p.value)
      else if p.Some? then InNew(s, fits, count, run, s', p.value)
      else MaybeCollected(s, s')
  {
    hide NoneFits, InOld, InNew, MaybeCollected;
  }

  // The pages of a run become those of a small one.
  lemma PlacedCarved(s: State, maps: seq<seq<bv64>>, fits: bool, count: nat, bin: Bin, mid: State, s': State, p: Ptr)
    requires RunPlaced(s, maps, fits, count, Large(count), mid, Some(p))
    requires s'.ring == mid.ring && s'.cached == mid.cached
    requires s'.runs == mid.runs[Loc(p.chunk, p.off / 4096) := Small(bin)]
    ensures RunPlaced(s, maps, fits, count, Small(bin), s', Some(p))
  {
    hide NoneFits, FirstFit, Reordered, ChunkJoined;
    if !NoneFits(maps, count) {
      var i: nat, q: nat :| FirstFit(maps, count, i, q) && i < |s.ring| && p == RunPtr(Loc(s.ring[i], q))
        && mid.ring == Reordered(s.ring, i, i, count) && mid.cached == s.cached
        && mid.runs == s.runs[Loc(s.ring[i], q) := Large(count)];
      RunPtrIs(s.ring[i], q);
    } else {
      RunPtrIs(p.chunk, 1);
    }
  }

  // How the memory charged follows an attempt to get pages: nothing new if a run fits or a chunk is cached, else a
  // chunk, less what collections gave back after the operating system refused one at first.
  ghost predicate Grew(fits: bool, cached: bool, before: int, after: int, limit: int, relief: int, some: bool)
  {
    && relief >= 0
    && (fits || cached ==> some && after == before && relief == 0)
    && (!fits && !cached && before + CHUNK <= limit && some ==> after + relief == before + CHUNK)
  }

  lemma GrewCases()
    ensures forall fits, cached, before, after, limit, relief, some ::
      Grew(fits, cached, before, after, limit, relief, some) <==>
      (relief >= 0 && (fits || cached ==> some && after == before && relief == 0) &&
       (!fits && !cached && before + CHUNK <= limit && some ==> after + relief == before + CHUNK))
  {}

  lemma EnteredBusy(before: State, h: Heap, ring: seq<Chunk>, c: Chunk)
    requires h.Shape() && h.ring == ring + [c] && ring != [] && before.ring == Numbers(ring)
    requires h.st == before.(ring := h.st.ring, cached := h.st.cached)
    ensures Busy(before) ==> BusyBut(h.st, c.number)
  {
    hide *;
    NumbersAre(h);
    MapsAre(ring);
    MapsAre(h.ring);
    assert h.st.ring == before.ring + [c.number];
    BusyEntered(before, h.st, c.number);
  }

  lemma RunPuts(s: State, l: Loc, count: nat, data: seq<bv8>)
    ensures BusyBut(s, l.chunk) ==> Busy(AddLarge(s, l, count, data))
  {
    BusyPut(s, AddLarge(s, l, count, data), l);
    hide Busy, BusyBut;
  }

  lemma RingMoved(before: State, h: Heap, ring: seq<Chunk>, i: nat, n: nat)
    requires h.Shape() && 0 < i < |ring| && h.ring == [ring[0], ring[i]] + ring[1..i] + ring[i + 1..]
    requires before.ring == Numbers(ring) && h.st == before.(ring := Numbers(h.ring))
    ensures BusyBut(before, n) ==> BusyBut(h.st, n)
  {
    hide *;
    MapsAre(ring);
    MapsAre(h.ring);
    forall x | x in h.st.ring[1..] ensures x in before.ring[1..] {
      var k :| 0 <= k < |h.st.ring[1..]| && h.st.ring[1..][k] == x;
      var j := if k == 0 then i else if k < i then k else k + 1;
      assert h.ring[k + 1] == ring[j];
      assert before.ring[1..][j - 1] == x;
    }
    BusyMoved(before, h.st, n);
  }

  lemma RunIsPut(s: State, s': State, p: Ptr, n: nat, data: seq<bv8>)
    requires RunAdded(s, s', p, n, data)
    ensures s'.runs == s.runs[Loc(p.chunk, p.off / 4096) := Large(n)] && s'.slots == s.slots
  {}

  lemma StuckIs(h: Heap, length: nat)
    ensures h.Stuck(length) <==> !h.OnList(length) && !h.Roomy(RunPages(length)) && h.Cornered()
    ensures h.FindsRun(length) <==> !h.OnList(length) && h.Roomy(RunPages(length))
    ensures h.OnList(length) <==> length <= MAX_SMALL && |h.freeSlot| == BINS && h.freeSlot[SmallBin(length)] != []
    ensures forall free, p :: FromList(free, length, p) <==>
      |free| == BINS && (length <= MAX_SMALL && free[SmallBin(length)] != [] ==> p == Some(free[SmallBin(length)][0]))
    ensures forall s, s', p, run :: RunAt(s, s', p, run) <==> s'.runs == s.runs[Loc(p.chunk, p.off / 4096) := run]
    ensures RunFor(length) == if length <= MAX_SMALL then Small(SmallBin(length)) else Large(PageCount(length))
  {
    hide NoneFits, RunPages, SmallBin, PageCount;
  }

  // A listed slot is handed out first.
  ghost predicate FromList(free: seq<seq<Ptr>>, length: nat, p: Option<Ptr>)
  {
    |free| == BINS && (length <= MAX_SMALL && free[SmallBin(length)] != [] ==> p == Some(free[SmallBin(length)][0]))
  }

  // The runs are as before but for the one at p.
  ghost predicate RunAt(s: State, s': State, p: Ptr, run: Run)
  {
    s'.runs == s.runs[Loc(p.chunk, p.off / 4096) := run]
  }

  // The run that serves a request when no slot is listed for it.
  function RunFor(length: nat): Run
  {
    if length <= MAX_SMALL then Small(SmallBin(length)) else Large(PageCount(length))
  }

  lemma CarvedRuns(s: State, l: Loc, b: Bin, data: seq<bv8>)
    requires |s.free| == BINS && l in s.runs
    ensures Carve(s, l, b, data).runs == s.runs[l := Small(b)]
    ensures Carve(s, l, b, data).ring == s.ring && Carve(s, l, b, data).cached == s.cached
    ensures Busy(s) ==> Busy(Carve(s, l, b, data))
  {
    BusySame(s, Carve(s, l, b, data));
    hide Busy, NewSlots, NewFree;
  }

  lemma PoppedRuns(s: State, b: Bin, data: seq<bv8>)
    requires |s.free| == BINS && s.free[b] != []
    ensures Pop(s, b, data).runs == s.runs && Pop(s, b, data).ring == s.ring
    ensures Pop(s, b, data).cached == s.cached
    ensures Busy(s) ==> Busy(Pop(s, b, data))
  {
    BusySame(s, Pop(s, b, data));
    hide Busy;
  }

  // How a refusal comes about. In a heap in order, the limit refuses a request exactly if it is stuck; it has then been
  // left with nothing to collect.
  ghost predicate Denied(stuck: bool, proper: bool, none: bool, byLimit: bool, s: State, s': State)
  {
    && (stuck ==> none && byLimit)
    && (none && byLimit && proper ==> stuck)
    && (none && byLimit ==> MaybeCollected(s, s') && Garbage(s') == {})
  }

  lemma DeniedIs(stuck: bool, proper: bool, none: bool, byLimit: bool, s: State, s': State)
    ensures Denied(stuck, proper, none, byLimit, s, s') <==>
      && (stuck ==> none && byLimit)
      && (none && byLimit && proper ==> stuck)
      && (none && byLimit ==> MaybeCollected(s, s') && Garbage(s') == {})
  {
    hide MaybeCollected, Garbage;
  }

  lemma CorneredIs(h: Heap)
    ensures h.Cornered() <==>
      !h.overflow && h.cachedChunks == [] && h.realSize + CHUNK > h.limit && !h.Yields()
    ensures h.Yields() <==> Emptied(h.st) >= 2 || (Emptied(h.st) == 1 && (h.realSize <= h.limit || h.Delays()))
    ensures h.Proper() <==> (h.overflow || h.realSize <= h.limit + CHUNK) && Busy(h.st)
    ensures CHUNK == 2097152
  {
    hide Emptied, Busy, h.Delays;
  }

  // Where there is nothing to collect, a collection makes no way.
  lemma NothingLeft(h: Heap)
    requires h.Shape()
    ensures h.Cornered() <==> !h.overflow && h.cachedChunks == [] && h.realSize + CHUNK > h.limit && !h.Yields()
    ensures Busy(h.st) && Garbage(h.st) == {} ==> Emptied(h.st) == 0 && !h.Yields()
  {
    hide *;
    Shaped(h);
    CorneredIs(h);
    EmptiedIs(h.st);
    if Busy(h.st) && Garbage(h.st) == {} { NothingSpent(h.st); }
  }

  lemma CachedCount(h: Heap)
    requires h.Shape()
    ensures |h.cachedChunks| == |h.st.cached| && |h.ring| == |h.st.ring| && ChunksLost(h.st, h.st) == 0
  {
    Shaped(h);
    ShapeParts(h.st, h.ring, h.cachedChunks, h.freeSlot, h.hugeList);
    MapsAre(h.ring);
    MapsAre(h.cachedChunks);
    hide *;
    LostAre(h.st, h.st);
  }

  lemma MaybeShorter(s: State, s': State)
    requires MaybeCollected(s, s')
    ensures s' != s ==> Emptied(s) == |s.ring| - |s'.ring|
    ensures s' != s && Reclaimable(s) ==> |s'.ring| < |s.ring|
    ensures |s'.ring| <= |s.ring|
    ensures !Reclaimable(s) ==> s'.ring == s.ring
  {
    hide Garbage, Collect, SweptRing, Reclaimable;
    SweptShorter(s);
    EmptiedIs(s);
  }

  // A moment in the allocation of a huge block: the memory charged, and the heap.
  datatype Moment = Moment(realSize: int, state: State)
  {
    // No slot for the entry of a huge block is listed, no chunk is cached, and no page is free.
    ghost predicate Starved()
    {
      |state.free| == BINS && state.free[NODE_BIN] == [] && state.cached == [] && !RunFree(state, 1)
    }
  }

  function ChunksLost(s: State, s': State): int
  {
    |s.ring| + |s.cached| - |s'.ring| - |s'.cached|
  }

  lemma LostAre(s: State, s': State)
    ensures ChunksLost(s, s') == |s.ring| + |s.cached| - |s'.ring| - |s'.cached|
  {}

  lemma RealByChunks(h: Heap)
    requires h.Shape() && h.RealOk()
    ensures h.realSize == (|h.st.ring| + |h.st.cached| - h.uncharged) * CHUNK + HugeBytes(h.hugeList)
    ensures CHUNK == 2097152 && |h.st.ring| == |h.ring| && |h.st.cached| == |h.cachedChunks|
    ensures Numbers(h.cachedChunks) == h.st.cached
  {
    RealIs(h);
    Shaped(h);
    ShapeParts(h.st, h.ring, h.cachedChunks, h.freeSlot, h.hugeList);
    MapsAre(h.ring);
    MapsAre(h.cachedChunks);
    hide *;
    Constants();
  }

  ghost predicate PageUsed(runs: map<Loc, Run>, chunk: nat, page: nat)
  {
    exists l :: l in runs && l.chunk == chunk && l.page <= page < l.page + Length(runs[l])
  }

  // count pages from page q of a chunk on are used by no run.
  ghost predicate PagesFree(runs: map<Loc, Run>, chunk: nat, q: nat, count: nat)
  {
    1 <= q && q + count <= PAGES && forall i :: q <= i < q + count ==> !PageUsed(runs, chunk, i)
  }

  ghost predicate RunFree(s: State, count: nat)
  {
    exists c: nat, q: nat :: c in s.ring && PagesFree(s.runs, c, q, count)
  }

  lemma StarvedIs(h: Heap)
    requires h.Valid()
    ensures |h.freeSlot| == BINS && h.Now() == Moment(h.realSize, h.st)
    ensures h.Now().Starved() <==>
      h.freeSlot[NODE_BIN] == [] && h.cachedChunks == [] && NoneFits(Maps(h.ring), BinPages(NODE_BIN))
  {
    hide *;
    ValidParts(h);
    Shaped(h);
    ShapeParts(h.st, h.ring, h.cachedChunks, h.freeSlot, h.hugeList);
    NodePages();
    MapsAre(h.cachedChunks);
    PagesFit(h.st, h.ring, 1);
    NowIs(h);
  }

  lemma NowIs(h: Heap)
    ensures h.Now() == Moment(h.realSize, h.st)
    ensures h.Now().Starved() <==>
      |h.st.free| == BINS && h.st.free[NODE_BIN] == [] && h.st.cached == [] && !RunFree(h.st, 1)
  {
    hide RunFree;
  }

  // The bitmaps have room for a number of pages exactly if the runs leave them.
  lemma PagesFit(s: State, ring: seq<Chunk>, count: nat)
    requires Numbers(ring) == s.ring && (forall c :: c in ring ==> InUse(c, s.runs)) && 0 < count
    ensures NoneFits(Maps(ring), count) <==> !RunFree(s, count)
  {
    hide *;
    MapsAre(ring);
    NoneFitsIs(Maps(ring), count);
    RunFreeIs(s, count);
    forall k | 0 <= k < |ring|
      ensures NoFit(Maps(ring)[k], count) <==> forall q: nat :: !PagesFree(s.runs, s.ring[k], q, count)
    {
      PagesFitIn(ring[k], s.runs, count);
    }
    if RunFree(s, count) {
      var c: nat, q: nat :| c in s.ring && PagesFree(s.runs, c, q, count);
      var k :| 0 <= k < |s.ring| && s.ring[k] == c;
    }
  }

  lemma RunFreeIs(s: State, count: nat)
    ensures RunFree(s, count) <==> exists c: nat, q: nat :: c in s.ring && PagesFree(s.runs, c, q, count)
  {
    hide PagesFree;
  }

  lemma PagesFitIn(c: Chunk, runs: map<Loc, Run>, count: nat)
    requires InUse(c, runs) && 0 < count
    ensures NoFit(c.freeMap[..], count) <==> forall q: nat :: !PagesFree(runs, c.number, q, count)
  {
    hide *;
    UseParts(c, runs);
    Bounds(c);
    NoFitMeansNone(c.freeMap[..], count);
    forall q: nat ensures Free(c.freeMap[..], q, count) <==> PagesFree(runs, c.number, q, count) {
      forall i: nat ensures Free(c.freeMap[..], i, 1) <==> 1 <= i < PAGES && !PageUsed(runs, c.number, i) {
        FreePage(c.freeMap[..], c.freePages, c.number, c.runs, runs, i);
      }
      FreeEach(c.freeMap[..], runs, c.number, q, count);
    }
  }

  lemma FreeEach(words: seq<bv64>, runs: map<Loc, Run>, number: nat, q: nat, count: nat)
    requires forall i: nat :: Free(words, i, 1) <==> 1 <= i < PAGES && !PageUsed(runs, number, i)
    requires 0 < count && |words| == 8
    ensures Free(words, q, count) <==> PagesFree(runs, number, q, count)
  {
    hide At, PageUsed;
    if Free(words, q, count) {
      forall i | q <= i < q + count ensures Free(words, i, 1) {}
      assert Free(words, q, 1);
    }
    if PagesFree(runs, number, q, count) {
      forall i | q <= i < q + count ensures !At(words, i) { assert Free(words, i, 1); }
    }
  }

  lemma FreePage(words: seq<bv64>, freePages: int, number: nat, local: map<nat, Run>, runs: map<Loc, Run>, q: nat)
    requires MapOk(words, freePages, Lengths(local)) && Matches(number, local, runs) && |words| == 8
    ensures Free(words, q, 1) <==> 1 <= q < PAGES && !PageUsed(runs, number, q)
  {
    hide At, Length;
    assert q in Members(words) <==> q < 512 && At(words, q);
    assert Free(words, q, 1) <==> q < 512 && q !in Members(words);
    if Spans.Covered(Lengths(local), q) {
      var p :| p in Lengths(local) && p <= q < p + Lengths(local)[p];
      assert Loc(number, p) in runs;
    }
    if PageUsed(runs, number, q) {
      var l :| l in runs && l.chunk == number && l.page <= q < l.page + Length(runs[l]);
      assert l == Loc(number, l.page) && l.page in Lengths(local);
    }
  }

  // What a request adds to the drift: nothing if it succeeds. A small one that fails stays charged, and so does the
  // entry of a huge block that could not be allocated.
  ghost predicate Settled(some: bool, length: nat, drift: int, drift': int, unlisted: int, unlisted': int)
  {
    && unlisted <= unlisted' <= unlisted + 1
    && (some || length <= MAX_LARGE ==> unlisted' == unlisted)
    && drift' == drift + (if !some && length <= MAX_SMALL then BlockSize(length) else 0) +
                 (if unlisted' > unlisted then BinSize(NODE_BIN) else 0)
  }

  lemma SettledSmall(length: nat, drift: int, unlisted: int)
    requires length <= MAX_SMALL
    ensures Settled(true, length, drift, drift, unlisted, unlisted)
    ensures Settled(false, length, drift, drift + BlockSize(length), unlisted, unlisted)
  {
    hide BlockSize, BinSize;
  }

  lemma SettledCases()
    ensures forall some, length: nat, drift, drift', unlisted, unlisted' ::
      Settled(some, length, drift, drift', unlisted, unlisted') <==>
      (unlisted <= unlisted' <= unlisted + 1 && (some || length <= MAX_LARGE ==> unlisted' == unlisted) &&
       drift' == drift + (if !some && length <= MAX_SMALL then BlockSize(length) else 0) +
                 (if unlisted' > unlisted then BinSize(NODE_BIN) else 0))
    ensures MAX_SMALL < MAX_LARGE
  {
    hide BlockSize, BinSize;
  }

  // What a request may add to the memory charged: a chunk, and the region if it is huge.
  function Need(length: nat): nat
  {
    if length <= MAX_LARGE then CHUNK else Aligned(length)
  }

  // What a request that is served may add to the memory charged.
  function Cost(length: nat): nat
  {
    CHUNK + if length <= MAX_LARGE then 0 else Aligned(length)
  }

  lemma CostIs(length: nat)
    ensures Cost(length) == CHUNK + if length <= MAX_LARGE then 0 else Aligned(length)
  {
    hide Aligned;
  }

  lemma NeedIs(length: nat)
    ensures Need(length) == if length <= MAX_LARGE then CHUNK else Aligned(length)
    ensures length <= MAX_SMALL ==> length <= MAX_LARGE
  {
    hide Aligned;
  }

  lemma PlacedInChunk(h: Heap, s: State, p: Ptr, n: nat)
    requires h.Shape() && BlockAdded(s, h.st, p, n)
    ensures p.off != 0
  {
    hide *;
    Shaped(h);
    AddedFirst(s, h.st, p, n);
    HugeByOffset(h.st, p);
  }

  lemma PlacedApart(h: Heap, s: State, p: Ptr, data: seq<bv8>)
    requires h.Shape() && HugeEntered(s, h.st, p, data)
    ensures p.off == 0
  {
    Shaped(h);
    hide h.Shape, ShapeOf, Inv;
    assert p in h.st.live && h.st.live[p].kind == HugeBlock;
    HugeByOffset(h.st, p);
  }

  lemma Constants()
    ensures PAGE == 4096 && CHUNK == 2097152 && PAGES == 512 && BINS == 30
  {}

  lemma SlotKind(s: State, p: Ptr)
    requires Inv(s) && p in s.slots && p in s.live
    ensures s.live[p].kind == SmallBlock
  {
    hide ChunksOk, RunsOk, SlotsOk, FreeOk, HugeOk, RegionsOk, BlockOk;
  }

  lemma PushParts(s: State, p: Ptr)
    requires |s.free| == BINS && p in s.slots
    ensures Push(s, p).live == s.live - {p} && Push(s, p).huge == s.huge && Push(s, p).ring == s.ring
    ensures Push(s, p).runs == s.runs
  {}

  lemma ValidParts(h: Heap)
    requires h.Valid()
    ensures h.Shape() && h.RealOk() && h.Pinned() && h.SizeOk() && Sized(h.size, h.st.live, h.drift)
      && Pins(h.st, h.pin) && Busy(h.st) && (h.overflow || h.realSize <= h.limit + CHUNK) && h.Proper()
  {}

  lemma ValidIs(h: Heap)
    requires h.Shape() && h.RealOk() && h.Pinned() && Sized(h.size, h.st.live, h.drift) && Busy(h.st)
    requires h.overflow || h.realSize <= h.limit + CHUNK
    ensures h.Valid()
  {}

  lemma PinFreed(h: Heap, before: State, p: Ptr)
    requires Pins(before, h.pin) && p != h.pin && h.st.live == before.live - {p} && h.st.huge == before.huge
      && h.st.ring == before.ring
    ensures h.Pinned()
  {}

  lemma RealIs(h: Heap)
    ensures h.RealOk() <==>
      && h.chunksCount == |h.ring| && h.cachedChunksCount == |h.cachedChunks| && h.chunksCount <= h.peakChunksCount
      && h.realSize == (h.chunksCount + h.cachedChunksCount - h.uncharged) * CHUNK + HugeBytes(h.hugeList)
      && h.uncharged < h.chunksCount + h.cachedChunksCount
      && (h.uncharged > 0 ==> h.uncharged as real + 0.9 <= h.avgChunksCount)
  {
    hide HugeBytes;
  }

  lemma HugeSizeIs(s: State, i: nat)
    requires Inv(s) && i < |s.huge|
    ensures s.huge[i].ptr in s.live && s.huge[i].size == |s.live[s.huge[i].ptr].data|
  {
    hide *;
    HugeIsNoSlot(s, i);
  }

  // Huge block i and the small block that holds its entry.
  lemma HugeNode(h: Heap, i: nat)
    requires h.Shape() && i < |h.hugeList|
    ensures h.hugeList == h.st.huge && h !in Objects(h.ring) && h !in Objects(h.cachedChunks)
    ensures var e := h.hugeList[i];
      && e.ptr in h.st.live && h.st.live[e.ptr].kind == HugeBlock && e.size == |h.st.live[e.ptr].data|
      && e.node != e.ptr && e.ptr !in h.st.slots
      && e.node in h.st.slots && h.st.slots[e.node].bin == NODE_BIN && e.node in h.st.live
      && h.st.live[e.node].kind == SmallBlock && |h.st.live[e.node].data| == BinSize(NODE_BIN)
  {
    hide *;
    Shaped(h);
    HugeIsNoSlot(h.st, i);
    NodeParts(h.st, i);
    SlotKind(h.st, h.hugeList[i].node);
    BlockIs(h.st, h.hugeList[i].node);
  }

  lemma Unlisted(h: Heap, i: nat)
    requires h.Shape() && i < |h.hugeList| && h.hugeList == h.st.huge
    ensures ShapeOf(RemoveHuge(h.st, i), h.ring, h.cachedChunks, h.freeSlot, Without(h.hugeList, i))
    ensures RemoveHuge(h.st, i).live == h.st.live - {h.hugeList[i].ptr} && RemoveHuge(h.st, i).slots == h.st.slots
    ensures RemoveHuge(h.st, i).huge == Without(h.hugeList, i) && RemoveHuge(h.st, i).ring == h.st.ring
    ensures RemoveHuge(h.st, i).runs == h.st.runs
    ensures !IsNode(RemoveHuge(h.st, i), h.hugeList[i].node)
  {
    Shaped(h);
    hide Inv, ShapeOf, Without;
    RemoveHugeInv(h.st, i);
    Reshaped(h.st, RemoveHuge(h.st, i), h.ring, h.cachedChunks, h.freeSlot, h.hugeList);
  }

  lemma SizeIs(h: Heap)
    ensures h.SizeOk() <==> Sized(h.size, h.st.live, h.drift)
  {}

  // The charge for a small block is right whether it becomes live or only adds to the drift.
  lemma ChargeSmall(h: Heap, bin: Bin, data: seq<bv8>)
    requires Sized(h.size, h.st.live, h.drift) && |data| == BinSize(bin)
    ensures Sized(h.size + BinSize(bin), h.st.live, h.drift + BinSize(bin))
    ensures forall p :: p !in h.st.live ==>
      Sized(h.size + BinSize(bin), h.st.live[p := Block(SmallBlock, data)], h.drift)
  {
    hide Bytes, BinSize;
    forall p | p !in h.st.live ensures Sized(h.size + BinSize(bin), h.st.live[p := Block(SmallBlock, data)], h.drift) {
      SizedPut(h.size, h.st.live, h.drift, p, Block(SmallBlock, data));
    }
  }

  lemma AlignedIs(length: nat)
    ensures Aligned(length) == PageCount(length) * PAGE
  {}

  lemma Listed(h: Heap, node: Ptr, p: Ptr, length: nat, data: seq<bv8>)
    requires h.Shape() && p.off == 0 && 0 < length && length % 4096 == 0 && |data| == length
      && Unmapped(h.st, p.chunk, Units(length))
    requires node in h.st.slots && h.st.slots[node].bin == NODE_BIN && node in h.st.live && !IsNode(h.st, node)
    ensures ShapeOf(AddHuge(h.st, Huge(node, p, length), data), h.ring, h.cachedChunks, h.freeSlot,
      [Huge(node, p, length)] + h.hugeList)
    ensures p !in h.st.live && p !in h.st.slots && h !in Objects(h.ring) && h !in Objects(h.cachedChunks)
    ensures HugeBytes([Huge(node, p, length)] + h.hugeList) == length + HugeBytes(h.hugeList)
  {
    hide *;
    Constants();
    Shaped(h);
    NotNode(h.st, node);
    UnitsPositive(length);
    UnmappedIsUnused(h.st, p, Units(length));
    AddHugeInv(h.st, Huge(node, p, length), data);
    AddedHugeParts(h.st, Huge(node, p, length), data);
    Reshaped(h.st, AddHuge(h.st, Huge(node, p, length), data), h.ring, h.cachedChunks, h.freeSlot, h.hugeList);
    HugeBytesPut(h.hugeList, Huge(node, p, length));
  }

  lemma HugeBytesPut(huge: seq<Huge>, e: Huge)
    ensures HugeBytes([e] + huge) == e.size + HugeBytes(huge)
  {
    assert ([e] + huge)[1..] == huge;
  }

  lemma AddedHugeParts(s: State, e: Huge, data: seq<bv8>)
    ensures AddHuge(s, e, data).(live := s.live, huge := s.huge) == s
    ensures AddHuge(s, e, data).huge == [e] + s.huge
    ensures AddHuge(s, e, data).live == s.live[e.ptr := Block(HugeBlock, data)]
  {}

  lemma TrimmedValid(h: Heap, before: State)
    requires Trimmed(before, h.st) && Sized(h.size, before.live, h.drift)
    ensures Sized(h.size, h.st.live, h.drift) && h.SizeOk() && h.st.live == before.live && h.st.huge == before.huge
    ensures h.Shape() && h.RealOk() && h.Pinned() && Busy(h.st) && (h.overflow || h.realSize <= h.limit + CHUNK) ==>
      h.Valid()
  {
    hide Sized, ShapeOf;
  }

  // A slot just allocated holds no list entry yet.
  lemma NodeFits(h: Heap, before: State, s: State, node: Ptr, held: seq<bv8>)
    requires Inv(before) && Trimmed(before, s) && SmallAdded(s, h.st, node, NODE_BIN, held)
    ensures node in h.st.slots && h.st.slots[node].bin == NODE_BIN && node in h.st.live && !IsNode(h.st, node)
  {
    hide Inv;
    if IsNode(before, node) { NodeLive(before, node); }
  }

  lemma MainFullIs(h: Heap)
    ensures h.MainFull() <==> |h.ring| == 1 && h.cachedChunks == [] && Fills(h.st, h.pin)
  {}

  ghost predicate Fills(s: State, p: Ptr)
  {
    p in s.live && s.live[p].kind == LargeBlock && |s.live[p].data| == 511 * PAGE
  }

  lemma FillsStill(s: State, s': State, p: Ptr)
    requires Trimmed(s, s')
    ensures Fills(s, p) <==> Fills(s', p)
  {}

  lemma EnteredSince(before: State, middle: State, after: State, p: Ptr, data: seq<bv8>)
    requires middle.live == before.live && middle.huge == before.huge && HugeEntered(middle, after, p, data)
    ensures HugeEntered(before, after, p, data)
  {}

  lemma SameLiveOn(before: State, middle: State, after: State)
    requires middle.live == before.live && middle.huge == before.huge && SameLive(middle, after)
    ensures SameLive(before, after)
  {}

  lemma MainHolds(s: State, p: Ptr)
    requires Inv(s) && p in Blocks(s) && s.ring != [] && p.chunk == s.ring[0]
    ensures Pins(s, p)
  {
    BlocksAre(s, p);
    NotNode(s, p);
    hide Inv, Blocks, IsNode;
    HugeElsewhere(s, p);
  }

  lemma HugeElsewhere(s: State, p: Ptr)
    requires Inv(s) && p in s.live && p.chunk in s.ring
    ensures s.live[p].kind != HugeBlock
  {
    hide RunsOk, SlotsOk, FreeOk, ChunksOk, Units;
    assert BlockOk(s.runs, s.slots, s.huge, p, s.live[p]);
    forall i | 0 <= i < |s.huge| ensures s.huge[i].ptr != p {
      UnitsPositive(s.huge[i].size);
      assert p.chunk in s.ring + s.cached;
      assert Outside(s.ring + s.cached, s.huge[i].ptr.chunk, Units(s.huge[i].size));
    }
  }

  // A main chunk that is full has no slots, and no page is free.
  lemma FullStarves(h: Heap)
    requires h.Valid() && h.MainFull()
    ensures h.Now().Starved()
  {
    hide *;
    ValidParts(h);
    MainFullIs(h);
    NowIs(h);
    Shaped(h);
    ShapeParts(h.st, h.ring, h.cachedChunks, h.freeSlot, h.hugeList);
    MapsAre(h.ring);
    MapsAre(h.cachedChunks);
    OnlyRun(h.st, h.pin);
    NoFreeSlots(h.st, NODE_BIN);
    NothingFree(h.st);
  }

  lemma NothingFree(s: State)
    requires |s.ring| == 1 && s.runs == map[Loc(s.ring[0], 1) := Large(511)]
    ensures !RunFree(s, 1)
  {
    hide PageUsed;
    forall c: nat, q: nat | c in s.ring ensures !PagesFree(s.runs, c, q, 1) {
      if 1 <= q < PAGES { OnlyRunUses(s, c, q); }
    }
  }

  lemma OnlyRunUses(s: State, c: nat, q: nat)
    requires |s.ring| == 1 && s.runs == map[Loc(s.ring[0], 1) := Large(511)] && c in s.ring && 1 <= q < PAGES
    ensures PageUsed(s.runs, c, q)
  {
    LengthLarge(511);
    assert Loc(c, 1) in s.runs;
  }

  lemma NodePages()
    ensures BinPages(NODE_BIN) == 1
  {}

  // A run of 511 pages is the only one of its chunk.
  lemma OnlyRun(s: State, p: Ptr)
    requires Inv(s) && Fills(s, p) && |s.ring| == 1
    ensures s.runs == map[Loc(s.ring[0], 1) := Large(511)]
  {
    BlockIs(s, p);
    hide *;
    var l := Loc(p.chunk, p.off / 4096);
    FillsIs(s, p);
    RunIsLarge(s.runs[l]);
    AllOfChunk(s, l);
  }

  lemma FillsIs(s: State, p: Ptr)
    ensures Fills(s, p) <==> p in s.live && s.live[p].kind == LargeBlock && |s.live[p].data| == 511 * PAGE
  {}

  lemma RunIsLarge(r: Run)
    requires r.Large?
    ensures r == Large(r.pages)
  {}

  lemma AllOfChunk(s: State, l: Loc)
    requires Inv(s) && |s.ring| == 1 && l in s.runs && s.runs[l] == Large(511)
    ensures s.runs == map[Loc(s.ring[0], 1) := Large(511)]
  {
    hide ChunksOk, SlotsOk, FreeOk, LiveOk, HugeOk, RegionsOk, Length;
    LengthLarge(511);
    assert l.chunk == s.ring[0] && l.page == 1;
    assert forall m :: m in s.runs ==> m.chunk == s.ring[0];
    assert forall m :: m in s.runs ==> m == l;
  }

  lemma HeadIn<T>(list: seq<T>)
    ensures list == [] || exists x :: x in list
  {
    assert list == [] || list[0] in list;
  }

  // No slot of a class without runs is listed.
  lemma NoFreeSlots(s: State, b: Bin)
    requires Inv(s) && forall l :: l in s.runs ==> s.runs[l] != Small(b)
    ensures |s.free| == BINS && s.free[b] == []
  {
    hide ChunksOk, RunsOk, LiveOk, HugeOk, RegionsOk;
    FreeDistinct(s, b);
    HeadIn(s.free[b]);
  }

  lemma HugeIs(before: State, s: State, s': State, after: State, node: Ptr, p: Ptr, held: seq<bv8>, data: seq<bv8>)
    requires Trimmed(before, s) && SmallAdded(s, s', node, NODE_BIN, held) && p !in s'.live
    requires after == AddHuge(s', Huge(node, p, |data|), data)
    ensures HugeEntered(before, after, p, data) && after.live == s'.live[p := Block(HugeBlock, data)]
  {}

  lemma PinHuge(h: Heap, s: State, s': State, node: Ptr, held: seq<bv8>, p: Ptr, data: seq<bv8>)
    requires Pins(s, h.pin) && SmallAdded(s, s', node, NODE_BIN, held) && p !in s'.live
    requires h.st == AddHuge(s', Huge(node, p, |data|), data)
    ensures h.Pinned()
  {}

  lemma ValidAgain(h: Heap)
    requires h.Shape() && h.RealOk() && h.SizeOk() && h.Pinned() && Busy(h.st)
    requires h.overflow || h.realSize <= h.limit + CHUNK
    ensures h.Valid()
  {}

  lemma BlockPlace(h: Heap, p: Ptr)
    requires h.Shape() && (p == NULL || p in Blocks(h.st))
    ensures p != NULL ==> p in h.st.live && !IsNode(h.st, p) && (p.off == 0 <==> h.st.live[p].kind == HugeBlock)
    ensures p == NULL ==> p.off == 0 && p !in Blocks(h.st)
  {
    hide *;
    Shaped(h);
    NullIs();
    BlocksAre(h.st, p);
    if p in h.st.live { HugeByOffset(h.st, p); }
  }

  lemma Overwritten(h: Heap, p: Ptr, data: seq<bv8>)
    requires h.Shape() && h.SizeOk() && p in h.st.live && |data| == |h.st.live[p].data|
    ensures ShapeOf(Write(h.st, p, data), h.ring, h.cachedChunks, h.freeSlot, h.hugeList)
    ensures h !in Objects(h.ring) && h !in Objects(h.cachedChunks)
    ensures Sized(h.size, Write(h.st, p, data).live, h.drift)
  {
    hide *;
    Shaped(h);
    SizeIs(h);
    WriteInv(h.st, p, data);
    WriteParts(h.st, p, data);
    Reshaped(h.st, Write(h.st, p, data), h.ring, h.cachedChunks, h.freeSlot, h.hugeList);
    SizedPut(h.size, h.st.live, h.drift, p, h.st.live[p].(data := data));
  }

  // The size of a small block tells its class.
  lemma SlotOfClass(s: State, p: Ptr, b: Bin)
    requires Inv(s) && p in s.live && s.live[p].kind == SmallBlock && |s.live[p].data| == BinSize(b)
    ensures p in s.slots && s.slots[p].bin == b
  {
    hide *;
    Constants();
    BlockIs(s, p);
    var c := s.slots[p].bin;
    if c < b { ClassSizesIncrease(c, b); }
    if b < c { ClassSizesIncrease(b, c); }
  }

  // How many of its first bytes a block keeps.
  function Carried(size: nat, copySize: nat, length: nat): nat
  {
    Least(Least(size, copySize), length)
  }

  // A block of the given size stays where it is whatever else the heap holds: a small one that fits its class and is no
  // smaller than the classes below; a large or huge one that stays at its level and needs no more pages.
  ghost predicate Stays(p: Ptr, size: nat, length: nat)
  {
    if p.off == 0 then MAX_LARGE < length && Aligned(length) <= size
    else if MAX_SMALL < size then MAX_SMALL < length <= MAX_LARGE && Aligned(length) <= size
    else length <= size && forall b: Bin :: BinSize(b) < size ==> BinSize(b) <= length
  }

  // A large block also stays where it is if the pages behind it are free.
  ghost predicate KeepsPlace(s: State, p: Ptr, length: nat)
  {
    && p in Blocks(s)
    && (Stays(p, |Blocks(s)[p].data|, length) ||
        (p.off != 0 && MAX_SMALL < |Blocks(s)[p].data| && MAX_SMALL < length <= MAX_LARGE &&
         RoomBehind(s, Loc(p.chunk, p.off / PAGE), PageCount(length))))
  }

  // The size of the block afterwards: a small one that stays keeps its size.
  ghost function NewSize(p: Ptr, size: nat, length: nat): (n: nat)
  {
    if p.off != 0 && size <= MAX_SMALL && Stays(p, size, length) then size else BlockSize(length)
  }

  lemma NewSizeEnough(p: Ptr, size: nat, length: nat)
    ensures length <= NewSize(p, size, length)
  {
    BlockSizeEnough(length);
    hide BlockSize, BinSize;
  }

  lemma StaysHuge(p: Ptr, size: nat, length: nat)
    requires p.off == 0
    ensures Stays(p, size, length) <==> MAX_LARGE < length && Aligned(length) <= size
    ensures NewSize(p, size, length) == BlockSize(length)
  {
    hide BlockSize, Aligned;
  }

  lemma StaysLarge(p: Ptr, count: nat, length: nat)
    requires p.off != 0 && MAX_SMALL < count * PAGE
    ensures Stays(p, count * PAGE, length) <==> MAX_SMALL < length <= MAX_LARGE && PageCount(length) <= count
    ensures NewSize(p, count * PAGE, length) == BlockSize(length)
  {
    hide BlockSize, PageCount;
  }

  lemma StaysSmall(p: Ptr, bin: Bin, length: nat)
    requires p.off != 0
    ensures BinSize(bin) <= MAX_SMALL
    ensures Stays(p, BinSize(bin), length) <==>
      length <= BinSize(bin) && (bin == 0 || BinSize(bin - 1) <= length)
    ensures NewSize(p, BinSize(bin), length) ==
      if Stays(p, BinSize(bin), length) then BinSize(bin) else BlockSize(length)
  {
    LastBin(bin);
    if bin > 0 { ClassSizesIncrease(bin - 1, bin); }
    forall b: Bin | BinSize(b) < BinSize(bin) ensures bin > 0 && BinSize(b) <= BinSize(bin - 1) {
      if b > bin { ClassSizesIncrease(bin, b); }
      if b < bin - 1 { ClassSizesIncrease(b, bin - 1); }
    }
    hide BinSize, BlockSize;
  }

  lemma LargePlace(p: Ptr, number: nat, page: nat)
    requires p == RunPtr(Loc(number, page))
    ensures Loc(p.chunk, p.off / PAGE) == Loc(number, page)
  {}

  lemma KeepsPlaceIs(s: State, p: Ptr, length: nat)
    ensures KeepsPlace(s, p, length) <==>
      && p in Blocks(s)
      && (Stays(p, |Blocks(s)[p].data|, length) ||
          (p.off != 0 && MAX_SMALL < |Blocks(s)[p].data| && MAX_SMALL < length <= MAX_LARGE &&
           RoomBehind(s, Loc(p.chunk, p.off / PAGE), PageCount(length))))
  {
    hide Stays, RoomBehind, PageCount, Blocks;
  }

  // A block that leaves its level for a smaller one is copied as far as the copy size says, though the new block may
  // have no room for that.
  predicate Spills(p: Ptr, size: nat, copySize: nat, length: nat)
  {
    && ((p.off == 0 && length <= MAX_LARGE) || (MAX_SMALL < size && length <= MAX_SMALL))
    && Least(size, copySize) > BlockSize(length)
  }

  lemma SpillsIs(p: Ptr, size: nat, copySize: nat, length: nat)
    ensures Spills(p, size, copySize, length) <==>
      && ((p.off == 0 && length <= MAX_LARGE) || (MAX_SMALL < size && length <= MAX_SMALL))
      && Least(size, copySize) > BlockSize(length)
  {
    hide BlockSize, Least;
  }

  // A large run has at least a page, and fits a chunk.
  lemma LargeSize(s: State, l: Loc, count: nat, length: nat)
    requires Inv(s) && l in s.runs && s.runs[l] == Large(count)
    ensures MAX_SMALL < count * PAGE <= MAX_LARGE && 1 <= count <= 511
    ensures MAX_LARGE < length || count < PageCount(length) ==> count * PAGE <= length
  {
    hide ChunksOk, SlotsOk, FreeOk, LiveOk, HugeOk, RegionsOk, Length;
    LengthLarge(count);
  }

  lemma CarriedIs(size: nat, copySize: nat, length: nat)
    ensures Carried(size, copySize, length) <= Least(size, copySize)
      && Carried(size, copySize, length) <= Least(size, length)
    ensures length <= size ==> Carried(size, copySize, length) == Least(length, copySize)
    ensures size <= length ==> Carried(size, copySize, length) == Least(size, copySize)
    ensures size <= length && copySize == length ==> Carried(size, copySize, length) == size
    ensures Carried(size, copySize, length) <= size
  {}

  lemma LeastIs(a: nat, b: nat)
    ensures Least(a, b) == if a < b then a else b
  {}

  lemma ResizedParts(s: State, l: Loc, n: nat, data: seq<bv8>)
    ensures ResizeLarge(s, l, n, data).live == s.live[RunPtr(l) := Block(LargeBlock, data)]
    ensures ResizeLarge(s, l, n, data).huge == s.huge && ResizeLarge(s, l, n, data).ring == s.ring
    ensures forall q :: IsNode(ResizeLarge(s, l, n, data), q) <==> IsNode(s, q)
  {
    SameNodes(s, ResizeLarge(s, l, n, data));
    hide IsNode;
  }

  lemma ResizedBusy(s: State, l: Loc, n: nat, data: seq<bv8>)
    requires l in s.runs
    ensures Busy(s) ==> Busy(ResizeLarge(s, l, n, data))
  {
    BusySame(s, ResizeLarge(s, l, n, data));
    hide Busy;
  }

  // Resized contents keep what fits of the old ones.
  lemma FittedKeeps(data: seq<bv8>, n: nat, size: nat, length: nat)
    requires |data| == size && length <= n
    ensures Fitted(data, n)[..Least(size, length)] == data[..Least(size, length)]
  {
    var r := Fitted(data, n);
    assert r[..Least(size, n)][..Least(size, length)] == r[..Least(size, length)];
    assert data[..Least(size, n)][..Least(size, length)] == data[..Least(size, length)];
  }

  lemma PinResized(h: Heap, before: State, p: Ptr, b: Block)
    requires Pins(before, h.pin) && p in before.live && h.st.live == before.live[p := b] && h.st.huge == before.huge
    requires h.st.ring == before.ring && b.kind == before.live[p].kind
    ensures h.Pinned()
  {}

  lemma HugeListSame(h: Heap, before: State)
    requires h.Shape() && SameLive(before, h.st)
    ensures h.hugeList == before.huge && h.st.huge == before.huge && h.st.live == before.live
  {
    Shaped(h);
    hide h.Shape, ShapeOf, Inv;
  }

  lemma SameBefore(before: State, s: State, s': State, p: Ptr, q: Ptr, n: nat, keep: nat)
    requires Blocks(s) == Blocks(before) && Reallocated(s, s', p, q, n, keep)
    ensures Reallocated(before, s', p, q, n, keep)
  {
    hide Blocks;
  }

  lemma HugeResizable(h: Heap, i: nat, length: nat, data: seq<bv8>)
    requires h.Shape() && i < |h.hugeList| && 0 < length && length % 4096 == 0 && |data| == length
    requires length <= h.hugeList[i].size || h.IsExtensible(i, length)
    ensures i < |h.st.huge| && h.hugeList == h.st.huge
    ensures ShapeOf(ResizeHuge(h.st, i, length, data), h.ring, h.cachedChunks, h.freeSlot,
      h.hugeList[i := h.hugeList[i].(size := length)])
  {
    hide *;
    Constants();
    Shaped(h);
    if length <= h.hugeList[i].size { SmallerIsExtensible(h.st, i, length); } else { TailIsFree(h, i, length); }
    ResizeHugeInv(h.st, i, length, data);
    ResizedNodes(h.st, i, length, data);
    Reshaped(h.st, ResizeHuge(h.st, i, length, data), h.ring, h.cachedChunks, h.freeSlot, h.hugeList);
  }

  lemma TailIsFree(h: Heap, i: nat, length: nat)
    requires h.Shape() && i < |h.hugeList| && h.IsExtensible(i, length)
    ensures h.hugeList == h.st.huge && Extensible(h.st, i, length)
  {
    hide ShapeOf, Inv, Units;
    Shaped(h);
    ShapeParts(h.st, h.ring, h.cachedChunks, h.freeSlot, h.hugeList);
    var start, units := h.hugeList[i].ptr.chunk, Units(length);
    forall n | n in h.st.ring + h.st.cached ensures !(start <= n < start + units) {
      if n in h.st.ring {
        var i := NumbersOf(h.ring, n);
        assert h.ring[i] in h.ring;
      } else {
        var i := NumbersOf(h.cachedChunks, n);
        assert h.cachedChunks[i] in h.cachedChunks;
      }
    }
  }

  lemma PinResizedHuge(h: Heap, before: State, i: nat, length: nat, data: seq<bv8>)
    requires Pins(before, h.pin) && i < |before.huge| && h.st == ResizeHuge(before, i, length, data)
    requires before.huge[i].ptr in before.live && before.live[before.huge[i].ptr].kind == HugeBlock
    ensures h.Pinned()
  {}

  // Every class but the last holds less than the largest small size.
  lemma LastBin(b: Bin)
    ensures BinSize(b) <= MAX_SMALL && (b > 0 ==> BinSize(b - 1) <= BinSize(b))
  {
    hide *;
    Constants();
    LastClass();
    if b < 29 { ClassSizesIncrease(b, 29); }
    if b > 0 { ClassSizesIncrease(b - 1, b); }
  }

  lemma KeptMore(s: State, s': State, p: Ptr, q: Ptr, n: nat, more: nat, keep: nat)
    requires Reallocated(s, s', p, q, n, more) && keep <= more
    ensures Reallocated(s, s', p, q, n, keep)
  {
    hide Blocks;
    assert Blocks(s')[q].data[..more][..keep] == Blocks(s')[q].data[..keep];
    assert Blocks(s)[p].data[..more][..keep] == Blocks(s)[p].data[..keep];
  }

  lemma KeepsLess(s: State, s': State, p: Ptr, q: Ptr, length: nat, copySize: nat)
    requires p in Blocks(s)
    requires Reallocated(s, s', p, q, BlockSize(length), Carried(|Blocks(s)[p].data|, copySize, BlockSize(length)))
    ensures Reallocated(s, s', p, q, BlockSize(length), Carried(|Blocks(s)[p].data|, copySize, length))
  {
    var n := |Blocks(s)[p].data|;
    BlockSizeEnough(length);
    hide Blocks, Reallocated, BlockSize;
    KeptMore(s, s', p, q, BlockSize(length), Carried(n, copySize, BlockSize(length)), Carried(n, copySize, length));
  }

  lemma Keeps(s: State, s': State, p: Ptr, q: Ptr, length: nat, copySize: nat)
    requires p in Blocks(s) && Reallocated(s, s', p, q, BlockSize(length), Least(|Blocks(s)[p].data|, copySize))
    ensures Reallocated(s, s', p, q, BlockSize(length), Carried(|Blocks(s)[p].data|, copySize, length))
  {
    hide Blocks, Reallocated;
    var n := |Blocks(s)[p].data|;
    KeptMore(s, s', p, q, BlockSize(length), Least(n, copySize), Carried(n, copySize, length));
  }

  lemma KeepsAll(s: State, s': State, p: Ptr, length: nat)
    requires p in Blocks(s)
    requires Reallocated(s, s', p, p, BlockSize(length), Least(|Blocks(s)[p].data|, BlockSize(length)))
    ensures Reallocated(s, s', p, p, BlockSize(length), Least(|Blocks(s)[p].data|, length))
  {
    BlockSizeEnough(length);
    hide Blocks, Reallocated, BlockSize;
    var n := |Blocks(s)[p].data|;
    KeptMore(s, s', p, p, BlockSize(length), Least(n, BlockSize(length)), Least(n, length));
  }

  lemma BlankParts(h: Heap)
    requires h.Blank()
    ensures h.Shape() && h.SizeOk() && h.RealOk() && |h.ring| == 1 && h.ring[0].runs == map[] && h.st.live == map[]
    ensures h.realSize <= h.limit + CHUNK
  {
    hide ShapeOf, Inv, Bytes, HugeBytes, Sized;
    Shaped(h);
    ShapeParts(h.st, h.ring, h.cachedChunks, h.freeSlot, h.hugeList);
    NoLocalRuns(h.ring[0], h.st.runs);
  }

  lemma NoLocalRuns(c: Chunk, runs: map<Loc, Run>)
    requires InUse(c, runs) && runs == map[]
    ensures c.runs == map[]
  {
    hide Consistent, Quiet;
    assert forall p :: p in c.runs ==> Loc(c.number, p) in runs;
  }

  // The main chunk of a blank heap has room for any run.
  lemma RoomInBlank(h: Heap, length: nat)
    requires h.Blank() && length <= MAX_LARGE
    ensures h.Roomy(RunPages(length)) && h.Ready(RunPages(length)) && h.FindsRun(length)
  {
    hide *;
    BlankParts(h);
    OpenedAt(h, h.ring[0]);
    RunPagesFit(length);
    BlankFits(h.ring[0], RunPages(length));
    ReadyIs(h, RunPages(length));
    MapsAre(h.ring);
    NoneFitsIs(Maps(h.ring), RunPages(length));
    BlankRuns(h);
    StuckIs(h, length);
    if length <= MAX_SMALL { NoFreeSlots(h.st, SmallBin(length)); }
  }

  lemma BlankFits(c: Chunk, count: nat)
    requires c.Valid() && c.runs == map[] && 1 <= count <= 511
    ensures !NoFit(c.freeMap[..], count)
  {
    EmptyChunk(c);
    Bounds(c);
    hide At, MapOk;
    var words := c.freeMap[..];
    assert forall i: nat :: i < 512 ==> (At(words, i) <==> i in Members(words));
    hide Members;
    assert MaximalRun(words, 1, 511);
  }

  lemma PinIsFirst(h: Heap, before: State, p: Ptr, n: nat)
    requires BlockAdded(before, h.st, p, n) && h.Shape() && |h.ring| == 1 && before.live == map[] && p == h.pin
    requires Inv(before)
    ensures h.Pinned() && Blocks(before) == map[] && Pins(h.st, p)
  {
    hide *;
    Shaped(h);
    NumbersAre(h);
    AddedFirst(before, h.st, p, n);
    InItsRun(h.st, p);
    OnlyNumber(h);
    FirstPins(before, h.st, p, n);
    PinIs(h);
  }

  lemma PinsFirst(s: State, s': State, p: Ptr, n: nat)
    requires BlockAdded(s, s', p, n) && (Pins(s', p) || HeldBy(s', p))
    ensures s.ring != [] && p.chunk == s.ring[0]
  {}

  lemma AddedFirst(s: State, s': State, p: Ptr, n: nat)
    requires BlockAdded(s, s', p, n)
    ensures p in s'.live && s'.live[p].kind != HugeBlock
  {}

  lemma OnlyNumber(h: Heap)
    requires |h.ring| == 1 && h.st.ring == Numbers(h.ring)
    ensures forall n :: n in h.st.ring ==> n == h.st.ring[0]
  {}

  lemma NumbersAre(h: Heap)
    requires h.Shape()
    ensures h.st.ring == Numbers(h.ring)
  {
    hide Inv, Numbers;
  }

  lemma FirstPins(s: State, s': State, p: Ptr, n: nat)
    requires Inv(s) && BlockAdded(s, s', p, n) && s.live == map[] && s'.ring != [] && p.chunk == s'.ring[0]
    ensures Pins(s', p) && Blocks(s) == map[]
  {
    hide ChunksOk, RunsOk, SlotsOk, FreeOk, LiveOk, RegionsOk;
  }

  lemma CachedNext(ring: seq<Chunk>, cached: seq<Chunk>)
    requires ChunksOk(Numbers(ring), Numbers(cached)) && 1 < |ring|
    ensures ChunksOk(Numbers([ring[0]] + ring[2..]), Numbers([ring[1]] + cached))
    ensures forall c :: c in [ring[0]] + ring[2..] + ([ring[1]] + cached) ==> c in ring + cached
  {
    assert [ring[0]] + ring[2..] == Without(ring, 1);
    NumbersWithout(ring, 1);
    NumbersAdded(cached, [ring[1]] + cached, ring[1]);
    hide ChunksOk;
    DropDistinct(Numbers(ring), Numbers(cached), 1, Numbers([ring[1]] + cached));
  }

  lemma FirstChunk(c: Chunk)
    requires c.number != 0
    ensures Numbers([c]) == [c.number] && Numbers([]) == [] && ChunksOk([c.number], []) && Unshared([c] + [])
  {}

  // A heap of a blank chunk and a clean cache is blank.
  lemma BlankIs(h: Heap, c: Chunk)
    requires h.ring == [c] && c.Valid() && c.runs == map[] && Unshared(h.ring + h.cachedChunks)
    requires ChunksOk(Numbers(h.ring), Numbers(h.cachedChunks)) && forall d :: d in h.cachedChunks ==> Clean(d)
    requires h.st == NoBlocks(Numbers(h.ring), Numbers(h.cachedChunks)) && h.freeSlot == seq(BINS, _ => [])
      && h.hugeList == []
    requires h.size == 0 && h.drift == 0 && h.realSize == CHUNK && h.RealOk()
    ensures h.Blank()
  {
    hide Inv, Numbers, Unshared, Clean, ChunksOk, Consistent;
    NoBlocksInv(h.st.ring, h.st.cached);
    assert InUse(c, h.st.runs) by { hide *; UseBlank(c); }
    ShapeIs(h.st, h.ring, h.cachedChunks);
    assert h.st.free == h.freeSlot;
  }

  lemma UseBlank(c: Chunk)
    requires c.Valid() && c.runs == map[]
    ensures InUse(c, map[])
  {}

  lemma BlankCounts(h: Heap)
    requires h.chunksCount == h.peakChunksCount == |h.ring| == 1
      && h.cachedChunksCount == |h.cachedChunks| == h.uncharged
    requires h.realSize == CHUNK && h.hugeList == []
    requires h.cachedChunks == [] || |h.cachedChunks| as real + 0.9 <= h.avgChunksCount
    ensures h.RealOk()
  {}

  lemma AllChunks(h: Heap)
    requires h.Shape()
    ensures ChunksOk(Numbers(h.ring), Numbers(h.cachedChunks)) && h.ring != [] && Distinct(Numbers(h.ring))
      && Unshared(h.ring + h.cachedChunks)
    ensures forall c :: c in h.ring + h.cachedChunks ==> c.freeMap.Length == 8 && c.info.Length == 512
    ensures h !in Objects(h.ring) && h !in Objects(h.cachedChunks)
  {
    hide *;
    Shaped(h);
    ShapeParts(h.st, h.ring, h.cachedChunks, h.freeSlot, h.hugeList);
    ChunksGood(h.st);
    forall c | c in h.ring + h.cachedChunks ensures c.freeMap.Length == 8 && c.info.Length == 512 {
      if c in h.ring { UseParts(c, h.st.runs); } else { CleanParts(c); }
    }
  }

  lemma ChunksGood(s: State)
    requires Inv(s)
    ensures ChunksOk(s.ring, s.cached) && Distinct(s.ring)
  {}

  // What is left of the chunks at a shutdown: the main chunk, and some of the others in the cache.
  ghost predicate Leftover(ring: seq<Chunk>, cached: seq<Chunk>)
  {
    && Unshared(ring + cached) && Unshared(cached) && ChunksOk(Numbers(ring), Numbers(cached))
    && (forall c :: c in ring + cached ==> c.freeMap.Length == 8 && c.info.Length == 512)
    && ring != [] && Stranger(ring[0], cached)
  }

  lemma LeftoverParts(ring: seq<Chunk>, cached: seq<Chunk>)
    requires Leftover(ring, cached)
    ensures Unshared(ring + cached) && Unshared(cached) && ChunksOk(Numbers(ring), Numbers(cached))
    ensures forall c :: c in cached ==> c.freeMap.Length == 8 && c.info.Length == 512
    ensures ring != [] && Stranger(ring[0], cached) && ring[0].freeMap.Length == 8 && ring[0].info.Length == 512
  {
    hide Unshared, ChunksOk, Numbers, Stranger;
  }

  lemma LeftChunks(ring0: seq<Chunk>, cached0: seq<Chunk>, ring: seq<Chunk>, all: seq<Chunk>, cached: seq<Chunk>)
    requires Unshared(ring0 + cached0) && ring0 != [] && ring == [ring0[0]] && ChunksOk(Numbers(ring), Numbers(all))
    requires forall c :: c in all ==> c in ring0 + cached0
    requires |cached| <= |all| && cached == all[|all| - |cached|..]
    requires forall c :: c in ring0 + cached0 ==> c.freeMap.Length == 8 && c.info.Length == 512
    ensures Leftover(ring, cached) && forall c :: c in cached ==> c in ring0 + cached0
    ensures Objects(ring) + Objects(cached) <= Objects(ring0) + Objects(cached0)
  {
    hide *;
    SuffixNumbers(ring, all, cached);
    forall c | c in cached ensures c in all {}
    FewerObjects(ring0 + cached0, ring + cached);
    FewerObjects(ring0 + cached0, cached);
    ObjectsJoin(ring0, cached0);
    ObjectsJoin(ring, cached);
    NumberApart(ring, cached);
    forall d: Chunk | d in cached
      ensures d.number != ring[0].number
      && {d as object, d.freeMap, d.info} !! {ring[0] as object, ring[0].freeMap, ring[0].info} {
      Footprints(ring0 + cached0, ring[0], d);
    }
    IsStranger(ring[0], cached);
    LeftoverIs(ring, cached);
  }

  lemma LeftoverIs(ring: seq<Chunk>, cached: seq<Chunk>)
    requires Unshared(ring + cached) && Unshared(cached) && ChunksOk(Numbers(ring), Numbers(cached))
    requires forall c :: c in ring + cached ==> c.freeMap.Length == 8 && c.info.Length == 512
    requires ring != [] && Stranger(ring[0], cached)
    ensures Leftover(ring, cached)
  {}

  lemma SuffixNumbers(ring: seq<Chunk>, all: seq<Chunk>, cached: seq<Chunk>)
    requires ChunksOk(Numbers(ring), Numbers(all)) && |cached| <= |all| && cached == all[|all| - |cached|..]
    ensures ChunksOk(Numbers(ring), Numbers(cached))
  {
    assert Numbers(cached) == Numbers(all)[|all| - |cached|..];
  }

  lemma NumberApart(ring: seq<Chunk>, cached: seq<Chunk>)
    requires |ring| == 1 && ChunksOk(Numbers(ring), Numbers(cached))
    ensures forall d :: d in cached ==> d != ring[0]
  {
    forall d | d in cached ensures d != ring[0] { NumbersHas(cached, d); NumbersHas(ring, ring[0]); }
  }

  lemma BothLive(s: State, s': State, p: Ptr, q: Ptr, n: nat)
    requires p in Blocks(s) && Handed(s, s', q, n)
    ensures p in s'.live && q in s'.live && p != q && p in Blocks(s') && q in Blocks(s')
    ensures s'.live[p] == Blocks(s)[p] && |s'.live[q].data| == n
  {
    BlocksAre(s', p);
    BlocksAre(s', q);
    hide Blocks;
  }

  lemma WriteSlots(s: State, q: Ptr, data: seq<bv8>)
    requires q in s.live
    ensures Write(s, q, data).slots == s.slots
  {}

  lemma WrittenBusy(s: State, p: Ptr, data: seq<bv8>)
    requires p in s.live
    ensures Busy(s) ==> Busy(Write(s, p, data))
  {
    BusySame(s, Write(s, p, data));
    hide Busy;
  }

  lemma PinStored(h: Heap, before: State, p: Ptr, data: seq<bv8>)
    requires p in before.live && Pins(before, h.pin) && h.st == Write(before, p, data)
    ensures h.Pinned()
  {}

  lemma PinWritten(h: Heap, before: State, q: Ptr, p: Ptr, n: nat)
    requires p in before.live && q in before.live && n <= |before.live[p].data| && n <= |before.live[q].data|
    requires Pins(before, h.pin) && h.st == Write(before, q, Copied(before, q, p, n))
    ensures h.Pinned()
  {
    hide Copied;
  }

  lemma StillThere(s: State, s': State, p: Ptr, q: Ptr, n: nat)
    requires p in Blocks(s) && q in Blocks(s) && p in s.live && q in s.live && p != q
    requires n <= |s.live[p].data| && n <= |s.live[q].data| && s' == Write(s, q, Copied(s, q, p, n))
    ensures p in Blocks(s') && Blocks(s')[p] == Blocks(s)[p]
  {
    WriteParts(s, q, Copied(s, q, p, n));
    BlocksAre(s, p);
    BlocksAre(s', p);
    hide Blocks, Copied, Write, IsNode;
  }

  // The run behind a pointer just allocated lies in a chunk of the ring.
  lemma RunPlace(h: Heap, p: Ptr)
    requires h.Shape() && Loc(p.chunk, p.off / 4096) in h.st.runs
    ensures p.chunk in Numbers(h.ring) && h.Shape()
  {
    hide *;
    Shaped(h);
    ShapeParts(h.st, h.ring, h.cachedChunks, h.freeSlot, h.hugeList);
    RunsInRing(h.st);
  }

  lemma PinSmall(h: Heap, before: State, p: Ptr, bin: Bin, data: seq<bv8>)
    requires SmallAdded(before, h.st, p, bin, data)
    ensures Pins(before, h.pin) ==> h.Pinned()
  {}

  lemma PinLeft(h: Heap, before: State, p: Ptr, i: nat)
    requires Pins(before, h.pin) && i < |before.huge| && before.huge[i].ptr == p && p in before.live
      && before.live[p].kind == HugeBlock
    requires h.st.live == before.live - {p} - {before.huge[i].node} && h.st.huge == Without(before.huge, i)
      && h.st.ring == before.ring
    ensures h.Pinned()
  {}

  lemma PinDropped(h: Heap, before: State, l: Loc)
    requires Pins(before, h.pin) && h.st == DropLarge(before, l) && RunPtr(l) != h.pin
    ensures h.Pinned()
  {}

  lemma EmptiedByFree(h: Heap, c: Chunk)
    requires h.Shape() && c in h.ring
    ensures c.freePages == PAGES - 1 <==> c.runs == map[]
    ensures c.freePages == PAGES - 1 <==> !HoldsRun(h.st.runs, c.number)
  {
    hide *;
    OpenedAt(h, c);
    EmptyChunk(c);
    NoneInChunk(c, h.st.runs);
    HoldsNone(h.st.runs, c.number);
  }

  lemma HoldsNone(runs: map<Loc, Run>, n: nat)
    ensures HoldsRun(runs, n) <==> exists l :: l in runs && l.chunk == n
  {}

  // The chunk of the run given back has left the ring.
  lemma LeftRing(before: State, h: Heap, ring: seq<Chunk>, i: nat, l: Loc)
    requires h.Shape() && Inv(before) && Numbers(ring) == before.ring && 0 < i < |ring| && ring[i].number == l.chunk
    requires h.ring == Without(ring, i) && h.st.runs == before.runs - {l}
    ensures ring[i] !in h.ring && (Busy(before) ==> Busy(h.st))
  {
    hide *;
    NumbersAre(h);
    NumbersWithout(ring, i);
    MapsAre(ring);
    ChunksGood(before);
    BusyWithout(before, h.st, l, i);
    if ring[i] in h.ring { NumbersHas(h.ring, ring[i]); }
  }

  /** The test that deletes a chunk does not spare the main chunk: it holds there exactly when no run lies in it. */
  lemma MainUnprotected(h: Heap)
    requires h.Shape()
    ensures h.ring != [] &&
      (h.ring[0].freePages == PAGES - 1 <==> forall l :: l in h.st.runs ==> l.chunk != h.ring[0].number)
  {
    hide *;
    Shaped(h);
    OpenedAt(h, h.ring[0]);
    EmptyChunk(h.ring[0]);
    NoneInChunk(h.ring[0], h.st.runs);
  }

  lemma NoneInChunk(c: Chunk, runs: map<Loc, Run>)
    requires Matches(c.number, c.runs, runs)
    ensures c.runs == map[] <==> forall l :: l in runs ==> l.chunk != c.number
  {
    assert forall p :: p in c.runs ==> Loc(c.number, p) in runs;
    if c.runs != map[] { var p :| p in c.runs; assert Loc(c.number, p).chunk == c.number; }
  }

  lemma LeftInChunk(s0: State, s: State, number: nat)
    requires s.runs == s0.runs - Garbage(s0)
    ensures (forall l :: l in s.runs ==> l.chunk != number) <==>
      forall l :: l in s0.runs && l.chunk == number ==> l in Garbage(s0)
  {
    hide Garbage;
  }

  /** A heap that has just been initialized or shut down meets the test already: until it has a block in the main chunk,
      a collection would delete the main chunk. */
  lemma BlankDeletable(h: Heap)
    requires h.Blank()
    ensures h.ring != [] && h.ring[0].freePages == PAGES - 1
    ensures forall l :: l in h.st.runs && l.chunk == h.ring[0].number ==> l in Garbage(h.st)
  {
    hide *;
    BlankRuns(h);
    MainUnprotected(h);
  }

  lemma BlankRuns(h: Heap)
    requires h.Blank()
    ensures h.Shape() && h.st.runs == map[]
  {}

  lemma MainNotEmpty(h: Heap, i: nat)
    requires h.Shape() && h.Pinned() && i < |h.ring| && h.ring[i].runs == map[]
    ensures 0 < i
  {
    hide *;
    OpenedAt(h, h.ring[i]);
    PinHeld(h);
    Shaped(h);
    if i == 0 { HeldRun(h.st, h.ring[0], h.ring, h.pin); }
  }

  lemma MapsAre(cs: seq<Chunk>)
    ensures |Maps(cs)| == |Numbers(cs)| == |cs|
    ensures forall k :: 0 <= k < |cs| ==> Maps(cs)[k] == cs[k].freeMap[..] && Numbers(cs)[k] == cs[k].number
  {}

  lemma PinAdded(h: Heap, before: State, p: Ptr, n: nat, data: seq<bv8>)
    requires PagesAdded(before, h.st, p, n, data)
    ensures Pins(before, h.pin) ==> h.Pinned()
  {}

  lemma BlankRoom(c: Chunk, count: nat)
    requires c.Valid() && c.runs == map[] && 1 <= count <= 511
    ensures 1 <= c.freeTail && Spans.Vacant(Lengths(c.runs), 1, count)
  {
    assert Lengths(map[]) == map[];
    assert Spans.Pages(map[]) == {};
  }

  lemma BeforeEntry(h: Heap)
    requires h.Shape() && h.Pinned()
    ensures h.st.cached == Numbers(h.cachedChunks)
    ensures h.st.ring == Numbers(h.ring) && h.ring != [] && |h.st.free| == BINS && Pins(h.st, h.pin)
  {
    Shaped(h);
    hide Inv, Numbers, Pins;
  }

  lemma Reformed(h: Heap)
    requires ShapeOf(h.st, h.ring, h.cachedChunks, h.freeSlot, h.hugeList)
    ensures h.Shape()
  {}

  lemma RunPtrIs(number: nat, page: nat)
    ensures RunPtr(Loc(number, page)) == Ptr(number, page * 4096)
  {}

  lemma Pushed(h: Heap, p: Ptr, b: Bin)
    requires h.Shape() && p in h.st.slots && h.st.slots[p].bin == b && p in h.st.live
    requires forall i :: 0 <= i < |h.st.huge| ==> h.st.huge[i].node != p
    ensures |h.st.free| == |h.freeSlot| == BINS == 30
    ensures ShapeOf(Push(h.st, p), h.ring, h.cachedChunks, h.freeSlot[b := [p] + h.freeSlot[b]], h.hugeList)
    ensures h !in Objects(h.ring) && h !in Objects(h.cachedChunks)
  {
    Shaped(h);
    hide Inv, ShapeOf;
    PushInv(h.st, p);
    Reshaped(h.st, Push(h.st, p), h.ring, h.cachedChunks, h.freeSlot, h.hugeList);
  }

  lemma Popped(h: Heap, b: Bin, data: seq<bv8>)
    requires h.Shape() && |h.freeSlot| == BINS && h.freeSlot[b] != [] && |data| == BinSize(b)
    ensures |h.st.free| == BINS == 30 && h.st.free == h.freeSlot
    ensures ShapeOf(Pop(h.st, b, data), h.ring, h.cachedChunks, h.freeSlot[b := h.freeSlot[b][1..]], h.hugeList)
    ensures h !in Objects(h.ring) && h !in Objects(h.cachedChunks)
    ensures var p := h.freeSlot[b][0];
      p !in h.st.live && p in Pop(h.st, b, data).slots && Pop(h.st, b, data).slots[p].bin == b
  {
    Shaped(h);
    hide Inv, ShapeOf;
    PopInv(h.st, b, data);
    Reshaped(h.st, Pop(h.st, b, data), h.ring, h.cachedChunks, h.freeSlot, h.hugeList);
  }

  lemma CutFits(s: State, l: Loc, n: nat)
    requires Inv(s) && l in s.runs && s.runs[l].Large? && 0 < n < s.runs[l].pages
    ensures l.page + n <= PAGES && forall m :: m in s.runs && m.chunk == l.chunk && l.page < m.page ==>
      l.page + n <= m.page
  {
    LengthLarge(s.runs[l].pages);
    hide Length, SlotsOk, FreeOk, LiveOk, HugeOk, RegionsOk;
  }

  lemma GrowFits(s: State, c: Chunk, local: map<nat, Run>, page: nat, n: nat)
    requires Matches(c.number, local, s.runs) && page in local && c.Valid() && c.runs == local[page := Large(n)]
    requires 0 < n
    ensures page + n <= PAGES
    ensures forall m :: m in s.runs && m.chunk == c.number && page < m.page ==> page + n <= m.page
  {
    RunsApart(c.runs, page);
    LengthLarge(n);
    hide Length;
    forall m | m in s.runs && m.chunk == c.number && page < m.page ensures page + n <= m.page {
      assert m.page in c.runs;
      RunsApart(c.runs, m.page);
    }
  }

  lemma SameRuns(c: Chunk, local: map<nat, Run>, entries: seq<PageInfo>, runs: map<Loc, Run>)
    requires Matches(c.number, local, runs) && Quiet(local, entries) && c.Valid() && c.runs == local
      && c.info[..] == entries
    ensures InUse(c, runs) && Elsewhere(c.number, runs, runs)
  {}

  lemma SmallEntries(c: Chunk, local: map<nat, Run>, page: nat, bin: Bin)
    requires c.Valid() && page in local && c.runs == local[page := Small(bin)]
    ensures page < 512 && forall p :: p in local && p != page ==> !(page <= p < page + BinPages(bin))
  {
    LengthSmall(bin);
    RunsApart(c.runs, page);
    hide Length, BinPages;
    forall p | p in local && p != page ensures !(page <= p < page + BinPages(bin)) {
      assert p in c.runs;
      RunsApart(c.runs, p);
    }
  }

  lemma ElementsAtLeast(l: Loc, bin: Bin)
    ensures 4 <= Elements(bin) && |NewFree(l, bin)| == Elements(bin) - 1 && NewFree(l, bin)[..1] == [SlotPtr(l, bin, 1)]
  {
    BinFacts(bin);
    hide Elements, BinSize;
  }

  lemma NewFreeAt(l: Loc, bin: Bin, k: nat)
    requires k < |NewFree(l, bin)|
    ensures NewFree(l, bin)[..k + 1] == NewFree(l, bin)[..k] + [SlotPtr(l, bin, k + 1)]
  {
    BinFacts(bin);
    hide Elements, BinSize;
  }
}
