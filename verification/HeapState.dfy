/** What the heap holds, as values: chunks, runs, slots, free lists, huge blocks and the live blocks of its clients. */
module HeapState {
  import opened Sizes
  import opened Chunks
  import opened Bitset

  // An address: chunk number and byte offset, the two parts that ZEND_MM_ALIGNED_BASE and _OFFSET take apart.
  datatype Ptr = Ptr(chunk: nat, off: nat)

  // The place of a run: its chunk and its first page.
  datatype Loc = Loc(chunk: nat, page: nat)

  // The element of a small run that a pointer is.
  datatype Slot = Slot(run: Loc, bin: Bin, index: nat)

  datatype Kind = SmallBlock | LargeBlock | HugeBlock

  // A live block and its bytes.
  datatype Block = Block(kind: Kind, data: seq<bv8>)

  // An entry of huge_list, and the small block that holds the entry itself.
  datatype Huge = Huge(node: Ptr, ptr: Ptr, size: nat)

  // the class that sizeof(zend_mm_huge_list), 24 bytes, falls into
  const NODE_BIN: Bin := 2

  datatype State = State(
    ring: seq<nat>,             // the chunks in use, the main chunk first
    cached: seq<nat>,           // cached_chunks
    runs: map<Loc, Run>,
    slots: map<Ptr, Slot>,      // every element of every small run
    free: seq<seq<Ptr>>,        // free_slot[]
    huge: seq<Huge>,            // huge_list
    live: map<Ptr, Block>)      // the blocks handed out

  function SlotPtr(l: Loc, b: Bin, k: nat): Ptr
  {
    Ptr(l.chunk, l.page * PAGE + k * BinSize(b))
  }

  function RunPtr(l: Loc): Ptr
  {
    Ptr(l.chunk, l.page * PAGE)
  }

  // Chunk-sized units of address space that a huge block touches.
  function Units(size: nat): nat
  {
    (size + CHUNK - 1) / CHUNK
  }

  ghost predicate Distinct<T>(s: seq<T>)
  {
    forall i, j :: 0 <= i < j < |s| ==> s[i] != s[j]
  }

  ghost predicate ChunksOk(ring: seq<nat>, cached: seq<nat>)
  {
    && 0 < |ring| && Distinct(ring) && Distinct(cached)
    && (forall c :: c in ring ==> c !in cached && c != 0) && 0 !in cached
  }

  ghost predicate RunsOk(ring: seq<nat>, runs: map<Loc, Run>)
  {
    && (forall l :: l in runs ==>
      l.chunk in ring && 1 <= l.page && 0 < Length(runs[l]) && l.page + Length(runs[l]) <= PAGES)
    && (forall l, m :: l in runs && m in runs && l.chunk == m.chunk && l.page < m.page ==>
      l.page + Length(runs[l]) <= m.page)
  }

  // The slots are exactly the elements of the small runs.
  ghost predicate SlotsOk(runs: map<Loc, Run>, slots: map<Ptr, Slot>)
  {
    && (forall p :: p in slots ==> var t := slots[p];
         t.run in runs && runs[t.run] == Small(t.bin) && t.index < Elements(t.bin)
           && p == SlotPtr(t.run, t.bin, t.index))
    && (forall l, b: Bin, k: nat :: l in runs && runs[l] == Small(b) && 0 <= k < Elements(b) ==>
         SlotPtr(l, b, k) in slots && slots[SlotPtr(l, b, k)] == Slot(l, b, k))
  }

  // The free lists hold every slot that is not live, once, in the list of its class.
  ghost predicate FreeOk(slots: map<Ptr, Slot>, free: seq<seq<Ptr>>, live: map<Ptr, Block>)
  {
    && |free| == BINS
    && (forall b :: 0 <= b < BINS ==> Distinct(free[b]))
    && (forall b, p :: 0 <= b < BINS && p in free[b] ==> p in slots && slots[p].bin == b && p !in live)
    && (forall p :: p in slots ==> p in live || p in free[slots[p].bin])
  }

  ghost predicate IsHuge(huge: seq<Huge>, p: Ptr, size: nat)
  {
    exists i :: 0 <= i < |huge| && huge[i].ptr == p && huge[i].size == size
  }

  // Every live block is a slot, a large run or a huge block, of its full size; every large run and huge block is live.
  ghost predicate LiveOk(runs: map<Loc, Run>, slots: map<Ptr, Slot>, huge: seq<Huge>, live: map<Ptr, Block>)
  {
    && (forall p :: p in live ==> BlockOk(runs, slots, huge, p, live[p]))
    && (forall l :: l in runs && runs[l].Large? ==> RunPtr(l) in live && live[RunPtr(l)].kind == LargeBlock)
    && (forall i :: 0 <= i < |huge| ==> huge[i].ptr in live && live[huge[i].ptr].kind == HugeBlock)
    && (forall p :: p in slots && p in live ==> live[p].kind == SmallBlock)
  }

  ghost predicate BlockOk(runs: map<Loc, Run>, slots: map<Ptr, Slot>, huge: seq<Huge>, p: Ptr, b: Block)
  {
    match b.kind
    case SmallBlock => p in slots && |b.data| == BinSize(slots[p].bin)
    case LargeBlock =>
      var l := Loc(p.chunk, p.off / PAGE);
      p == RunPtr(l) && l in runs && runs[l].Large? && |b.data| == runs[l].pages * PAGE
    case HugeBlock => p.off == 0 && IsHuge(huge, p, |b.data|)
  }

  // The huge blocks and the small blocks that hold their list entries.
  ghost predicate HugeOk(slots: map<Ptr, Slot>, huge: seq<Huge>, live: map<Ptr, Block>)
  {
    && (forall i :: 0 <= i < |huge| ==>
         && huge[i].ptr.off == 0 && 0 < huge[i].size && huge[i].size % PAGE == 0
         && huge[i].node in slots && slots[huge[i].node].bin == NODE_BIN && huge[i].node in live)
    && (forall i, j :: 0 <= i < j < |huge| ==> huge[i].node != huge[j].node && huge[i].ptr != huge[j].ptr)
  }

  // The address ranges of chunks and huge blocks are apart.
  ghost predicate RegionsOk(ring: seq<nat>, cached: seq<nat>, huge: seq<Huge>)
  {
    && (forall i :: 0 <= i < |huge| ==>
      0 < huge[i].ptr.chunk && Outside(ring + cached, huge[i].ptr.chunk, Units(huge[i].size)))
    && (forall i, j :: 0 <= i < |huge| && 0 <= j < |huge| && i != j ==>
         Apart(huge[i].ptr.chunk, Units(huge[i].size), huge[j].ptr.chunk, Units(huge[j].size)))
  }

  ghost predicate Outside(chunks: seq<nat>, start: nat, units: nat)
  {
    forall c :: c in chunks ==> !(start <= c < start + units)
  }

  predicate Apart(a: nat, m: nat, b: nat, n: nat)
  {
    a + m <= b || b + n <= a
  }

  ghost predicate Inv(s: State)
  {
    && ChunksOk(s.ring, s.cached)
    && RunsOk(s.ring, s.runs)
    && SlotsOk(s.runs, s.slots)
    && FreeOk(s.slots, s.free, s.live)
    && LiveOk(s.runs, s.slots, s.huge, s.live)
    && HugeOk(s.slots, s.huge, s.live)
    && RegionsOk(s.ring, s.cached, s.huge)
  }

  // ---- where blocks lie ----

  lemma SlotFits(b: Bin, k: nat)
    requires k < Elements(b)
    ensures 0 <= k * BinSize(b) && k * BinSize(b) + BinSize(b) <= BinPages(b) * PAGE
  {
    BinFacts(b);
    Times(k, Elements(b) - 1, BinSize(b));
  }

  lemma Times(a: nat, b: nat, c: nat)
    requires a <= b
    ensures a * c <= b * c && (b + 1) * c == b * c + c
  {}

  // A slot lies inside the pages of its run.
  lemma SlotInRun(l: Loc, b: Bin, k: nat)
    requires k < Elements(b)
    ensures l.page * PAGE <= SlotPtr(l, b, k).off
    ensures SlotPtr(l, b, k).off + BinSize(b) <= (l.page + BinPages(b)) * PAGE
  {
    hide BinSize, BinPages, Elements;
    SlotFits(b, k);
  }

  // Two slots of one run are apart.
  lemma SlotsApart(l: Loc, b: Bin, j: nat, k: nat)
    requires j < k
    ensures SlotPtr(l, b, j).off + BinSize(b) <= SlotPtr(l, b, k).off
  {
    hide BinSize;
    Times(j + 1, k, BinSize(b));
    Times(j, j, BinSize(b));
  }

  lemma SlotBounds(runs: map<Loc, Run>, slots: map<Ptr, Slot>, p: Ptr)
    requires SlotsOk(runs, slots) && p in slots
    ensures var t := slots[p];
      && t.run in runs && runs[t.run] == Small(t.bin) && Length(runs[t.run]) == BinPages(t.bin)
      && p.chunk == t.run.chunk
      && t.run.page * PAGE <= p.off && p.off + BinSize(t.bin) <= (t.run.page + BinPages(t.bin)) * PAGE
      && 0 < BinSize(t.bin)
  {
    BinFacts(slots[p].bin);
    hide BinSize, BinPages, Elements;
    SlotInRun(slots[p].run, slots[p].bin, slots[p].index);
  }

  // Pages l.page .. l.page+n-1 exist and belong to no run.
  ghost predicate Room(ring: seq<nat>, runs: map<Loc, Run>, l: Loc, n: nat)
  {
    && l.chunk in ring && 1 <= l.page && 0 < n && l.page + n <= PAGES
    && forall m :: m in runs && m.chunk == l.chunk ==> m.page + Length(runs[m]) <= l.page || l.page + n <= m.page
  }

  // No slot and no live block lies where there is room.
  lemma RoomIsUnused(s: State, l: Loc, n: nat, p: Ptr)
    requires Inv(s) && Room(s.ring, s.runs, l, n)
    requires p.chunk == l.chunk && l.page * PAGE <= p.off < (l.page + n) * PAGE
    ensures p !in s.slots && p !in s.live
  {
    hide Length, BinSize, BinPages, Elements, ChunksOk, FreeOk, HugeOk, RegionsOk, SlotsOk;
    if p in s.slots { SlotBounds(s.runs, s.slots, p); }
    assert p in s.live ==> BlockOk(s.runs, s.slots, s.huge, p, s.live[p]);
  }

  // ---- what a change of one part needs of the others ----

  lemma RunsAdded(ring: seq<nat>, runs: map<Loc, Run>, l: Loc, r: Run)
    requires RunsOk(ring, runs) && Room(ring, runs, l, Length(r))
    ensures l !in runs && RunsOk(ring, runs[l := r])
  {
    hide Length;
  }

  lemma RunsRemoved(ring: seq<nat>, runs: map<Loc, Run>, gone: set<Loc>)
    requires RunsOk(ring, runs)
    ensures RunsOk(ring, runs - gone)
  {
    hide Length;
  }

  // The run at l changes to one of another length that has room.
  lemma RunsChanged(ring: seq<nat>, runs: map<Loc, Run>, l: Loc, r: Run)
    requires RunsOk(ring, runs) && l in runs && 0 < Length(r) && l.page + Length(r) <= PAGES
    requires forall m :: m in runs && m.chunk == l.chunk && l.page < m.page ==> l.page + Length(r) <= m.page
    ensures RunsOk(ring, runs[l := r])
  {
    hide Length;
  }

  lemma SlotsBesideLarge(runs: map<Loc, Run>, slots: map<Ptr, Slot>, l: Loc, n: nat)
    requires SlotsOk(runs, slots) && (l in runs ==> runs[l].Large?)
    ensures SlotsOk(runs[l := Large(n)], slots)
  {
    hide Elements, BinSize;
  }

  lemma SlotsWithoutLarge(runs: map<Loc, Run>, slots: map<Ptr, Slot>, l: Loc)
    requires SlotsOk(runs, slots) && (l in runs ==> runs[l].Large?)
    ensures SlotsOk(runs - {l}, slots)
  {
    hide Elements, BinSize;
  }

  // The free lists do not see changes of blocks that are no slots.
  lemma FreeBeside(slots: map<Ptr, Slot>, free: seq<seq<Ptr>>, live: map<Ptr, Block>, live': map<Ptr, Block>)
    requires FreeOk(slots, free, live)
    requires forall p :: p in slots ==> (p in live <==> p in live')
    ensures FreeOk(slots, free, live')
  {
    hide Distinct;
  }

  lemma HugeBeside(slots: map<Ptr, Slot>, huge: seq<Huge>, live: map<Ptr, Block>, live': map<Ptr, Block>)
    requires HugeOk(slots, huge, live)
    requires forall i :: 0 <= i < |huge| ==> huge[i].node in live'
    ensures HugeOk(slots, huge, live')
  {}

  // ---- the steps of the allocator ----

  // Pages l.page .. l.page+n-1 become a live large run.
  ghost function AddLarge(s: State, l: Loc, n: nat, data: seq<bv8>): State
  {
    s.(runs := s.runs[l := Large(n)], live := s.live[RunPtr(l) := Block(LargeBlock, data)])
  }

  lemma LiveAddLarge(s: State, l: Loc, n: nat, data: seq<bv8>)
    requires LiveOk(s.runs, s.slots, s.huge, s.live) && l !in s.runs && |data| == n * PAGE
    requires RunPtr(l) !in s.slots && RunPtr(l) !in s.live
    ensures LiveOk(s.runs[l := Large(n)], s.slots, s.huge, s.live[RunPtr(l) := Block(LargeBlock, data)])
  {
    hide BinSize;
    var runs, live := s.runs[l := Large(n)], s.live[RunPtr(l) := Block(LargeBlock, data)];
    forall p | p in live ensures BlockOk(runs, s.slots, s.huge, p, live[p]) {
      if p != RunPtr(l) { assert BlockOk(s.runs, s.slots, s.huge, p, s.live[p]); }
    }
  }

  lemma AddLargeInv(s: State, l: Loc, n: nat, data: seq<bv8>)
    requires Inv(s) && Room(s.ring, s.runs, l, n) && |data| == n * PAGE
    ensures Inv(AddLarge(s, l, n, data))
    ensures l !in s.runs && RunPtr(l) !in s.live
  {
    RoomIsUnused(s, l, n, RunPtr(l));
    hide BinSize, BinPages, Elements, ChunksOk, RunsOk, SlotsOk, FreeOk, LiveOk, HugeOk, RegionsOk, Room;
    LengthLarge(n);
    RunsAdded(s.ring, s.runs, l, Large(n));
    SlotsBesideLarge(s.runs, s.slots, l, n);
    FreeBeside(s.slots, s.free, s.live, AddLarge(s, l, n, data).live);
    LiveAddLarge(s, l, n, data);
    NodesLive(s);
    HugeBeside(s.slots, s.huge, s.live, AddLarge(s, l, n, data).live);
  }

  lemma NodesLive(s: State)
    requires HugeOk(s.slots, s.huge, s.live)
    ensures forall i :: 0 <= i < |s.huge| ==> s.huge[i].node in s.live && s.huge[i].node in s.slots
  {}

  // The large run at l is given back.
  ghost function DropLarge(s: State, l: Loc): State
  {
    s.(runs := s.runs - {l}, live := s.live - {RunPtr(l)})
  }

  lemma LargeIsNoSlot(s: State, l: Loc)
    requires Inv(s) && l in s.runs && s.runs[l].Large?
    ensures RunPtr(l) !in s.slots && RunPtr(l) in s.live && s.live[RunPtr(l)].kind == LargeBlock
    ensures |s.live[RunPtr(l)].data| == s.runs[l].pages * PAGE
  {
    hide BinSize, Elements;
    assert BlockOk(s.runs, s.slots, s.huge, RunPtr(l), s.live[RunPtr(l)]);
  }

  lemma LiveDropLarge(s: State, l: Loc)
    requires LiveOk(s.runs, s.slots, s.huge, s.live) && l in s.runs && s.runs[l].Large?
    requires RunPtr(l) !in s.slots
    ensures LiveOk(s.runs - {l}, s.slots, s.huge, s.live - {RunPtr(l)})
  {
    hide BinSize;
    var runs, live := s.runs - {l}, s.live - {RunPtr(l)};
    forall p | p in live ensures BlockOk(runs, s.slots, s.huge, p, live[p]) {
      assert BlockOk(s.runs, s.slots, s.huge, p, s.live[p]);
    }
    forall m | m in runs && runs[m].Large? ensures RunPtr(m) in live { assert RunPtr(m) != RunPtr(l); }
  }

  lemma DropLargeInv(s: State, l: Loc)
    requires Inv(s) && l in s.runs && s.runs[l].Large?
    ensures Inv(DropLarge(s, l))
  {
    LargeIsNoSlot(s, l);
    hide BinSize, BinPages, Elements, ChunksOk, RunsOk, SlotsOk, FreeOk, LiveOk, HugeOk, RegionsOk;
    var s' := DropLarge(s, l);
    RunsRemoved(s.ring, s.runs, {l});
    SlotsWithoutLarge(s.runs, s.slots, l);
    FreeBeside(s.slots, s.free, s.live, s'.live);
    LiveDropLarge(s, l);
    NodesLive(s);
    HugeBeside(s.slots, s.huge, s.live, s'.live);
  }

  // A large run is cut or grown in place and keeps what it can of its bytes.
  ghost function ResizeLarge(s: State, l: Loc, n: nat, data: seq<bv8>): State
  {
    s.(runs := s.runs[l := Large(n)], live := s.live[RunPtr(l) := Block(LargeBlock, data)])
  }

  lemma LiveResizeLarge(s: State, l: Loc, n: nat, data: seq<bv8>)
    requires LiveOk(s.runs, s.slots, s.huge, s.live) && l in s.runs && s.runs[l].Large? && |data| == n * PAGE
    requires RunPtr(l) !in s.slots && RunPtr(l) in s.live && s.live[RunPtr(l)].kind == LargeBlock
    ensures LiveOk(s.runs[l := Large(n)], s.slots, s.huge, s.live[RunPtr(l) := Block(LargeBlock, data)])
  {
    hide BinSize;
    var runs, live := s.runs[l := Large(n)], s.live[RunPtr(l) := Block(LargeBlock, data)];
    forall p | p in live ensures BlockOk(runs, s.slots, s.huge, p, live[p]) {
      if p != RunPtr(l) { assert BlockOk(s.runs, s.slots, s.huge, p, s.live[p]); }
    }
  }

  lemma ResizeLargeInv(s: State, l: Loc, n: nat, data: seq<bv8>)
    requires Inv(s) && l in s.runs && s.runs[l].Large? && 0 < n && l.page + n <= PAGES && |data| == n * PAGE
    requires forall m :: m in s.runs && m.chunk == l.chunk && l.page < m.page ==> l.page + n <= m.page
    ensures Inv(ResizeLarge(s, l, n, data))
  {
    LargeIsNoSlot(s, l);
    hide BinSize, BinPages, Elements, ChunksOk, RunsOk, SlotsOk, FreeOk, LiveOk, HugeOk, RegionsOk;
    var s' := ResizeLarge(s, l, n, data);
    LengthLarge(n);
    RunsChanged(s.ring, s.runs, l, Large(n));
    SlotsBesideLarge(s.runs, s.slots, l, n);
    FreeBeside(s.slots, s.free, s.live, s'.live);
    LiveResizeLarge(s, l, n, data);
    NodesLive(s);
    HugeBeside(s.slots, s.huge, s.live, s'.live);
  }

  // The elements of a new small run; all but the first are free, in ascending order.
  lemma SlotPtrInjective(l: Loc, b: Bin, j: nat, k: nat)
    requires SlotPtr(l, b, j) == SlotPtr(l, b, k)
    ensures j == k
  {
    BinFacts(b);
    hide BinSize;
    if j < k { SlotsApart(l, b, j, k); }
    if k < j { SlotsApart(l, b, k, j); }
  }

  ghost function NewSlots(l: Loc, b: Bin): map<Ptr, Slot>
  {
    map p | p in NewPtrs(l, b) :: Slot(l, b, IndexOf(l, b, p))
  }

  ghost function NewPtrs(l: Loc, b: Bin): set<Ptr>
  {
    set k: nat | k < Elements(b) :: SlotPtr(l, b, k)
  }

  ghost function IndexOf(l: Loc, b: Bin, p: Ptr): (k: nat)
    requires p in NewPtrs(l, b)
    ensures k < Elements(b) && p == SlotPtr(l, b, k)
  {
    var k: nat :| k < Elements(b) && p == SlotPtr(l, b, k); k
  }

  lemma NewSlotsAre(l: Loc, b: Bin, k: nat)
    requires k < Elements(b)
    ensures SlotPtr(l, b, k) in NewSlots(l, b) && NewSlots(l, b)[SlotPtr(l, b, k)] == Slot(l, b, k)
  {
    hide Elements, BinSize;
    assert SlotPtr(l, b, k) in NewPtrs(l, b);
    SlotPtrInjective(l, b, IndexOf(l, b, SlotPtr(l, b, k)), k);
  }

  function NewFree(l: Loc, b: Bin): seq<Ptr>
  {
    BinFacts(b);
    seq(Elements(b) - 1, (i: nat) => SlotPtr(l, b, i + 1))
  }

  ghost function Carve(s: State, l: Loc, b: Bin, data: seq<bv8>): State
    requires |s.free| == BINS
  {
    s.(runs := s.runs[l := Small(b)], slots := s.slots + NewSlots(l, b), free := s.free[b := NewFree(l, b)],
       live := s.live[RunPtr(l) := Block(SmallBlock, data)])
  }

  // Nothing else lies in a live large run.
  lemma RunIsOwn(s: State, l: Loc, p: Ptr)
    requires Inv(s) && l in s.runs && s.runs[l].Large?
    requires p.chunk == l.chunk && l.page * PAGE <= p.off < (l.page + s.runs[l].pages) * PAGE
    ensures p !in s.slots && (p in s.live ==> p == RunPtr(l))
  {
    hide BinSize, BinPages, Elements, ChunksOk, FreeOk, HugeOk, RegionsOk, SlotsOk, Length;
    LengthLarge(s.runs[l].pages);
    if p in s.slots { SlotBounds(s.runs, s.slots, p); }
    assert p in s.live ==> BlockOk(s.runs, s.slots, s.huge, p, s.live[p]);
    assert p in s.live && s.live[p].kind == LargeBlock ==> p == RunPtr(Loc(p.chunk, p.off / PAGE));
    if p in s.live && s.live[p].kind == LargeBlock { LengthLarge(s.runs[Loc(p.chunk, p.off / PAGE)].pages); }
  }

  lemma SlotsCarve(runs: map<Loc, Run>, slots: map<Ptr, Slot>, l: Loc, b: Bin)
    requires SlotsOk(runs, slots) && l in runs && runs[l].Large?
    requires forall p :: p in NewSlots(l, b) ==> p !in slots
    ensures SlotsOk(runs[l := Small(b)], slots + NewSlots(l, b))
  {
    hide Elements, BinSize;
    var runs', slots' := runs[l := Small(b)], slots + NewSlots(l, b);
    forall m, c: Bin, k: nat | m in runs' && runs'[m] == Small(c) && 0 <= k < Elements(c)
      ensures SlotPtr(m, c, k) in slots' && slots'[SlotPtr(m, c, k)] == Slot(m, c, k)
    {
      if m == l { NewSlotsAre(l, b, k); }
    }
  }

  lemma NewFreeDistinct(l: Loc, b: Bin)
    ensures Distinct(NewFree(l, b))
  {
    BinFacts(b);
    hide Elements, BinSize;
    forall i, j | 0 <= i < j < |NewFree(l, b)| ensures NewFree(l, b)[i] != NewFree(l, b)[j] {
      if NewFree(l, b)[i] == NewFree(l, b)[j] { SlotPtrInjective(l, b, i + 1, j + 1); }
    }
  }

  lemma NewFreeAre(l: Loc, b: Bin, p: Ptr)
    ensures p in NewFree(l, b) <==> p in NewSlots(l, b) && p != RunPtr(l)
    ensures p in NewSlots(l, b) ==> NewSlots(l, b)[p].bin == b
    ensures RunPtr(l) in NewSlots(l, b)
  {
    BinFacts(b);
    hide Elements, BinSize, NewFree, NewSlots;
    NewSlotsAre(l, b, 0);
    FirstSlot(l, b);
    if p in NewFree(l, b) { FreeIsNew(l, b, p); }
    if p in NewSlots(l, b) { NewIsFree(l, b, p); }
  }

  lemma FirstSlot(l: Loc, b: Bin)
    ensures SlotPtr(l, b, 0) == RunPtr(l)
  {
    hide BinSize;
  }

  lemma FreeIsNew(l: Loc, b: Bin, p: Ptr)
    requires p in NewFree(l, b)
    ensures p in NewSlots(l, b) && p != RunPtr(l)
  {
    BinFacts(b);
    hide Elements, BinSize, NewSlots;
    FirstSlot(l, b);
    var i :| 0 <= i < |NewFree(l, b)| && p == NewFree(l, b)[i];
    NewSlotsAre(l, b, i + 1);
    if p == RunPtr(l) { SlotPtrInjective(l, b, i + 1, 0); }
  }

  lemma NewIsFree(l: Loc, b: Bin, p: Ptr)
    requires p in NewSlots(l, b)
    ensures p != RunPtr(l) ==> p in NewFree(l, b)
    ensures NewSlots(l, b)[p].bin == b
  {
    BinFacts(b);
    hide Elements, BinSize;
    FirstSlot(l, b);
    var k := IndexOf(l, b, p);
    if p != RunPtr(l) { assert NewFree(l, b)[k - 1] == p; }
  }

  lemma FreeCarve(slots: map<Ptr, Slot>, free: seq<seq<Ptr>>, live: map<Ptr, Block>, b: Bin,
                  first: Ptr, block: Block, more: map<Ptr, Slot>, list: seq<Ptr>)
    requires FreeOk(slots, free, live) && free[b] == []
    requires Distinct(list) && first in more && forall p :: p in list <==> p in more && p != first
    requires forall p :: p in more ==> more[p].bin == b && p !in slots && (p in live ==> p == first)
    ensures FreeOk(slots + more, free[b := list], live[first := block])
  {
    hide Distinct;
  }

  lemma LiveCarve(s: State, l: Loc, b: Bin, data: seq<bv8>)
    requires LiveOk(s.runs, s.slots, s.huge, s.live) && l in s.runs && s.runs[l].Large? && |data| == BinSize(b)
    requires forall p :: p in NewSlots(l, b) ==> p !in s.slots && (p in s.live ==> p == RunPtr(l))
    requires s.live[RunPtr(l)].kind == LargeBlock
    ensures LiveOk(s.runs[l := Small(b)], s.slots + NewSlots(l, b), s.huge,
      s.live[RunPtr(l) := Block(SmallBlock, data)])
  {
    BinFacts(b);
    hide Elements, BinSize;
    NewSlotsAre(l, b, 0);
    var runs, slots, live := s.runs[l := Small(b)], s.slots + NewSlots(l, b),
      s.live[RunPtr(l) := Block(SmallBlock, data)];
    forall p | p in live ensures BlockOk(runs, slots, s.huge, p, live[p]) {
      if p != RunPtr(l) { assert BlockOk(s.runs, s.slots, s.huge, p, s.live[p]); }
    }
    forall m | m in runs && runs[m].Large? ensures RunPtr(m) in live && live[RunPtr(m)].kind == LargeBlock {
      assert RunPtr(m) != RunPtr(l);
    }
  }

  lemma HugeSlots(slots: map<Ptr, Slot>, slots': map<Ptr, Slot>, huge: seq<Huge>, live: map<Ptr, Block>)
    requires HugeOk(slots, huge, live)
    requires forall p :: p in slots ==> p in slots' && slots'[p] == slots[p]
    ensures HugeOk(slots', huge, live)
  {}

  lemma CarveInv(s: State, l: Loc, b: Bin, data: seq<bv8>)
    requires Inv(s) && l in s.runs && s.runs[l] == Large(BinPages(b)) && s.free[b] == [] && |data| == BinSize(b)
    ensures Inv(Carve(s, l, b, data))
  {
    LargeIsNoSlot(s, l);
    forall p | p in NewSlots(l, b) ensures p !in s.slots && (p in s.live ==> p == RunPtr(l)) {
      SlotInRun(l, b, IndexOf(l, b, p));
      BinFacts(b);
      RunIsOwn(s, l, p);
    }
    hide BinSize, BinPages, Elements, ChunksOk, RunsOk, SlotsOk, FreeOk, LiveOk, HugeOk, RegionsOk, NewSlots, NewFree,
      Distinct;
    var s' := Carve(s, l, b, data);
    SameLength(s.ring, s.runs, l, b);
    SlotsCarve(s.runs, s.slots, l, b);
    NewFreeDistinct(l, b);
    forall p ensures (p in NewFree(l, b) <==> p in NewSlots(l, b) && p != RunPtr(l))
      && (p in NewSlots(l, b) ==> NewSlots(l, b)[p].bin == b) {
      NewFreeAre(l, b, p);
    }
    NewFreeAre(l, b, RunPtr(l));
    FreeCarve(s.slots, s.free, s.live, b, RunPtr(l), Block(SmallBlock, data), NewSlots(l, b), NewFree(l, b));
    LiveCarve(s, l, b, data);
    NodesLive(s);
    HugeBeside(s.slots, s.huge, s.live, s'.live);
    HugeSlots(s.slots, s'.slots, s.huge, s'.live);
  }

  lemma SameLength(ring: seq<nat>, runs: map<Loc, Run>, l: Loc, b: Bin)
    requires RunsOk(ring, runs) && l in runs && runs[l] == Large(BinPages(b))
    ensures RunsOk(ring, runs[l := Small(b)])
  {
    LengthLarge(BinPages(b));
    LengthSmall(b);
    hide Length, BinPages;
    RunsChanged(ring, runs, l, Small(b));
  }

  // The head of a free list is handed out.
  ghost function Pop(s: State, b: Bin, data: seq<bv8>): State
    requires |s.free| == BINS && s.free[b] != []
  {
    s.(free := s.free[b := s.free[b][1..]], live := s.live[s.free[b][0] := Block(SmallBlock, data)])
  }

  lemma FreePop(slots: map<Ptr, Slot>, free: seq<seq<Ptr>>, live: map<Ptr, Block>, b: Bin, block: Block)
    requires FreeOk(slots, free, live) && free[b] != []
    ensures FreeOk(slots, free[b := free[b][1..]], live[free[b][0] := block])
  {
    var p, rest := free[b][0], free[b][1..];
    assert free[b] == [p] + rest;
    PopDistinct(free[b]);
    hide Distinct;
  }

  lemma PopDistinct(list: seq<Ptr>)
    requires Distinct(list) && list != []
    ensures Distinct(list[1..]) && list[0] !in list[1..]
  {}

  // A slot changes hands between its client and its free list: what live blocks are does not change otherwise.
  lemma LiveSlotAdded(s: State, p: Ptr, data: seq<bv8>)
    requires LiveOk(s.runs, s.slots, s.huge, s.live) && p in s.slots && |data| == BinSize(s.slots[p].bin)
    requires p in s.live ==> s.live[p].kind == SmallBlock
    ensures LiveOk(s.runs, s.slots, s.huge, s.live[p := Block(SmallBlock, data)])
  {
    hide BinSize;
    var live := s.live[p := Block(SmallBlock, data)];
    forall q | q in live ensures BlockOk(s.runs, s.slots, s.huge, q, live[q]) {
      if q != p { assert BlockOk(s.runs, s.slots, s.huge, q, s.live[q]); }
    }
  }

  lemma SlotIsNoOther(s: State, p: Ptr)
    requires Inv(s) && p in s.slots
    ensures forall l :: l in s.runs && s.runs[l].Large? ==> RunPtr(l) != p
    ensures forall i :: 0 <= i < |s.huge| ==> s.huge[i].ptr != p
  {
    hide BinSize, Elements, BinPages;
    SlotBounds(s.runs, s.slots, p);
    forall l | l in s.runs && s.runs[l].Large? ensures RunPtr(l) != p {
      assert 0 < s.runs[l].pages by { LengthLarge(s.runs[l].pages); }
      RunIsOwn(s, l, RunPtr(l));
    }
  }

  lemma LiveSlotRemoved(s: State, p: Ptr)
    requires LiveOk(s.runs, s.slots, s.huge, s.live)
    requires forall l :: l in s.runs && s.runs[l].Large? ==> RunPtr(l) != p
    requires forall i :: 0 <= i < |s.huge| ==> s.huge[i].ptr != p
    ensures LiveOk(s.runs, s.slots, s.huge, s.live - {p})
  {
    hide BinSize;
    var live := s.live - {p};
    forall q | q in live ensures BlockOk(s.runs, s.slots, s.huge, q, live[q]) {
      assert BlockOk(s.runs, s.slots, s.huge, q, s.live[q]);
    }
  }

  lemma PopInv(s: State, b: Bin, data: seq<bv8>)
    requires Inv(s) && s.free[b] != [] && |data| == BinSize(b)
    ensures Inv(Pop(s, b, data))
    ensures s.free[b][0] !in s.live && s.free[b][0] in s.slots && s.slots[s.free[b][0]].bin == b
  {
    var p := s.free[b][0];
    assert p in s.free[b];
    hide BinSize, BinPages, Elements, ChunksOk, RunsOk, SlotsOk, LiveOk, HugeOk, RegionsOk;
    assert p !in s.live && p in s.slots && s.slots[p].bin == b;
    hide FreeOk;
    FreePop(s.slots, s.free, s.live, b, Block(SmallBlock, data));
    LiveSlotAdded(s, p, data);
    NodesLive(s);
    HugeBeside(s.slots, s.huge, s.live, Pop(s, b, data).live);
  }

  // A slot is given back to the head of its free list.
  ghost function Push(s: State, p: Ptr): State
    requires |s.free| == BINS && p in s.slots
  {
    var b := s.slots[p].bin;
    s.(free := s.free[b := [p] + s.free[b]], live := s.live - {p})
  }

  lemma FreePush(slots: map<Ptr, Slot>, free: seq<seq<Ptr>>, live: map<Ptr, Block>, p: Ptr)
    requires FreeOk(slots, free, live) && p in slots && p in live
    ensures FreeOk(slots, free[slots[p].bin := [p] + free[slots[p].bin]], live - {p})
  {
    var list := free[slots[p].bin];
    assert p !in list;
  }

  lemma PushInv(s: State, p: Ptr)
    requires Inv(s) && p in s.slots && p in s.live
    requires forall i :: 0 <= i < |s.huge| ==> s.huge[i].node != p
    ensures Inv(Push(s, p))
  {
    SlotIsNoOther(s, p);
    hide BinSize, BinPages, Elements, ChunksOk, RunsOk, SlotsOk, FreeOk, LiveOk, HugeOk, RegionsOk;
    assert |s.free| == BINS by { FreeCount(s); }
    FreePush(s.slots, s.free, s.live, p);
    LiveSlotRemoved(s, p);
    NodesLive(s);
    HugeBeside(s.slots, s.huge, s.live, Push(s, p).live);
  }

  lemma FreeCount(s: State)
    requires FreeOk(s.slots, s.free, s.live)
    ensures |s.free| == BINS
  {}

  // The client writes its block.
  ghost function Write(s: State, p: Ptr, data: seq<bv8>): State
    requires p in s.live
  {
    s.(live := s.live[p := s.live[p].(data := data)])
  }

  lemma WriteInv(s: State, p: Ptr, data: seq<bv8>)
    requires Inv(s) && p in s.live && |data| == |s.live[p].data|
    ensures Inv(Write(s, p, data))
  {
    hide BinSize, BinPages, Elements, ChunksOk, RunsOk, SlotsOk, FreeOk, LiveOk, HugeOk, RegionsOk;
    var live := Write(s, p, data).live;
    FreeBeside(s.slots, s.free, s.live, live);
    LiveWrite(s, p, data);
    NodesLive(s);
    HugeBeside(s.slots, s.huge, s.live, live);
  }

  lemma LiveWrite(s: State, p: Ptr, data: seq<bv8>)
    requires LiveOk(s.runs, s.slots, s.huge, s.live) && p in s.live && |data| == |s.live[p].data|
    ensures LiveOk(s.runs, s.slots, s.huge, s.live[p := s.live[p].(data := data)])
  {
    hide BinSize, IsHuge;
    var live := s.live[p := s.live[p].(data := data)];
    forall q | q in live ensures BlockOk(s.runs, s.slots, s.huge, q, live[q]) {
      assert BlockOk(s.runs, s.slots, s.huge, q, s.live[q]);
    }
  }

  // A mapped region becomes a live huge block; its list entry lives in the small block node.
  ghost function AddHuge(s: State, e: Huge, data: seq<bv8>): State
  {
    s.(huge := [e] + s.huge, live := s.live[e.ptr := Block(HugeBlock, data)])
  }

  // Address space from chunk-sized unit start on is not the heap's.
  ghost predicate Unmapped(s: State, start: nat, units: nat)
  {
    && 0 < start && Outside(s.ring + s.cached, start, units)
    && forall i :: 0 <= i < |s.huge| ==> Apart(s.huge[i].ptr.chunk, Units(s.huge[i].size), start, units)
  }

  lemma UnitsPositive(size: nat)
    requires 0 < size
    ensures 0 < Units(size) && size <= Units(size) * CHUNK
  {}

  lemma UnmappedIsUnused(s: State, p: Ptr, units: nat)
    requires Inv(s) && 0 < units && Unmapped(s, p.chunk, units) && p.off == 0
    ensures p !in s.live && p !in s.slots
    ensures forall i :: 0 <= i < |s.huge| ==> s.huge[i].ptr != p
  {
    hide BinSize, Elements, BinPages, Units, ChunksOk;
    forall i | 0 <= i < |s.huge| ensures s.huge[i].ptr != p { UnitsPositive(s.huge[i].size); }
    assert p in s.live ==> BlockOk(s.runs, s.slots, s.huge, p, s.live[p]);
    if p in s.slots { SlotBounds(s.runs, s.slots, p); }
  }

  lemma LiveAddHuge(s: State, e: Huge, data: seq<bv8>)
    requires LiveOk(s.runs, s.slots, s.huge, s.live) && e.ptr.off == 0 && e.size == |data|
    requires e.ptr !in s.live && e.ptr !in s.slots
    ensures LiveOk(s.runs, s.slots, [e] + s.huge, s.live[e.ptr := Block(HugeBlock, data)])
  {
    hide BinSize;
    var huge, live := [e] + s.huge, s.live[e.ptr := Block(HugeBlock, data)];
    assert huge[0] == e;
    forall p | p in live ensures BlockOk(s.runs, s.slots, huge, p, live[p]) {
      if p != e.ptr {
        assert BlockOk(s.runs, s.slots, s.huge, p, s.live[p]);
        if live[p].kind == HugeBlock {
          var i :| 0 <= i < |s.huge| && s.huge[i].ptr == p && s.huge[i].size == |live[p].data|;
          assert huge[i + 1] == s.huge[i];
        }
      }
    }
  }

  lemma RegionsAddHuge(s: State, e: Huge)
    requires RegionsOk(s.ring, s.cached, s.huge) && Unmapped(s, e.ptr.chunk, Units(e.size))
    ensures RegionsOk(s.ring, s.cached, [e] + s.huge)
  {
    hide Units, Outside;
  }

  lemma HugeAdded(s: State, e: Huge, live: map<Ptr, Block>)
    requires HugeOk(s.slots, s.huge, s.live) && e.ptr.off == 0 && 0 < e.size && e.size % PAGE == 0
    requires e.node in s.slots && s.slots[e.node].bin == NODE_BIN && e.node in s.live
    requires forall i :: 0 <= i < |s.huge| ==> s.huge[i].node != e.node && s.huge[i].ptr != e.ptr
    requires forall p :: p in s.live ==> p in live
    ensures HugeOk(s.slots, [e] + s.huge, live)
  {}

  lemma AddHugeInv(s: State, e: Huge, data: seq<bv8>)
    requires Inv(s) && e.ptr.off == 0 && 0 < e.size && e.size % PAGE == 0 && |data| == e.size
    requires Unmapped(s, e.ptr.chunk, Units(e.size))
    requires e.node in s.slots && s.slots[e.node].bin == NODE_BIN && e.node in s.live
    requires forall i :: 0 <= i < |s.huge| ==> s.huge[i].node != e.node
    ensures Inv(AddHuge(s, e, data)) && e.ptr !in s.live
  {
    UnitsPositive(e.size);
    UnmappedIsUnused(s, e.ptr, Units(e.size));
    hide BinSize, BinPages, Elements, Units, Unmapped, ChunksOk, RunsOk, SlotsOk, FreeOk, LiveOk, HugeOk, RegionsOk;
    var s' := AddHuge(s, e, data);
    FreeBeside(s.slots, s.free, s.live, s'.live);
    LiveAddHuge(s, e, data);
    RegionsAddHuge(s, e);
    HugeAdded(s, e, s'.live);
  }

  // A list without its element i.
  function Without<T>(s: seq<T>, i: nat): (r: seq<T>)
    requires i < |s|
    ensures |r| == |s| - 1
    ensures forall j :: 0 <= j < |r| ==> r[j] == s[if j < i then j else j + 1]
    ensures forall j :: 0 <= j < |s| && j != i ==> s[j] == r[if j < i then j else j - 1]
  {
    s[..i] + s[i + 1..]
  }

  // Huge block i leaves the list and its region is unmapped.
  ghost function RemoveHuge(s: State, i: nat): State
    requires i < |s.huge|
  {
    s.(huge := Without(s.huge, i), live := s.live - {s.huge[i].ptr})
  }

  lemma RemoveHugeInv(s: State, i: nat)
    requires Inv(s) && i < |s.huge|
    ensures Inv(RemoveHuge(s, i))
    ensures forall j :: 0 <= j < |RemoveHuge(s, i).huge| ==> RemoveHuge(s, i).huge[j].node != s.huge[i].node
  {
    hide BinSize, BinPages, Elements, Units, ChunksOk, RunsOk, SlotsOk, FreeOk, LiveOk, HugeOk, RegionsOk;
    var p, s' := s.huge[i].ptr, RemoveHuge(s, i);
    HugeIsNoSlot(s, i);
    FreeBeside(s.slots, s.free, s.live, s'.live);
    LiveRemoveHuge(s, i);
    HugeRemoved(s, i);
    RegionsRemoved(s, i);
  }

  lemma HugeIsNoSlot(s: State, i: nat)
    requires Inv(s) && i < |s.huge|
    ensures s.huge[i].ptr !in s.slots && s.huge[i].ptr in s.live && s.live[s.huge[i].ptr].kind == HugeBlock
    ensures |s.live[s.huge[i].ptr].data| == s.huge[i].size
    ensures forall j :: 0 <= j < |s.huge| ==> s.huge[j].node != s.huge[i].ptr
  {
    hide BinSize, BinPages, Elements, Units, ChunksOk, RegionsOk;
    var p := s.huge[i].ptr;
    if p in s.slots { SlotBounds(s.runs, s.slots, p); }
    assert BlockOk(s.runs, s.slots, s.huge, p, s.live[p]);
  }

  lemma HugeStays(huge: seq<Huge>, i: nat, p: Ptr, size: nat)
    requires i < |huge| && IsHuge(huge, p, size) && p != huge[i].ptr
    ensures IsHuge(Without(huge, i), p, size)
  {
    var j :| 0 <= j < |huge| && huge[j].ptr == p && huge[j].size == size;
    assert Without(huge, i)[if j < i then j else j - 1] == huge[j];
  }

  lemma LiveRemoveHuge(s: State, i: nat)
    requires LiveOk(s.runs, s.slots, s.huge, s.live) && HugeOk(s.slots, s.huge, s.live) && i < |s.huge|
    ensures LiveOk(s.runs, s.slots, Without(s.huge, i), s.live - {s.huge[i].ptr})
  {
    hide BinSize, Without;
    var huge, live := Without(s.huge, i), s.live - {s.huge[i].ptr};
    assert s.live[s.huge[i].ptr].kind == HugeBlock;
    forall p | p in live ensures BlockOk(s.runs, s.slots, huge, p, live[p]) {
      assert BlockOk(s.runs, s.slots, s.huge, p, s.live[p]);
      if live[p].kind == HugeBlock { HugeStays(s.huge, i, p, |live[p].data|); }
    }
    forall j | 0 <= j < |huge| ensures huge[j].ptr in live && live[huge[j].ptr].kind == HugeBlock {
      assert huge[j] == s.huge[if j < i then j else j + 1];
    }
  }

  lemma HugeRemoved(s: State, i: nat)
    requires HugeOk(s.slots, s.huge, s.live) && i < |s.huge|
    requires forall j :: 0 <= j < |s.huge| ==> s.huge[j].node != s.huge[i].ptr
    ensures HugeOk(s.slots, Without(s.huge, i), s.live - {s.huge[i].ptr})
    ensures forall j :: 0 <= j < |Without(s.huge, i)| ==> Without(s.huge, i)[j].node != s.huge[i].node
  {
    var huge := Without(s.huge, i);
  }

  lemma RegionsRemoved(s: State, i: nat)
    requires RegionsOk(s.ring, s.cached, s.huge) && i < |s.huge|
    ensures RegionsOk(s.ring, s.cached, Without(s.huge, i))
  {
    hide Units, Outside, Apart, Without;
    var huge := Without(s.huge, i);
    LeftApart(s.huge, huge, i);
    forall j | 0 <= j < |huge| ensures 0 < huge[j].ptr.chunk
      && Outside(s.ring + s.cached, huge[j].ptr.chunk, Units(huge[j].size))
    {
      assert huge[j] == s.huge[if j < i then j else j + 1];
    }
  }

  lemma LeftApart(all: seq<Huge>, huge: seq<Huge>, i: nat)
    requires i < |all| && huge == Without(all, i)
    requires forall j, k :: 0 <= j < |all| && 0 <= k < |all| && j != k ==>
      Apart(all[j].ptr.chunk, Units(all[j].size), all[k].ptr.chunk, Units(all[k].size))
    ensures forall j, k :: 0 <= j < |huge| && 0 <= k < |huge| && j != k ==>
      Apart(huge[j].ptr.chunk, Units(huge[j].size), huge[k].ptr.chunk, Units(huge[k].size))
  {
    hide Units, Apart, Without;
    forall j, k | 0 <= j < |huge| && 0 <= k < |huge| && j != k
      ensures Apart(huge[j].ptr.chunk, Units(huge[j].size), huge[k].ptr.chunk, Units(huge[k].size))
    {
      assert huge[j] == all[if j < i then j else j + 1] && huge[k] == all[if k < i then k else k + 1];
    }
  }

  // A huge block is truncated or extended in place.
  ghost function ResizeHuge(s: State, i: nat, size: nat, data: seq<bv8>): State
    requires i < |s.huge|
  {
    s.(huge := s.huge[i := s.huge[i].(size := size)], live := s.live[s.huge[i].ptr := Block(HugeBlock, data)])
  }

  // The address space behind a huge block up to the new size is nobody else's.
  ghost predicate Extensible(s: State, i: nat, size: nat)
    requires i < |s.huge|
  {
    && Outside(s.ring + s.cached, s.huge[i].ptr.chunk, Units(size))
    && forall j :: 0 <= j < |s.huge| && j != i ==>
      Apart(s.huge[j].ptr.chunk, Units(s.huge[j].size), s.huge[i].ptr.chunk, Units(size))
  }

  lemma SmallerIsExtensible(s: State, i: nat, size: nat)
    requires Inv(s) && i < |s.huge| && size <= s.huge[i].size
    ensures Extensible(s, i, size)
  {
    hide ChunksOk, RunsOk, SlotsOk, FreeOk, LiveOk, HugeOk;
    assert Units(size) <= Units(s.huge[i].size);
  }

  lemma LiveResizeHuge(s: State, i: nat, size: nat, data: seq<bv8>)
    requires LiveOk(s.runs, s.slots, s.huge, s.live) && HugeOk(s.slots, s.huge, s.live) && i < |s.huge|
      && |data| == size
    requires s.huge[i].ptr !in s.slots
    ensures LiveOk(s.runs, s.slots, s.huge[i := s.huge[i].(size := size)],
      s.live[s.huge[i].ptr := Block(HugeBlock, data)])
  {
    hide BinSize;
    var huge, live := s.huge[i := s.huge[i].(size := size)], s.live[s.huge[i].ptr := Block(HugeBlock, data)];
    forall p | p in live ensures BlockOk(s.runs, s.slots, huge, p, live[p]) {
      if p == s.huge[i].ptr {
        assert huge[i].ptr == p && huge[i].size == size;
      } else {
        assert BlockOk(s.runs, s.slots, s.huge, p, s.live[p]);
        if live[p].kind == HugeBlock {
          var j :| 0 <= j < |s.huge| && s.huge[j].ptr == p && s.huge[j].size == |live[p].data|;
          assert huge[j] == s.huge[j];
        }
      }
    }
  }

  lemma HugeResized(s: State, i: nat, size: nat, live: map<Ptr, Block>)
    requires HugeOk(s.slots, s.huge, s.live) && i < |s.huge| && 0 < size && size % PAGE == 0
    requires forall p :: p in s.live ==> p in live
    ensures HugeOk(s.slots, s.huge[i := s.huge[i].(size := size)], live)
  {}

  lemma RegionsResized(s: State, i: nat, size: nat)
    requires RegionsOk(s.ring, s.cached, s.huge) && i < |s.huge| && Extensible(s, i, size)
    ensures RegionsOk(s.ring, s.cached, s.huge[i := s.huge[i].(size := size)])
  {
    hide Units, Outside;
  }

  lemma ResizeHugeInv(s: State, i: nat, size: nat, data: seq<bv8>)
    requires Inv(s) && i < |s.huge| && 0 < size && size % PAGE == 0 && |data| == size && Extensible(s, i, size)
    ensures Inv(ResizeHuge(s, i, size, data))
  {
    hide BinSize, BinPages, Elements, Units, Extensible, ChunksOk, RunsOk, SlotsOk, FreeOk, LiveOk, HugeOk, RegionsOk;
    var s' := ResizeHuge(s, i, size, data);
    HugeIsNoSlot(s, i);
    FreeBeside(s.slots, s.free, s.live, s'.live);
    LiveResizeHuge(s, i, size, data);
    HugeResized(s, i, size, s'.live);
    RegionsResized(s, i, size);
  }

  // Chunks are taken into the ring, dropped, cached or moved; runs stay where they are.
  lemma RechunkInv(s: State, ring: seq<nat>, cached: seq<nat>)
    requires Inv(s) && ChunksOk(ring, cached)
    requires forall l :: l in s.runs ==> l.chunk in ring
    requires forall c :: c in ring + cached ==> c in s.ring + s.cached || Unmapped(s, c, 1)
    ensures Inv(s.(ring := ring, cached := cached))
  {
    hide BinSize, BinPages, Elements, Length, Units, Distinct, SlotsOk, FreeOk, LiveOk, HugeOk;
    assert RunsOk(ring, s.runs);
    forall i | 0 <= i < |s.huge| ensures Outside(ring + cached, s.huge[i].ptr.chunk, Units(s.huge[i].size)) {
      forall c | c in ring + cached ensures !(s.huge[i].ptr.chunk <= c < s.huge[i].ptr.chunk + Units(s.huge[i].size)) {
        if c !in s.ring + s.cached { assert Apart(s.huge[i].ptr.chunk, Units(s.huge[i].size), c, 1); }
      }
    }
    assert RegionsOk(ring, cached, s.huge);
  }

  // ---- collecting the small runs that are entirely free ----

  // The list without the slots of the runs in gone, in order.
  ghost function Kept(list: seq<Ptr>, slots: map<Ptr, Slot>, gone: set<Loc>): seq<Ptr>
  {
    if list == [] then []
    else
      var p := list[|list| - 1];
      Kept(list[..|list| - 1], slots, gone) + if p in slots && slots[p].run in gone then [] else [p]
  }

  lemma {:induction false} KeptAre(list: seq<Ptr>, slots: map<Ptr, Slot>, gone: set<Loc>, p: Ptr)
    ensures p in Kept(list, slots, gone) <==> p in list && !(p in slots && slots[p].run in gone)
  {
    if list != [] {
      var rest := list[..|list| - 1];
      assert list == rest + [list[|list| - 1]];
      KeptAre(rest, slots, gone, p);
    }
  }

  lemma {:induction false} KeptDistinct(list: seq<Ptr>, slots: map<Ptr, Slot>, gone: set<Loc>)
    requires Distinct(list)
    ensures Distinct(Kept(list, slots, gone))
  {
    if list != [] {
      var rest := list[..|list| - 1];
      KeptDistinct(rest, slots, gone);
      KeptAre(rest, slots, gone, list[|list| - 1]);
    }
  }

  ghost function Collect(s: State, gone: set<Loc>): State
    requires |s.free| == BINS
  {
    s.(runs := s.runs - gone,
       slots := map p | p in s.slots && s.slots[p].run !in gone :: s.slots[p],
       free := seq(BINS, b requires 0 <= b < BINS => Kept(s.free[b], s.slots, gone)))
  }

  // A small run without a live element.
  ghost predicate Idle(s: State, l: Loc)
  {
    l in s.runs && s.runs[l].Small? && forall p :: p in s.slots && s.slots[p].run == l ==> p !in s.live
  }

  lemma SlotsCollect(runs: map<Loc, Run>, slots: map<Ptr, Slot>, slots': map<Ptr, Slot>, gone: set<Loc>)
    requires SlotsOk(runs, slots)
    requires forall p :: p in slots' <==> p in slots && slots[p].run !in gone
    requires forall p :: p in slots' ==> slots'[p] == slots[p]
    ensures SlotsOk(runs - gone, slots')
  {
    hide Elements, BinSize;
  }

  lemma FreeCollect(s: State, gone: set<Loc>, slots': map<Ptr, Slot>, free': seq<seq<Ptr>>)
    requires FreeOk(s.slots, s.free, s.live)
    requires forall p :: p in slots' <==> p in s.slots && s.slots[p].run !in gone
    requires forall p :: p in slots' ==> slots'[p] == s.slots[p]
    requires |free'| == BINS && forall b :: 0 <= b < BINS ==> free'[b] == Kept(s.free[b], s.slots, gone)
    ensures FreeOk(slots', free', s.live)
  {
    hide Kept, Distinct;
    forall b | 0 <= b < BINS
      ensures Distinct(free'[b])
      ensures forall p :: p in free'[b] <==> p in s.free[b] && !(p in s.slots && s.slots[p].run in gone)
    {
      KeptDistinct(s.free[b], s.slots, gone);
      forall p ensures p in free'[b] <==> p in s.free[b] && !(p in s.slots && s.slots[p].run in gone) {
        KeptAre(s.free[b], s.slots, gone, p);
      }
    }
  }

  lemma LiveCollect(s: State, gone: set<Loc>, slots': map<Ptr, Slot>)
    requires LiveOk(s.runs, s.slots, s.huge, s.live) && forall l :: l in gone ==> Idle(s, l)
    requires forall p :: p in slots' <==> p in s.slots && s.slots[p].run !in gone
    requires forall p :: p in slots' ==> slots'[p] == s.slots[p]
    ensures LiveOk(s.runs - gone, slots', s.huge, s.live)
  {
    hide BinSize;
    forall p | p in s.live ensures BlockOk(s.runs - gone, slots', s.huge, p, s.live[p]) {
      assert BlockOk(s.runs, s.slots, s.huge, p, s.live[p]);
    }
  }

  lemma HugeCollect(s: State, gone: set<Loc>, slots': map<Ptr, Slot>)
    requires HugeOk(s.slots, s.huge, s.live) && forall l :: l in gone ==> Idle(s, l)
    requires forall p :: p in slots' <==> p in s.slots && s.slots[p].run !in gone
    requires forall p :: p in slots' ==> slots'[p] == s.slots[p]
    ensures HugeOk(slots', s.huge, s.live)
  {}

  /** Collecting idle runs keeps every live block and the whole invariant. */
  lemma CollectInv(s: State, gone: set<Loc>)
    requires Inv(s) && forall l :: l in gone ==> Idle(s, l)
    ensures Inv(Collect(s, gone)) && Collect(s, gone).live == s.live
  {
    FreeCount(s);
    hide BinSize, BinPages, Elements, Units, Kept, Idle, ChunksOk, RunsOk, SlotsOk, FreeOk, LiveOk, HugeOk, RegionsOk;
    var s' := Collect(s, gone);
    RunsRemoved(s.ring, s.runs, gone);
    SlotsCollect(s.runs, s.slots, s'.slots, gone);
    FreeCollect(s, gone, s'.slots, s'.free);
    LiveCollect(s, gone, s'.slots);
    HugeCollect(s, gone, s'.slots);
  }

  // What zend_mm_gc frees: the idle runs of every class but 0.
  ghost function Garbage(s: State): set<Loc>
  {
    set l | l in s.runs && Idle(s, l) && s.runs[l].bin != 0
  }

  /** A second collection finds nothing. */
  lemma GarbageGone(s: State)
    requires Inv(s)
    ensures Garbage(Collect(s, Garbage(s))) == {}
  {
    FreeCount(s);
    hide BinSize, BinPages, Elements, Kept, ChunksOk, RunsOk, FreeOk, LiveOk, HugeOk, RegionsOk;
    var s' := Collect(s, Garbage(s));
    forall l | l in s'.runs ensures !(Idle(s', l) && s'.runs[l].bin != 0) {
      assert Idle(s', l) ==> Idle(s, l) by {
        assert forall p :: p in s.slots && s.slots[p].run == l ==> p in s'.slots;
      }
      assert l !in Garbage(s);
    }
  }

  // How many slots of run l a list holds.
  ghost function Count(list: seq<Ptr>, slots: map<Ptr, Slot>, l: Loc): nat
  {
    if list == [] then 0
    else
      var p := list[|list| - 1];
      Count(list[..|list| - 1], slots, l) + if p in slots && slots[p].run == l then 1 else 0
  }

  ghost function Indices(list: seq<Ptr>, slots: map<Ptr, Slot>, l: Loc): set<nat>
  {
    set p | p in list && p in slots && slots[p].run == l :: slots[p].index
  }

  lemma {:induction false} CountIndices(runs: map<Loc, Run>, list: seq<Ptr>, slots: map<Ptr, Slot>, l: Loc)
    requires SlotsOk(runs, slots) && Distinct(list)
    ensures |Indices(list, slots, l)| == Count(list, slots, l)
  {
    hide SlotsOk;
    if list != [] {
      var rest, p := list[..|list| - 1], list[|list| - 1];
      assert list == rest + [p];
      CountIndices(runs, rest, slots, l);
      if p in slots && slots[p].run == l {
        assert Indices(list, slots, l) == Indices(rest, slots, l) + {slots[p].index};
        if slots[p].index in Indices(rest, slots, l) {
          var q :| q in rest && q in slots && slots[q].run == l && slots[q].index == slots[p].index;
          SameSlot(runs, slots, p, q);
        }
      } else {
        assert Indices(list, slots, l) == Indices(rest, slots, l);
      }
    }
  }

  lemma SameSlot(runs: map<Loc, Run>, slots: map<Ptr, Slot>, p: Ptr, q: Ptr)
    requires SlotsOk(runs, slots) && p in slots && q in slots
    requires slots[p].run == slots[q].run && slots[p].index == slots[q].index
    ensures p == q
  {
    hide Elements, BinSize;
  }

  lemma IndicesBounded(runs: map<Loc, Run>, list: seq<Ptr>, slots: map<Ptr, Slot>, l: Loc, b: Bin)
    requires SlotsOk(runs, slots) && l in runs && runs[l] == Small(b)
    ensures Indices(list, slots, l) <= Interval(0, Elements(b))
  {
    hide Elements, BinSize;
  }

  lemma IndicesFull(runs: map<Loc, Run>, list: seq<Ptr>, slots: map<Ptr, Slot>, l: Loc, b: Bin)
    requires SlotsOk(runs, slots) && l in runs && runs[l] == Small(b)
    requires AllListed(list, slots, l)
    ensures Interval(0, Elements(b)) <= Indices(list, slots, l)
  {
    hide Elements, BinSize;
    forall k | k in Interval(0, Elements(b)) ensures k in Indices(list, slots, l) {
      assert SlotPtr(l, b, k) in slots && slots[SlotPtr(l, b, k)] == Slot(l, b, k);
    }
  }

  lemma IndexListed(runs: map<Loc, Run>, list: seq<Ptr>, slots: map<Ptr, Slot>, l: Loc, p: Ptr)
    requires SlotsOk(runs, slots) && p in slots && slots[p].run == l && slots[p].index in Indices(list, slots, l)
    ensures p in list
  {
    hide SlotsOk;
    var q :| q in list && q in slots && slots[q].run == l && slots[q].index == slots[p].index;
    SameSlot(runs, slots, p, q);
  }

  ghost predicate AllListed(list: seq<Ptr>, slots: map<Ptr, Slot>, l: Loc)
  {
    forall p :: p in slots && slots[p].run == l ==> p in list
  }

  lemma FullListed(runs: map<Loc, Run>, list: seq<Ptr>, slots: map<Ptr, Slot>, l: Loc, b: Bin)
    requires SlotsOk(runs, slots) && l in runs && runs[l] == Small(b)
    requires Indices(list, slots, l) == Interval(0, Elements(b))
    ensures AllListed(list, slots, l)
  {
    hide Elements, Indices, BinSize;
    forall p | p in slots && slots[p].run == l ensures p in list {
      assert slots[p].index in Interval(0, Elements(b));
      IndexListed(runs, list, slots, l, p);
    }
  }

  /** The counter of a run reaches the number of its elements exactly when the free list holds them all. */
  lemma CountFull(runs: map<Loc, Run>, list: seq<Ptr>, slots: map<Ptr, Slot>, l: Loc, b: Bin)
    requires SlotsOk(runs, slots) && Distinct(list) && l in runs && runs[l] == Small(b)
    ensures Count(list, slots, l) <= Elements(b)
    ensures Count(list, slots, l) == Elements(b) <==> AllListed(list, slots, l)
  {
    hide *;
    var have, all := Indices(list, slots, l), Interval(0, Elements(b));
    CountIndices(runs, list, slots, l);
    IndicesBounded(runs, list, slots, l, b);
    Subset(have, all);
    if |have| == |all| {
      SameSize(have, all);
      FullListed(runs, list, slots, l, b);
    }
    if AllListed(list, slots, l) {
      IndicesFull(runs, list, slots, l, b);
      assert have == all;
    }
  }

  lemma SameSize(a: set<nat>, b: set<nat>)
    requires a <= b && |a| == |b|
    ensures a == b
  {
    assert b == a + (b - a);
  }

  /** A run is idle exactly when its free list holds all its elements. */
  lemma IdleListed(s: State, l: Loc)
    requires Inv(s) && l in s.runs && s.runs[l].Small?
    ensures |s.free| == BINS
    ensures Idle(s, l) <==> AllListed(s.free[s.runs[l].bin], s.slots, l)
  {
    hide BinSize, BinPages, Elements, ChunksOk, RunsOk, LiveOk, HugeOk, RegionsOk, Distinct;
  }

  // ---- bytes in use ----

  ghost function Bytes(live: map<Ptr, Block>): nat
  {
    if live == map[] then 0 else var p :| p in live; |live[p].data| + Bytes(live - {p})
  }

  lemma {:induction false} BytesWithout(live: map<Ptr, Block>, p: Ptr)
    requires p in live
    ensures Bytes(live) == |live[p].data| + Bytes(live - {p})
    decreases |live|
  {
    var q :| q in live && Bytes(live) == |live[q].data| + Bytes(live - {q});
    if q != p {
      BytesWithout(live - {q}, p);
      BytesWithout(live - {p}, q);
      assert live - {q} - {p} == live - {p} - {q};
    }
  }

  /** Putting a block into the live ones adds its size, less the size of the block it replaces. */
  lemma BytesPut(live: map<Ptr, Block>, p: Ptr, b: Block)
    ensures Bytes(live[p := b]) == Bytes(live) + |b.data| - if p in live then |live[p].data| else 0
  {
    BytesWithout(live[p := b], p);
    assert live[p := b] - {p} == live - {p};
    if p in live { BytesWithout(live, p); } else { assert live - {p} == live; }
  }

  ghost function HugeBytes(huge: seq<Huge>): nat
  {
    if huge == [] then 0 else huge[0].size + HugeBytes(huge[1..])
  }

  lemma WithoutTail<T>(s: seq<T>, i: nat)
    requires 0 < i < |s|
    ensures Without(s, i) == [s[0]] + Without(s[1..], i - 1)
  {
    PiecesTail(s, i);
  }

  lemma PiecesTail<T>(s: seq<T>, i: nat)
    requires 0 < i < |s|
    ensures s[..i] + s[i + 1..] == [s[0]] + (s[1..][..i - 1] + s[1..][i..])
  {
    assert s[1..][i..] == s[i + 1..];
    assert s[..i] == [s[0]] + s[1..][..i - 1];
  }

  lemma {:induction false} HugeBytesWithout(huge: seq<Huge>, i: nat)
    requires i < |huge|
    ensures HugeBytes(huge) == huge[i].size + HugeBytes(Without(huge, i))
  {
    if i > 0 {
      HugeBytesWithout(huge[1..], i - 1);
      WithoutTail(huge, i);
      var rest := Without(huge[1..], i - 1);
      hide Without;
      assert ([huge[0]] + rest)[1..] == rest;
    } else {
      assert Without(huge, 0) == huge[1..];
    }
  }

  lemma {:induction false} HugeBytesResized(huge: seq<Huge>, i: nat, size: nat)
    requires i < |huge|
    ensures HugeBytes(huge[i := huge[i].(size := size)]) == HugeBytes(huge) + size - huge[i].size
  {
    var huge' := huge[i := huge[i].(size := size)];
    if i > 0 {
      HugeBytesResized(huge[1..], i - 1, size);
      assert huge'[1..] == huge[1..][i - 1 := huge[1..][i - 1].(size := size)];
    } else {
      assert huge'[1..] == huge[1..];
    }
  }

  // ---- the main consequence ----

  function Addr(p: Ptr): nat
  {
    p.chunk * CHUNK + p.off
  }

  // The bytes [a, a+m) and [b, b+n) do not overlap.
  predicate BytesApart(a: nat, m: nat, b: nat, n: nat)
  {
    a + m <= b || b + n <= a
  }

  // The run a block in a chunk lies in.
  ghost function RunOf(s: State, p: Ptr): Loc
  {
    if p in s.slots then s.slots[p].run else Loc(p.chunk, p.off / PAGE)
  }

  lemma InItsRun(s: State, p: Ptr)
    requires Inv(s) && p in s.live && s.live[p].kind != HugeBlock
    ensures RunOf(s, p) in s.runs && p.chunk == RunOf(s, p).chunk && 1 <= RunOf(s, p).page
    ensures RunOf(s, p).page * PAGE <= p.off
    ensures p.off + |s.live[p].data| <= (RunOf(s, p).page + Length(s.runs[RunOf(s, p)])) * PAGE <= CHUNK
    ensures p.chunk in s.ring
  {
    hide BinSize, BinPages, Elements, ChunksOk, FreeOk, HugeOk, RegionsOk;
    assert BlockOk(s.runs, s.slots, s.huge, p, s.live[p]);
    if p in s.slots { SlotBounds(s.runs, s.slots, p); } else { LengthLarge(s.runs[RunOf(s, p)].pages); }
  }

  lemma SameRunApart(s: State, p: Ptr, q: Ptr)
    requires Inv(s) && p in s.live && q in s.live && p != q
    requires s.live[p].kind != HugeBlock && s.live[q].kind != HugeBlock && RunOf(s, p) == RunOf(s, q)
    ensures BytesApart(p.off, |s.live[p].data|, q.off, |s.live[q].data|)
  {
    hide BinSize, BinPages, Elements, Length, ChunksOk, FreeOk, HugeOk, RegionsOk;
    assert BlockOk(s.runs, s.slots, s.huge, p, s.live[p]) && BlockOk(s.runs, s.slots, s.huge, q, s.live[q]);
    var l := RunOf(s, p);
    if p in s.slots && q in s.slots {
      var i, j := s.slots[p].index, s.slots[q].index;
      if i < j { SlotsApart(l, s.slots[p].bin, i, j); }
      if j < i { SlotsApart(l, s.slots[p].bin, j, i); }
    }
  }

  lemma ChunkBlocksApart(s: State, p: Ptr, q: Ptr)
    requires Inv(s) && p in s.live && q in s.live && p != q
    requires s.live[p].kind != HugeBlock && s.live[q].kind != HugeBlock
    ensures BytesApart(Addr(p), |s.live[p].data|, Addr(q), |s.live[q].data|)
  {
    InItsRun(s, p);
    InItsRun(s, q);
    var l, m := RunOf(s, p), RunOf(s, q);
    if l == m {
      SameRunApart(s, p, q);
    } else {
      hide BinSize, BinPages, Elements, Length, RunOf, ChunksOk, SlotsOk, FreeOk, LiveOk, HugeOk, RegionsOk;
    }
  }

  lemma HugeEntry(s: State, p: Ptr) returns (i: nat)
    requires Inv(s) && p in s.live && s.live[p].kind == HugeBlock
    ensures i < |s.huge| && s.huge[i].ptr == p && s.huge[i].size == |s.live[p].data| && p.off == 0 && 0 < s.huge[i].size
  {
    hide ChunksOk, RunsOk, SlotsOk, FreeOk, RegionsOk, BinSize;
    assert BlockOk(s.runs, s.slots, s.huge, p, s.live[p]);
    i :| 0 <= i < |s.huge| && s.huge[i].ptr == p && s.huge[i].size == |s.live[p].data|;
  }

  lemma HugesApart(s: State, p: Ptr, q: Ptr)
    requires Inv(s) && p in s.live && q in s.live && p != q
    requires s.live[p].kind == HugeBlock && s.live[q].kind == HugeBlock
    ensures BytesApart(Addr(p), |s.live[p].data|, Addr(q), |s.live[q].data|)
  {
    hide ChunksOk, RunsOk, SlotsOk, FreeOk, LiveOk, HugeOk, Units;
    var i := HugeEntry(s, p);
    var j := HugeEntry(s, q);
    UnitsPositive(s.huge[i].size);
    UnitsPositive(s.huge[j].size);
    assert Apart(p.chunk, Units(s.huge[i].size), q.chunk, Units(s.huge[j].size));
  }

  lemma HugeApart(s: State, p: Ptr, q: Ptr)
    requires Inv(s) && p in s.live && q in s.live && p != q
    requires s.live[p].kind == HugeBlock && s.live[q].kind != HugeBlock
    ensures BytesApart(Addr(p), |s.live[p].data|, Addr(q), |s.live[q].data|)
  {
    hide ChunksOk, RunsOk, SlotsOk, FreeOk, LiveOk, HugeOk, Units, RunOf, Length;
    var i := HugeEntry(s, p);
    InItsRun(s, q);
    UnitsPositive(s.huge[i].size);
    assert q.chunk in s.ring + s.cached;
    assert Outside(s.ring + s.cached, p.chunk, Units(s.huge[i].size));
  }

  /** Any two live blocks are disjoint ranges of bytes. */
  lemma LiveBlocksApart(s: State, p: Ptr, q: Ptr)
    requires Inv(s) && p in s.live && q in s.live && p != q
    ensures BytesApart(Addr(p), |s.live[p].data|, Addr(q), |s.live[q].data|)
  {
    hide *;
    if s.live[p].kind == HugeBlock && s.live[q].kind == HugeBlock {
      HugesApart(s, p, q);
    } else if s.live[p].kind == HugeBlock {
      HugeApart(s, p, q);
    } else if s.live[q].kind == HugeBlock {
      HugeApart(s, q, p);
      ApartSymmetric(Addr(q), |s.live[q].data|, Addr(p), |s.live[p].data|);
    } else {
      ChunkBlocksApart(s, p, q);
    }
  }

  lemma ApartSymmetric(a: nat, m: nat, b: nat, n: nat)
    requires BytesApart(a, m, b, n)
    ensures BytesApart(b, n, a, m)
  {}

  /** A chunk without runs leaves the ring; it goes to the cache, replaces the head of the cache or is unmapped. */
  lemma DropChunkInv(s: State, i: nat, cached: seq<nat>)
    requires Inv(s) && 0 < i < |s.ring| && forall l :: l in s.runs ==> l.chunk != s.ring[i]
    requires cached == s.cached || cached == [s.ring[i]] + s.cached
      || (s.cached != [] && cached == [s.ring[i]] + s.cached[1..])
    ensures Inv(s.(ring := Without(s.ring, i), cached := cached))
  {
    hide SlotsOk, FreeOk, LiveOk, HugeOk, RegionsOk, Without;
    var ring := Without(s.ring, i);
    forall l | l in s.runs ensures l.chunk in ring {
      var j :| 0 <= j < |s.ring| && s.ring[j] == l.chunk;
      assert ring[if j < i then j else j - 1] == l.chunk;
    }
    hide RunsOk;
    DropDistinct(s.ring, s.cached, i, cached);
    forall c | c in ring + cached ensures c in s.ring + s.cached {}
    hide ChunksOk;
    RechunkInv(s, ring, cached);
  }

  lemma WithoutDistinct<T>(s: seq<T>, i: nat)
    requires Distinct(s) && i < |s|
    ensures Distinct(Without(s, i))
    ensures forall x :: x in Without(s, i) <==> x in s && x != s[i]
  {
    forall x | x in s && x != s[i] ensures x in Without(s, i) {
      var j :| 0 <= j < |s| && s[j] == x;
      assert Without(s, i)[if j < i then j else j - 1] == x;
    }
  }

  lemma DropDistinct(ring: seq<nat>, cached: seq<nat>, i: nat, cached': seq<nat>)
    requires ChunksOk(ring, cached) && 0 < i < |ring|
    requires cached' == cached || cached' == [ring[i]] + cached || (cached != [] && cached' == [ring[i]] + cached[1..])
    ensures ChunksOk(Without(ring, i), cached')
  {
    hide Without;
    WithoutDistinct(ring, i);
    assert ring[i] in ring;
    assert forall c :: c in cached' ==> c in cached || c == ring[i];
  }
}
