/** What the operations of the heap do to its state, and what its clients see of it. */
module HeapSteps {
  import opened Sizes
  import opened Chunks
  import opened HeapState
  import opened HeapShape
  import opened Collecting

  // What getting a chunk may do to the heap: slots and chunks come and go, blocks stay.
  ghost predicate Trimmed(s: State, s': State)
  {
    && s'.live == s.live && s'.huge == s.huge
    && s.ring != [] && s'.ring != [] && s'.ring[0] == s.ring[0]
    && |s.free| == |s'.free| == BINS && forall b :: 0 <= b < BINS && s.free[b] == [] ==> s'.free[b] == []
  }

  lemma TrimmedOn(a: State, b: State, c: State)
    requires Trimmed(a, b) && Trimmed(b, c)
    ensures Trimmed(a, c)
  {}

  // A large run of n pages at p has become live; blocks, huge blocks and free lists are as before.
  ghost predicate RunAdded(s: State, s': State, p: Ptr, n: nat, data: seq<bv8>)
  {
    && p !in s.live && s'.live == s.live[p := Block(LargeBlock, data)]
    && p == RunPtr(Loc(p.chunk, p.off / 4096)) && Loc(p.chunk, p.off / 4096) in s'.runs
    && s'.runs[Loc(p.chunk, p.off / 4096)] == Large(n)
    && s'.runs == s.runs[Loc(p.chunk, p.off / 4096) := Large(n)] && s'.slots == s.slots
    && s'.huge == s.huge && s'.free == s.free
    && s.ring != [] && s'.ring != [] && s'.ring[0] == s.ring[0]
  }

  lemma AddedRun(s: State, mid: State, l: Loc, n: nat, data: seq<bv8>)
    requires mid == s.(ring := mid.ring) && s.ring != [] && mid.ring != [] && mid.ring[0] == s.ring[0]
    ensures RunPtr(l) !in mid.live ==> RunAdded(s, AddLarge(mid, l, n, data), RunPtr(l), n, data)
  {}

  // Pages are allocated, perhaps after a collection.
  ghost predicate PagesAdded(s: State, s': State, p: Ptr, n: nat, data: seq<bv8>)
  {
    && p !in s.live && s'.live == s.live[p := Block(LargeBlock, data)]
    && p == RunPtr(Loc(p.chunk, p.off / 4096)) && Loc(p.chunk, p.off / 4096) in s'.runs
    && s'.runs[Loc(p.chunk, p.off / 4096)] == Large(n)
    && s'.huge == s.huge
    && s.ring != [] && s'.ring != [] && s'.ring[0] == s.ring[0]
    && |s.free| == |s'.free| == BINS && forall b :: 0 <= b < BINS && s.free[b] == [] ==> s'.free[b] == []
  }

  lemma PagesAfterTrim(s: State, mid: State, s': State, p: Ptr, n: nat, data: seq<bv8>)
    requires Trimmed(s, mid) && RunAdded(mid, s', p, n, data)
    ensures PagesAdded(s, s', p, n, data)
  {}

  // Block p holds a list entry of a huge block.
  ghost predicate IsNode(s: State, p: Ptr)
  {
    exists i :: 0 <= i < |s.huge| && s.huge[i].node == p
  }

  lemma NotNode(s: State, p: Ptr)
    ensures !IsNode(s, p) <==> forall i :: 0 <= i < |s.huge| ==> s.huge[i].node != p
  {}

  // What the page entry of block p says.
  ghost predicate EntryFits(s: State, p: Ptr, page: nat, info: PageInfo)
    requires p in s.live
  {
    match s.live[p].kind
    case SmallBlock =>
      p in s.slots && |s.live[p].data| == BinSize(s.slots[p].bin)
      && (info.Srun? || info.Nrun?) && info.bin == s.slots[p].bin
    case LargeBlock =>
      var l := Loc(p.chunk, page);
      p == RunPtr(l) && l in s.runs && s.runs[l].Large? && info == Lrun(s.runs[l].pages)
        && |s.live[p].data| == s.runs[l].pages * PAGE
    case HugeBlock => false
  }

  lemma EntryOfBlock(s: State, c: Chunk, p: Ptr, page: nat)
    requires Inv(s) && InUse(c, s.runs) && p in s.live && s.live[p].kind != HugeBlock && c.number == p.chunk
      && page == p.off / 4096
    ensures page < c.info.Length && EntryFits(s, p, page, c.info[page]) && PAGE == 4096
  {
    hide *;
    UseParts(c, s.runs);
    BlockIs(s, p);
    if s.live[p].kind == SmallBlock {
      PageOfSlot(s, p);
      EntryOfSlot(c, s.runs, s.slots[p].run, s.slots[p].bin, page);
      SmallFits(s, p, page, c.info[page]);
    } else {
      RunInTable(c, s.runs, page);
      EntryOf(c, page);
      LargeFits(s, p, page, c.info[page]);
    }
  }

  lemma BlockIs(s: State, p: Ptr)
    requires Inv(s) && p in s.live
    ensures s.live[p].kind == SmallBlock ==> p in s.slots && |s.live[p].data| == BinSize(s.slots[p].bin)
    ensures s.live[p].kind == LargeBlock ==>
      var l := Loc(p.chunk, p.off / 4096);
      p == RunPtr(l) && l in s.runs && s.runs[l].Large? && |s.live[p].data| == s.runs[l].pages * PAGE
  {
    hide ChunksOk, RunsOk, SlotsOk, FreeOk, HugeOk, RegionsOk, BinSize, IsHuge;
    assert BlockOk(s.runs, s.slots, s.huge, p, s.live[p]);
  }

  lemma SmallFits(s: State, p: Ptr, page: nat, info: PageInfo)
    requires p in s.live && s.live[p].kind == SmallBlock && p in s.slots && |s.live[p].data| == BinSize(s.slots[p].bin)
    requires (info.Srun? || info.Nrun?) && info.bin == s.slots[p].bin
    ensures EntryFits(s, p, page, info)
  {}

  lemma LargeFits(s: State, p: Ptr, page: nat, info: PageInfo)
    requires p in s.live && s.live[p].kind == LargeBlock && p == RunPtr(Loc(p.chunk, page))
      && Loc(p.chunk, page) in s.runs
    requires s.runs[Loc(p.chunk, page)].Large? && info == Lrun(s.runs[Loc(p.chunk, page)].pages)
    requires |s.live[p].data| == s.runs[Loc(p.chunk, page)].pages * PAGE
    ensures EntryFits(s, p, page, info)
  {}

  lemma EntryCases(s: State, p: Ptr, page: nat, info: PageInfo)
    requires p in s.live && EntryFits(s, p, page, info)
    ensures info.Lrun? <==> s.live[p].kind == LargeBlock
    ensures info.Lrun? || info.Srun? || info.Nrun?
    ensures info.Lrun? ==>
      var l := Loc(p.chunk, page);
      p == RunPtr(l) && l in s.runs && s.runs[l] == Large(info.count) && |s.live[p].data| == info.count * PAGE
    ensures !info.Lrun? ==>
      p in s.slots && info.bin == s.slots[p].bin && |s.live[p].data| == BinSize(info.bin)
        && s.live[p].kind == SmallBlock
  {}

  // Block p is given back.
  ghost predicate Freed(s: State, s': State, p: Ptr)
  {
    s'.live == s.live - {p} && s'.huge == s.huge
  }

  lemma FreedIs(s: State, s': State, p: Ptr)
    requires s'.live == s.live - {p} && s'.huge == s.huge
    ensures Freed(s, s', p)
  {}

  // ---- bytes in use ----

  // heap->size: the bytes of the live blocks, and those of small allocations that failed.
  ghost predicate Sized(size: int, live: map<Ptr, Block>, drift: nat)
  {
    size == Bytes(live) + drift
  }

  lemma SizedWithout(size: int, live: map<Ptr, Block>, drift: nat, p: Ptr)
    requires Sized(size, live, drift) && p in live
    ensures Sized(size - |live[p].data|, live - {p}, drift)
  {
    BytesWithout(live, p);
  }

  lemma SizedPut(size: int, live: map<Ptr, Block>, drift: nat, p: Ptr, b: Block)
    requires Sized(size, live, drift)
    ensures Sized(size + |b.data| - if p in live then |live[p].data| else 0, live[p := b], drift)
  {
    BytesPut(live, p, b);
  }

  // Huge block p and the small block of its list entry are gone.
  ghost predicate HugeFreed(s: State, s': State, p: Ptr)
  {
    exists i: nat :: i < |s.huge| && s.huge[i].ptr == p && s'.huge == Without(s.huge, i)
      && s'.live == s.live - {p, s.huge[i].node}
  }

  lemma HugeGone(s: State, middle: State, s': State, p: Ptr, i: nat)
    requires i < |s.huge| && s.huge[i].ptr == p && middle.live == s.live - {p} && middle.huge == Without(s.huge, i)
    requires s'.live == middle.live - {s.huge[i].node} && s'.huge == middle.huge
    ensures HugeFreed(s, s', p)
  {
    hide Without;
    assert s.live - {p} - {s.huge[i].node} == s.live - {p, s.huge[i].node};
  }

  // Slot p of class bin has become live, perhaps after a collection.
  ghost predicate SmallAdded(s: State, s': State, p: Ptr, bin: Bin, data: seq<bv8>)
  {
    && p !in s.live && s'.live == s.live[p := Block(SmallBlock, data)]
    && p in s'.slots && s'.slots[p].bin == bin && s'.huge == s.huge
    && s.ring != [] && s'.ring != [] && s'.ring[0] == s.ring[0]
  }

  lemma PoppedSmall(s: State, s': State, bin: Bin, data: seq<bv8>)
    requires Inv(s) && |s.free| == BINS && s.free[bin] != [] && s' == Pop(s, bin, data)
    requires var p := s.free[bin][0]; p !in s.live && p in s'.slots && s'.slots[p].bin == bin
    ensures SmallAdded(s, s', s.free[bin][0], bin, data)
    ensures s'.live == s.live[s.free[bin][0] := Block(SmallBlock, data)]
  {
    NonEmpty(s);
    hide Inv;
  }

  lemma CarvedSmall(s: State, middle: State, s': State, p: Ptr, bin: Bin, bytes: seq<bv8>, data: seq<bv8>)
    requires PagesAdded(s, middle, p, BinPages(bin), bytes) && |middle.free| == BINS
    requires s' == Carve(middle, Loc(p.chunk, p.off / 4096), bin, data)
    ensures SmallAdded(s, s', p, bin, data) && s'.live == s.live[p := Block(SmallBlock, data)] && p !in s.live
  {
    hide BinPages, BinSize, Elements, NewFree, NewSlots;
    NewFreeAre(Loc(p.chunk, p.off / 4096), bin, p);
  }

  // Block p is the first element of a run whose other elements make up the list, in order.
  ghost predicate FirstOfRun(p: Ptr, list: seq<Ptr>, bin: Bin)
  {
    && p == RunPtr(Loc(p.chunk, p.off / 4096))
    && |list| == Elements(bin) - 1
    && forall k :: 0 <= k < |list| ==> list[k] == SlotPtr(Loc(p.chunk, p.off / 4096), bin, k + 1)
  }

  lemma CarvedFirst(s: State, middle: State, s': State, p: Ptr, bin: Bin, bytes: seq<bv8>, data: seq<bv8>)
    requires PagesAdded(s, middle, p, BinPages(bin), bytes) && |middle.free| == BINS
    requires s' == Carve(middle, Loc(p.chunk, p.off / 4096), bin, data)
    ensures |s'.free| == BINS && FirstOfRun(p, s'.free[bin], bin)
  {
    hide BinPages, BinSize, Elements, NewSlots, SlotPtr;
    BinFacts(bin);
    assert s'.free[bin] == NewFree(Loc(p.chunk, p.off / 4096), bin);
  }

  lemma PagesParts(s: State, s': State, p: Ptr, n: nat, data: seq<bv8>)
    requires PagesAdded(s, s', p, n, data)
    ensures Loc(p.chunk, p.off / 4096) in s'.runs && s'.runs[Loc(p.chunk, p.off / 4096)] == Large(n)
    ensures |s.free| == |s'.free| == BINS && forall b :: 0 <= b < BINS && s.free[b] == [] ==> s'.free[b] == []
    ensures s'.live == s.live[p := Block(LargeBlock, data)] && s'.huge == s.huge && p !in s.live
  {}

  lemma TrimmedParts(s: State, s': State)
    requires Trimmed(s, s')
    ensures s'.live == s.live && s'.huge == s.huge
  {}

  lemma SmallParts(s: State, s': State, p: Ptr, bin: Bin, data: seq<bv8>)
    requires SmallAdded(s, s', p, bin, data)
    ensures p !in s.live && s'.live == s.live[p := Block(SmallBlock, data)] && s'.huge == s.huge
  {}

  // Contents of memory just allocated: the specifications say nothing of them.
  ghost function Unset(n: nat): (s: seq<bv8>)
    ensures |s| == n
  {
    seq(n, _ => 0)
  }

  ghost function RunBytes(bin: Bin): (s: seq<bv8>)
    ensures |s| == BinPages(bin) * PAGE && 1 <= BinPages(bin) <= 511
  {
    BinFacts(bin);
    Unset(BinPages(bin) * PAGE)
  }

  lemma LargeParts(s: State, s': State, p: Ptr, n: nat, data: seq<bv8>)
    requires PagesAdded(s, s', p, n, data)
    ensures p !in s.live && s'.live == s.live[p := Block(LargeBlock, data)] && s'.huge == s.huge
  {}

  // A huge block and the small block of its list entry have become live, perhaps after a collection.
  ghost predicate HugeEntered(s: State, s': State, p: Ptr, data: seq<bv8>)
  {
    && s'.huge != [] && s'.huge[1..] == s.huge
    && var e := s'.huge[0];
      && e.ptr == p && e.size == |data| && e.node != p && e.node !in s.live && p !in s.live && e.node in s'.live
      && s'.live == s.live[e.node := s'.live[e.node]][p := Block(HugeBlock, data)]
  }

  // ---- what a client sees ----

  // The blocks of the clients: the live blocks without those that hold list entries of huge blocks.
  ghost function Blocks(s: State): map<Ptr, Block>
  {
    map p | p in s.live && !IsNode(s, p) :: s.live[p]
  }

  const NULL: Ptr := Ptr(0, 0)

  lemma NullIs()
    ensures NULL == Ptr(0, 0)
  {}

  lemma BlocksAre(s: State, p: Ptr)
    ensures p in Blocks(s) <==> p in s.live && !IsNode(s, p)
    ensures p in Blocks(s) ==> Blocks(s)[p] == s.live[p]
  {}

  // The client has gained a block of n bytes at p, and nothing else has changed for it.
  ghost predicate Handed(s: State, s': State, p: Ptr, n: nat)
  {
    p !in Blocks(s) && p in Blocks(s') && |Blocks(s')[p].data| == n && Blocks(s') == Blocks(s)[p := Blocks(s')[p]]
  }

  // A block of n bytes in a chunk has become live.
  ghost predicate BlockAdded(s: State, s': State, p: Ptr, n: nat)
  {
    && p !in s.live && p in s'.live && s'.live == s.live[p := s'.live[p]] && s'.huge == s.huge
    && |s'.live[p].data| == n && s'.live[p].kind != HugeBlock
    && s.ring != [] && s'.ring != [] && s'.ring[0] == s.ring[0]
  }

  ghost predicate SameLive(s: State, s': State)
  {
    s'.live == s.live && s'.huge == s.huge
  }

  lemma SameLiveIs(s: State, s': State)
    requires s'.live == s.live && s'.huge == s.huge
    ensures SameLive(s, s')
  {}

  lemma AddedSmall(s: State, s': State, p: Ptr, bin: Bin, data: seq<bv8>)
    requires SmallAdded(s, s', p, bin, data)
    ensures BlockAdded(s, s', p, |data|)
  {}

  lemma AddedLarge(s: State, s': State, p: Ptr, n: nat, data: seq<bv8>)
    requires PagesAdded(s, s', p, n, data)
    ensures BlockAdded(s, s', p, |data|)
  {}

  lemma NodeLive(s: State, p: Ptr)
    requires Inv(s) && IsNode(s, p)
    ensures p in s.live
  {
    hide ChunksOk, RunsOk, SlotsOk, FreeOk, LiveOk, RegionsOk;
  }

  lemma HandedInChunk(s: State, s': State, p: Ptr, n: nat)
    requires Inv(s) && BlockAdded(s, s', p, n)
    ensures Handed(s, s', p, n)
  {
    hide Inv;
    if IsNode(s, p) { NodeLive(s, p); }
  }

  lemma HandedHuge(s: State, s': State, p: Ptr, data: seq<bv8>)
    requires Inv(s) && HugeEntered(s, s', p, data)
    ensures Handed(s, s', p, |data|)
  {
    hide Inv;
    var node := s'.huge[0].node;
    forall q ensures IsNode(s', q) <==> IsNode(s, q) || q == node {
      if IsNode(s, q) { var i :| 0 <= i < |s.huge| && s.huge[i].node == q; assert s'.huge[i + 1].node == q; }
      if IsNode(s', q) {
        var i :| 0 <= i < |s'.huge| && s'.huge[i].node == q;
        assert i > 0 ==> s.huge[i - 1].node == q;
      }
    }
    if IsNode(s, p) { NodeLive(s, p); }
  }

  lemma LostInChunk(s: State, s': State, p: Ptr)
    requires Freed(s, s', p)
    ensures Blocks(s') == Blocks(s) - {p}
  {}

  lemma LostHuge(s: State, s': State, p: Ptr)
    requires Inv(s) && HugeFreed(s, s', p)
    ensures Blocks(s') == Blocks(s) - {p}
  {
    var i: nat :| i < |s.huge| && s.huge[i].ptr == p && s'.huge == Without(s.huge, i)
      && s'.live == s.live - {p, s.huge[i].node};
    NodeParts(s, i);
    assert IsNode(s, s.huge[i].node);
    hide *;
    forall q ensures IsNode(s', q) <==> IsNode(s, q) && q != s.huge[i].node { NodesWithout(s, s', i, q); }
    BlocksLost(s, s', p, s.huge[i].node);
  }

  lemma BlocksLost(s: State, s': State, p: Ptr, node: Ptr)
    requires forall q :: IsNode(s', q) <==> IsNode(s, q) && q != node
    requires IsNode(s, node) && s'.live == s.live - {p, node}
    ensures Blocks(s') == Blocks(s) - {p}
  {
    hide IsNode;
  }

  lemma NodesWithout(s: State, s': State, i: nat, q: Ptr)
    requires i < |s.huge| && s'.huge == Without(s.huge, i)
    requires forall j :: 0 <= j < |s.huge| && j != i ==> s.huge[j].node != s.huge[i].node
    ensures IsNode(s', q) <==> IsNode(s, q) && q != s.huge[i].node
  {
    hide Without;
    if IsNode(s, q) && q != s.huge[i].node {
      var k :| 0 <= k < |s.huge| && s.huge[k].node == q;
      assert s'.huge[if k < i then k else k - 1].node == q;
    }
    if IsNode(s', q) {
      var k :| 0 <= k < |s'.huge| && s'.huge[k].node == q;
      assert s.huge[if k < i then k else k + 1].node == q;
    }
  }

  lemma NodeParts(s: State, i: nat)
    requires Inv(s) && i < |s.huge|
    ensures s.huge[i].node in s.slots && s.slots[s.huge[i].node].bin == NODE_BIN && s.huge[i].node in s.live
    ensures forall j :: 0 <= j < |s.huge| && j != i ==> s.huge[j].node != s.huge[i].node
  {
    hide ChunksOk, RunsOk, SlotsOk, FreeOk, LiveOk, RegionsOk;
  }

  lemma SameBlocks(s: State, s': State)
    requires SameLive(s, s')
    ensures Blocks(s') == Blocks(s)
  {}

  /** Huge blocks, and only they, begin at a chunk boundary. */
  lemma HugeByOffset(s: State, p: Ptr)
    requires Inv(s) && p in s.live
    ensures p.off == 0 <==> s.live[p].kind == HugeBlock
    ensures p != Ptr(0, 0)
  {
    hide *;
    Pages0();
    if s.live[p].kind == HugeBlock {
      var i := HugeEntry(s, p);
      HugePlace(s, i);
    } else {
      InItsRun(s, p);
    }
  }

  lemma Pages0()
    ensures PAGE == 4096
  {}

  lemma HugePlace(s: State, i: nat)
    requires Inv(s) && i < |s.huge|
    ensures 0 < s.huge[i].ptr.chunk
  {
    hide ChunksOk, RunsOk, SlotsOk, FreeOk, LiveOk, HugeOk, Units, Outside;
  }

  // The class a small request is served from.
  function SmallBin(size: nat): Bin
    requires size <= MAX_SMALL
  {
    FormulaIsFirstMatch(size);
    SizeToBin(size)
  }

  // The bytes of the block that a request of size bytes gets: a whole element, or whole pages.
  function BlockSize(size: nat): (n: nat)
  {
    if size <= MAX_SMALL then BinSize(SmallBin(size)) else Aligned(size)
  }

  function PageCount(size: nat): nat
  {
    (size + PAGE - 1) / PAGE
  }

  function Aligned(size: nat): nat
  {
    PageCount(size) * PAGE
  }

  lemma AlignedFacts(size: nat)
    ensures size <= Aligned(size) < size + PAGE && Aligned(size) % PAGE == 0
    ensures MAX_SMALL < size <= MAX_LARGE ==> 1 <= PageCount(size) <= 511
    ensures 0 < size ==> 0 < Aligned(size)
    ensures MAX_LARGE < size ==> CHUNK <= Aligned(size)
  {}

  // The pages of the run that a request is served from.
  function RunPages(size: nat): nat
  {
    if size <= MAX_SMALL then BinPages(SmallBin(size)) else PageCount(size)
  }

  lemma SizesAre(size: nat)
    ensures size <= MAX_SMALL ==>
      BlockSize(size) == BinSize(SmallBin(size)) && RunPages(size) == BinPages(SmallBin(size))
    ensures size > MAX_SMALL ==> BlockSize(size) == Aligned(size) && RunPages(size) == PageCount(size)
    ensures MAX_SMALL < MAX_LARGE
  {
    hide Aligned, BinSize, BinPages, SizeToBin, PageCount;
  }

  /** A block is never smaller than what was asked for, and the next smaller class would be. */
  lemma BlockSizeEnough(size: nat)
    ensures size <= BlockSize(size)
    ensures size <= MAX_SMALL && SmallBin(size) > 0 ==> BinSize(SmallBin(size) - 1) < size
    ensures size > MAX_SMALL ==> BlockSize(size) < size + PAGE
  {
    if size <= MAX_SMALL {
      FormulaIsFirstMatch(size);
      FirstMatchIsLeast(size, 0);
      hide BinSize, SizeToBin, FirstMatch;
    } else {
      AlignedFacts(size);
      hide Aligned, BinSize, SizeToBin;
    }
  }

  // ---- reallocation ----

  function Least(a: nat, b: nat): nat
  {
    if a < b then a else b
  }

  // Block p has become block q of n bytes, which begins with the first keep bytes of p; nothing else has changed for
  // the client.
  ghost predicate Reallocated(s: State, s': State, p: Ptr, q: Ptr, n: nat, keep: nat)
  {
    && p in Blocks(s) && q in Blocks(s') && (q == p || q !in Blocks(s))
    && |Blocks(s')[q].data| == n
    && keep <= |Blocks(s)[p].data| && keep <= |Blocks(s')[q].data|
    && Blocks(s')[q].data[..keep] == Blocks(s)[p].data[..keep]
    && Blocks(s') - {q} == Blocks(s) - {p}
  }

  // The bytes of block q after the first n bytes of block p are copied to it.
  ghost function Copied(s: State, q: Ptr, p: Ptr, n: nat): (data: seq<bv8>)
    requires p in s.live && q in s.live && n <= |s.live[p].data| && n <= |s.live[q].data|
    ensures |data| == |s.live[q].data| && data[..n] == s.live[p].data[..n]
  {
    s.live[p].data[..n] + s.live[q].data[n..]
  }

  lemma WriteParts(s: State, p: Ptr, data: seq<bv8>)
    requires p in s.live
    ensures Write(s, p, data).(live := s.live) == s && Write(s, p, data).huge == s.huge
    ensures Write(s, p, data).live == s.live[p := s.live[p].(data := data)]
    ensures forall q :: IsNode(Write(s, p, data), q) <==> IsNode(s, q)
  {}

  // A block is moved: a new one is allocated, bytes are copied, the old one is freed.
  lemma MovedBlock(s: State, s1: State, s2: State, s3: State, p: Ptr, q: Ptr, n: nat, keep: nat)
    requires p in Blocks(s) && Handed(s, s1, q, n)
    requires p in s1.live && q in s1.live && keep <= |s1.live[p].data| && keep <= |s1.live[q].data|
    requires s2 == Write(s1, q, Copied(s1, q, p, keep))
    requires Blocks(s3) == Blocks(s2) - {p}
    ensures Reallocated(s, s3, p, q, n, keep)
  {
    var data := Copied(s1, q, p, keep);
    WriteParts(s1, q, data);
    BlocksAre(s1, p);
    BlocksAre(s1, q);
    WrittenBlocks(s1, q, data);
    hide Blocks, Copied, IsNode, Write;
    assert Blocks(s2) - {q} == Blocks(s);
  }

  lemma WrittenBlocks(s: State, p: Ptr, data: seq<bv8>)
    requires p in Blocks(s)
    ensures p in s.live && Blocks(Write(s, p, data)) == Blocks(s)[p := Blocks(s)[p].(data := data)]
  {
    BlocksAre(s, p);
    WriteParts(s, p, data);
    hide IsNode;
  }

  // A block is resized where it is.
  lemma ResizedInPlace(s: State, s': State, p: Ptr, b: Block, keep: nat)
    requires p in Blocks(s) && s'.live == s.live[p := b] && (forall q :: IsNode(s', q) <==> IsNode(s, q))
    requires keep <= |b.data| && keep <= |s.live[p].data|
      && b.data[..keep] == s.live[p].data[..keep]
    ensures Reallocated(s, s', p, p, |b.data|, keep)
  {
    hide IsNode;
  }

  lemma LeftAlone(s: State, p: Ptr, keep: nat)
    requires p in Blocks(s) && keep <= |Blocks(s)[p].data|
    ensures Reallocated(s, s, p, p, |Blocks(s)[p].data|, keep)
  {
    hide Blocks;
  }

  lemma SameNodes(s: State, s': State)
    requires s'.huge == s.huge
    ensures forall q :: IsNode(s', q) <==> IsNode(s, q)
  {}

  lemma ResizedNodes(s: State, i: nat, size: nat, data: seq<bv8>)
    requires i < |s.huge|
    ensures forall q :: IsNode(ResizeHuge(s, i, size, data), q) <==> IsNode(s, q)
    ensures ResizeHuge(s, i, size, data).(live := s.live, huge := s.huge) == s
    ensures ResizeHuge(s, i, size, data).huge == s.huge[i := s.huge[i].(size := size)]
    ensures ResizeHuge(s, i, size, data).live == s.live[s.huge[i].ptr := Block(HugeBlock, data)]
  {
    var s' := ResizeHuge(s, i, size, data);
    forall q ensures IsNode(s', q) <==> IsNode(s, q) {
      if IsNode(s, q) { var k :| 0 <= k < |s.huge| && s.huge[k].node == q; assert s'.huge[k].node == q; }
      if IsNode(s', q) { var k :| 0 <= k < |s'.huge| && s'.huge[k].node == q; assert s.huge[k].node == q; }
    }
  }

  // The first n bytes of data, filled up with anything.
  ghost function Fitted(data: seq<bv8>, n: nat): (r: seq<bv8>)
    ensures |r| == n && r[..Least(|data|, n)] == data[..Least(|data|, n)]
  {
    if n <= |data| then data[..n] else data + Unset(n - |data|)
  }

  lemma RunPagesFit(size: nat)
    requires size <= MAX_LARGE
    ensures 1 <= RunPages(size) <= 511
  {
    hide BinPages, SizeToBin, PageCount;
    if size <= MAX_SMALL { FewPages(SmallBin(size)); } else { AlignedFacts(size); }
  }

  lemma FewPages(b: Bin)
    ensures 1 <= BinPages(b) <= 511
  {
    BinFacts(b);
  }

  // ---- beginning and end ----

  // The state without runs and blocks.
  ghost function NoBlocks(ring: seq<nat>, cached: seq<nat>): State
  {
    State(ring, cached, map[], map[], seq(BINS, _ => []), [], map[])
  }

  lemma NoBlocksInv(ring: seq<nat>, cached: seq<nat>)
    requires ChunksOk(ring, cached)
    ensures Inv(NoBlocks(ring, cached))
  {
    hide ChunksOk, Elements, BinSize, Length;
  }
}
