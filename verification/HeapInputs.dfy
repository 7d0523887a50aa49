/** Heaps in which something happens that one would not expect: an input for each thing the heap does not do. */
module HeapInputs {
  import opened Wrappers
  import opened Sizes
  import opened Chunks
  import opened HeapState
  import opened HeapShape
  import opened Collecting
  import opened HeapSteps
  import opened Heaps
  import opened Sessions

  // A heap just started, with its first block.
  method Started(start: nat, limit: nat, first: nat) returns (h: Heap, pin: Ptr)
    requires 0 < start && first <= MAX_LARGE
    ensures fresh(h) && h.Valid() && h.limit == limit && !h.overflow && h.pin == pin && h.refusals == 0
    ensures h.avgChunksCount == 1.0 && pin.off != 0
    ensures |h.ring| == |h.st.ring| == 1 && h.cachedChunks == [] && h.realSize == CHUNK && h.drift == 0
    ensures h.st.runs == map[Loc(pin.chunk, pin.off / 4096) := RunFor(first)] && h.st.ring[0] == pin.chunk
    ensures Blocks(h.st).Keys == {pin} && |Blocks(h.st)[pin].data| == BlockSize(first)
    ensures fresh(Objects(h.ring)) && fresh(Objects(h.cachedChunks))
  {
    hide *;
    Constants();
    h := new Heap(start, limit, false);
    BlankReal(h);
    NoObjects(h);
    BlankRuns(h);
    Shaped(h);
    ghost var blank := h.st;
    pin := h.Pin(first);
    HandedAlone(blank, h.st, pin, BlockSize(first));
    StuckIs(h, first);
    ValidParts(h);
    CachedCount(h);
    MainIs(h);
    PinPlace(h);
    Shaped(h);
    NumbersAre(h);
    assert h.st.runs == map[Loc(pin.chunk, pin.off / 4096) := RunFor(first)];
    forall o | o in Objects(h.ring) || o in Objects(h.cachedChunks) ensures fresh(o) {
      assert o in Objects(h.ring) + Objects(h.cachedChunks);
    }
  }

  lemma PinPlace(h: Heap)
    requires h.Valid()
    ensures h.pin.off != 0
  {
    hide *;
    ValidParts(h);
    Shaped(h);
    PinIs(h);
    PinHeld(h);
    HugeByOffset(h.st, h.pin);
    HeldLow(h.st, h.pin);
  }

  lemma HeldLow(s: State, p: Ptr)
    requires HeldBy(s, p)
    ensures p in s.live && s.live[p].kind != HugeBlock
  {}

  lemma HandedAlone(s: State, s': State, p: Ptr, n: nat)
    requires Handed(s, s', p, n) && Blocks(s) == map[]
    ensures Blocks(s').Keys == {p} && |Blocks(s')[p].data| == n
  {
    hide Blocks;
  }

  // ---- a request of 8 bytes ----

  lemma Small8()
    ensures SmallBin(8) == 0 && BlockSize(8) == 8 && RunPages(8) == 1 && RunFor(8) == Small(0)
  {}

  // No slot is listed, no page free, no chunk can be had.
  lemma StuckWith(h: Heap)
    requires h.Valid() && !h.overflow && |h.ring| == |h.st.ring| == 1 && h.cachedChunks == []
    requires h.realSize + CHUNK > h.limit && !RunFree(h.st, 1)
    requires forall l :: l in h.st.runs ==> h.st.runs[l] != Small(0)
    ensures h.Stuck(8)
  {
    hide *;
    Small8();
    ValidParts(h);
    Shaped(h);
    ShapeParts(h.st, h.ring, h.cachedChunks, h.freeSlot, h.hugeList);
    NoFreeSlots(h.st, 0);
    PagesFit(h.st, h.ring, 1);
    ReadyIs(h, 1);
    OnlyChunk(h.st);
    EmptiedIs(h.st);
    CorneredIs(h);
    StuckIs(h, 8);
  }

  lemma OnlyChunk(s: State)
    requires |s.ring| == 1
    ensures !Reclaimable(s) && Busy(s)
  {}

  lemma FullOf(pin: Ptr, s: State)
    requires |s.ring| == 1 && s.ring[0] == pin.chunk && Inv(s)
    requires s.runs == map[Loc(pin.chunk, pin.off / 4096) := Large(511)]
    ensures !RunFree(s, 1)
  {
    hide ChunksOk, SlotsOk, FreeOk, LiveOk, HugeOk, RegionsOk, Length, RunFree;
    LengthLarge(511);
    assert pin.off / 4096 == 1;
    NothingFree(s);
  }

  lemma LargestRun()
    ensures RunFor(MAX_LARGE) == Large(511)
  {}

  /** A small request that the limit refuses stays charged: the main chunk is full and another does not fit. */
  method LeftCharged(start: nat) returns (h: Heap, p: Option<Ptr>)
    requires 0 < start
    ensures h.Valid() && p.None? && h.refusals == 0 && h.size == Bytes(h.st.live) + 8
  {
    hide *;
    Constants();
    LargestRun();
    var pin;
    h, pin := Started(start, CHUNK, MAX_LARGE);
    ValidParts(h);
    Shaped(h);
    FullOf(pin, h.st);
    StuckWith(h);
    Small8();
    Constants8();
    p := h.Alloc(8);
    SettledCases();
    AtLeastAChunk(h);
  }

  lemma Constants8()
    ensures 8 <= MAX_SMALL <= MAX_LARGE
  {}

  /** A request takes `size` away from the bytes of the live blocks exactly if it is a small one and stuck, as long as
      the operating system refuses nothing. */
  method AllocDrift(h: Heap, length: nat) returns (p: Option<Ptr>)
    requires h.Valid()
    modifies h, Objects(h.ring), Objects(h.cachedChunks)
    ensures h.Valid() && h.refusals >= old(h.refusals)
    ensures h.refusals == old(h.refusals) ==>
      && (length <= MAX_LARGE ==> (p.None? <==> old(h.Stuck(length))))
      && h.size - Bytes(h.st.live) ==
           old(h.size - Bytes(h.st.live)) + if old(h.Stuck(length)) && length <= MAX_SMALL then BlockSize(length) else 0
  {
    hide *;
    AtLeastAChunk(h);
    SettledCases();
    p := h.Alloc(length);
    AtLeastAChunk(h);
  }

  // ---- a request that is refused, and served when it is made again ----

  // What a collection leaves.
  ghost function Cleared(s: State): State
    requires |s.free| == BINS && s.ring != []
  {
    Collect(s, Garbage(s)).(ring := SweptRing(s))
  }

  // A collection puts nothing on an empty list.
  lemma AfterRefusal(before: State, after: State)
    requires MaybeCollected(before, after) && Garbage(after) == {} && Busy(before)
    ensures |before.free| == BINS && before.ring != [] && after == Cleared(before).(cached := after.cached)
    ensures forall b: Bin :: before.free[b] == [] ==> |after.free| == BINS && after.free[b] == []
  {
    hide Garbage, Reclaimable, Collect, SweptRing, Kept;
    MaybeBusy(before, after);
    NothingSpent(after);
    SweptShorter(before);
    CollectParts(before);
    if after == before { CollectNothing(before); }
    forall b: Bin | before.free[b] == [] ensures |after.free| == BINS && after.free[b] == [] {
      CollectedList(before, b);
    }
  }

  lemma CollectedList(s: State, b: Bin)
    requires |s.free| == BINS && s.free[b] == []
    ensures |Collect(s, Garbage(s)).free| == BINS && Collect(s, Garbage(s)).free[b] == []
  {
    hide Garbage;
  }

  /** A request that the limit refuses leaves the heap collected, but does not look at what that has freed. So the same
      request made again is served exactly if the collection has freed a run for it. */
  method TryTwice(h: Heap, length: nat) returns (p: Option<Ptr>, q: Option<Ptr>)
    requires h.Valid() && length <= MAX_LARGE && h.Stuck(length)
    modifies h, Objects(h.ring), Objects(h.cachedChunks)
    ensures h.Valid() && p.None? && h.refusals == old(h.refusals)
    ensures |old(h.st).free| == BINS &&
      old(h.st).ring != [] && (q.Some? <==> RunFree(Cleared(old(h.st)), RunPages(length)))
    ensures h.drift == old(h.drift) +
      if length <= MAX_SMALL then BlockSize(length) * (if q.Some? then 1 else 2) else 0
  {
    hide *;
    ghost var before := h.st;
    SettledCases();
    ValidParts(h);
    StuckIs(h, length);
    Shaped(h);
    p := h.Alloc(length);
    ghost var count := RunPages(length);
    RunPagesFit(length);
    AfterRefusal(before, h.st);
    RunFreeIn(h.st, Cleared(before), count);
    ValidParts(h);
    Shaped(h);
    ShapeParts(h.st, h.ring, h.cachedChunks, h.freeSlot, h.hugeList);
    PagesFit(h.st, h.ring, count);
    ReadyIs(h, count);
    StuckIs(h, length);
    forall o | o in Objects(h.ring) || o in Objects(h.cachedChunks)
      ensures o in old(Objects(h.ring)) || o in old(Objects(h.cachedChunks)) || fresh(o)
    {
      assert o in Objects(h.ring) + Objects(h.cachedChunks);
    }
    q := h.Alloc(length);
  }

  lemma RunFreeIn(s: State, s': State, count: nat)
    requires s.runs == s'.runs && s.ring == s'.ring
    ensures RunFree(s, count) <==> RunFree(s', count)
  {}

  // ---- a run of 510 pages, and a page beside it ----

  lemma AlmostFull()
    ensures RunFor(510 * 4096) == Large(510) && 510 * 4096 <= MAX_LARGE && BlockSize(510 * 4096) == 510 * 4096
    ensures SmallBin(16) == 1 && RunFor(16) == Small(1) && RunPages(16) == 1 && BlockSize(16) == 16
    ensures 16 <= MAX_SMALL <= MAX_LARGE
  {}

  lemma OnePageLeft(s: State, a: Loc)
    requires s.runs == map[a := Large(510)] && a.chunk in s.ring && 1 <= a.page <= 2
    ensures RunFree(s, 1)
  {
    hide PageUsed;
    var q := if a.page == 1 then 511 else 1;
    assert !PageUsed(s.runs, a.chunk, q) by { hide *; NotUsed(s.runs, a, q); }
    assert PagesFree(s.runs, a.chunk, q, 1);
  }

  lemma NotUsed(runs: map<Loc, Run>, a: Loc, q: nat)
    requires runs == map[a := Large(510)] && !(a.page <= q < a.page + 510)
    ensures !PageUsed(runs, a.chunk, q)
  {
    LengthLarge(510);
  }

  lemma AtPage(s: State, a: Loc)
    requires Inv(s) && a in s.runs && s.runs[a] == Large(510)
    ensures 1 <= a.page <= 2
  {
    hide ChunksOk, SlotsOk, FreeOk, LiveOk, HugeOk, RegionsOk, Length;
    LengthLarge(510);
  }

  // The runs are one of 510 pages and one of a small class.
  ghost predicate Two(runs: map<Loc, Run>, a: Loc, b: Loc, c: Bin)
  {
    a != b && runs.Keys == {a, b} && runs[a] == Large(510) && runs[b] == Small(c)
  }

  lemma NoPageLeft(s: State, a: Loc, b: Loc, c: Bin)
    requires Inv(s) && |s.ring| == 1 && Two(s.runs, a, b, c) && c < 2
    ensures !RunFree(s, 1)
  {
    hide ChunksOk, SlotsOk, FreeOk, LiveOk, HugeOk, RegionsOk, Length, RunFree, PageUsed;
    LengthLarge(510);
    LengthSmall(c);
    OnePage(c);
    assert a.chunk in s.ring && b.chunk in s.ring;
    assert a.chunk == b.chunk == s.ring[0];
    assert a in s.runs && b in s.runs;
    BothUse(s, a, b, c);
  }

  lemma OnePage(c: Bin)
    requires c < 2
    ensures BinPages(c) == 1
  {}

  lemma BothUse(s: State, a: Loc, b: Loc, c: Bin)
    requires Two(s.runs, a, b, c) && |s.ring| == 1 && c < 2
    requires a.chunk == b.chunk == s.ring[0] && 1 <= a.page <= 2 && 1 <= b.page <= 511
    requires !(a.page <= b.page < a.page + 510) && (a.page == 1 ==> b.page == 511)
    ensures !RunFree(s, 1)
  {
    hide Length;
    LengthLarge(510);
    LengthSmall(c);
    OnePage(c);
    forall n: nat, q: nat | n in s.ring ensures !PagesFree(s.runs, n, q, 1) {
      if 1 <= q <= 511 {
        assert a in s.runs && b in s.runs;
        assert PageUsed(s.runs, n, q) by {
          if a.page <= q < a.page + 510 { assert a.page <= q < a.page + Length(s.runs[a]); }
          else { assert b.page <= q < b.page + Length(s.runs[b]); }
        }
      }
    }
  }

  // The client's only block lies in run a, so run b is idle.
  lemma OnlyIdle(s: State, pin: Ptr, a: Loc, b: Loc, c: Bin)
    requires Inv(s) && Blocks(s).Keys == {pin} && a == Loc(pin.chunk, pin.off / 4096) && Two(s.runs, a, b, c) && c < 2
    ensures Idle(s, b) && Garbage(s) == if c == 0 then {} else {b}
  {
    hide *;
    TwoAre(s.runs, a, b, c);
    AtPage(s, a);
    NoHuge(s, pin);
    forall p | p in s.slots && s.slots[p].run == b ensures p !in s.live {
      if p in s.live {
        BlocksAre(s, p);
        NotNode(s, p);
        BlockIs(s, pin);
        PageOfSlot(s, p);
        OnePage(c);
      }
    }
    BlocksAre(s, pin);
    IdleIs(s, b);
    GarbageIs(s, a, b, c);
  }

  lemma TwoAre(runs: map<Loc, Run>, a: Loc, b: Loc, c: Bin)
    requires Two(runs, a, b, c)
    ensures a != b && a in runs && b in runs && runs[a] == Large(510) && runs[b] == Small(c)
    ensures forall l :: l in runs ==> l == a || l == b
  {}

  lemma IdleIs(s: State, l: Loc)
    ensures Idle(s, l) <==>
      (l in s.runs && s.runs[l].Small? && forall p :: p in s.slots && s.slots[p].run == l ==> p !in s.live)
  {}

  lemma GarbageIs(s: State, a: Loc, b: Loc, c: Bin)
    requires Two(s.runs, a, b, c) && Idle(s, b)
    ensures Garbage(s) == if c == 0 then {} else {b}
  {}

  // A heap whose only block lies in a chunk has no huge block.
  lemma NoHuge(s: State, pin: Ptr)
    requires Inv(s) && Blocks(s).Keys == {pin} && pin.off != 0
    ensures s.huge == []
  {
    hide *;
    if s.huge != [] {
      HugeSizeIs(s, 0);
      HugeIsNoSlot(s, 0);
      var p := s.huge[0].ptr;
      BlocksAre(s, p);
      HugeByOffset(s, p);
      NotNode(s, p);
    }
  }

  // A block of 16 bytes is a slot.
  lemma SmallKind(s: State, p: Ptr)
    requires Inv(s) && p in s.live && |s.live[p].data| <= 16
    ensures s.live[p].kind == SmallBlock
  {
    hide *;
    BlockIs(s, p);
    if s.live[p].kind == LargeBlock {
      var l := Loc(p.chunk, p.off / 4096);
      RunIsLarge(s.runs[l]);
      LargeSize(s, l, s.runs[l].pages, 0);
    }
    if s.live[p].kind == HugeBlock { WholePages(s, p); }
    Constants();
    Constants8();
  }

  lemma WholePages(s: State, p: Ptr)
    requires Inv(s) && p in s.live && s.live[p].kind == HugeBlock
    ensures |s.live[p].data| % 4096 == 0 < |s.live[p].data|
  {
    var i := HugeEntry(s, p);
    hide ChunksOk, RunsOk, SlotsOk, FreeOk, LiveOk, RegionsOk;
    HugeSizeIs(s, i);
  }

  // A small block beside the first one is given back: its run stays.
  method GiveBack(h: Heap, pin: Ptr, p: Ptr)
    requires h.Valid() && h.pin == pin && p != pin && p != NULL && Blocks(h.st).Keys == {pin, p}
    requires Blocks(h.st)[p].kind == SmallBlock && |h.ring| == 1
    modifies h, Objects(h.ring), Objects(h.cachedChunks)
    ensures h.Valid() && h.pin == pin && Blocks(h.st).Keys == {pin} && h.st.runs == old(h.st).runs
    ensures |h.ring| == |h.st.ring| == 1 && h.cachedChunks == old(h.cachedChunks) && h.realSize == old(h.realSize)
    ensures h.refusals == old(h.refusals) && h.drift == old(h.drift)
    ensures h.ring == old(h.ring)
  {
    hide *;
    ValidParts(h);
    Shaped(h);
    ghost var before := h.st;
    h.Free(p);
    OneBlock(before, h.st, pin, p);
    ValidParts(h);
    CachedCount(h);
  }

  // A main chunk with one large block, and an idle run on the page beside it.
  method WithIdlePage(start: nat, length: nat) returns (h: Heap, pin: Ptr, ghost a: Loc, ghost b: Loc)
    requires 0 < start && (length == 8 || length == 16)
    ensures fresh(h) && h.Valid() && h.limit == CHUNK && !h.overflow && h.refusals == 0 && h.drift == 0
    ensures |h.ring| == |h.st.ring| == 1 && h.cachedChunks == [] && h.realSize == CHUNK
    ensures Blocks(h.st).Keys == {pin} && a == Loc(pin.chunk, pin.off / 4096)
    ensures Two(h.st.runs, a, b, if length == 8 then 0 else 1)
    ensures fresh(Objects(h.ring)) && fresh(Objects(h.cachedChunks))
  {
    hide *;
    Constants();
    AlmostFull();
    Small8();
    h, pin := Started(start, CHUNK, 510 * 4096);
    a := Loc(pin.chunk, pin.off / 4096);
    RoomForIdle(h, a, length);
    ghost var before := h.st;
    SettledCases();
    ValidParts(h);
    Shaped(h);
    var idle := h.Alloc(length);
    b := Loc(idle.value.chunk, idle.value.off / 4096);
    ghost var held := h.st;
    TwoBlocks(before, held, pin, idle.value, length);
    IdleBlock(h, pin, a, b, if length == 8 then 0 else 1, idle.value);
    forall o | o in Objects(h.ring) || o in Objects(h.cachedChunks) ensures fresh(o) {
      assert o in Objects(h.ring) + Objects(h.cachedChunks);
    }
    GiveBack(h, pin, idle.value);
  }

  lemma RoomForIdle(h: Heap, a: Loc, length: nat)
    requires h.Valid() && h.st.runs == map[a := Large(510)] && |h.st.ring| == 1 && (length == 8 || length == 16)
    ensures h.FindsRun(length) && h.Roomy(RunPages(length)) && 1 <= a.page
    ensures forall s, s', p, run :: RunAt(s, s', p, run) <==> s'.runs == s.runs[Loc(p.chunk, p.off / 4096) := run]
  {
    hide *;
    AlmostFull();
    Small8();
    ValidParts(h);
    Shaped(h);
    ShapeParts(h.st, h.ring, h.cachedChunks, h.freeSlot, h.hugeList);
    AtPage(h.st, a);
    RunsInRing(h.st);
    OnePageLeft(h.st, a);
    PagesFit(h.st, h.ring, 1);
    ReadyIs(h, 1);
    NoFreeSlots(h.st, SmallBin(length));
    StuckIs(h, length);
  }

  lemma IdleBlock(h: Heap, pin: Ptr, a: Loc, b: Loc, c: Bin, idle: Ptr)
    requires h.Valid() && pin in Blocks(h.st) && |Blocks(h.st)[pin].data| == 510 * 4096
    requires a == Loc(pin.chunk, pin.off / 4096) && 1 <= a.page && h.st.runs == map[a := Large(510)][b := Small(c)]
    requires idle in Blocks(h.st) && |Blocks(h.st)[idle].data| <= 16
    ensures Two(h.st.runs, a, b, c) && Blocks(h.st)[idle].kind == SmallBlock && idle != NULL
  {
    hide *;
    ValidParts(h);
    Shaped(h);
    TwoRuns(h.st, pin, a, b, c);
    BlocksAre(h.st, idle);
    SmallKind(h.st, idle);
    NotNull(h, idle);
  }

  lemma RefusedThen(h: Heap, pin: Ptr, a: Loc, b: Loc)
    requires h.Valid() && !h.overflow && |h.ring| == |h.st.ring| == 1 && h.cachedChunks == []
    requires h.realSize + CHUNK > h.limit
    requires Blocks(h.st).Keys == {pin} && a == Loc(pin.chunk, pin.off / 4096) && Two(h.st.runs, a, b, 1)
    ensures h.Stuck(8) && |h.st.free| == BINS && h.st.ring != [] && RunFree(Cleared(h.st), RunPages(8))
  {
    hide *;
    Constants();
    Small8();
    ValidParts(h);
    Shaped(h);
    TwoAre(h.st.runs, a, b, 1);
    OnlyIdle(h.st, pin, a, b, 1);
    NoPageLeft(h.st, a, b, 1);
    StuckWith(h);
    RunsInRing(h.st);
    AtPage(h.st, a);
    Collected510(h.st, a, b, 1);
  }

  /** With a main chunk that a large block and an idle run fill, a small request is refused, and served when it is made
      again. */
  method RefusedOnce(start: nat) returns (h: Heap, p: Option<Ptr>, q: Option<Ptr>)
    requires 0 < start
    ensures h.Valid() && p.None? && q.Some? && h.refusals == 0 && h.size == Bytes(h.st.live) + 8
  {
    hide *;
    Constants();
    Constants8();
    Small8();
    var pin;
    ghost var a, b;
    h, pin, a, b := WithIdlePage(start, 16);
    RefusedThen(h, pin, a, b);
    p, q := TryTwice(h, 8);
    AtLeastAChunk(h);
  }

  /** An idle run of the smallest class is never collected: its counter cannot come to the number of its elements. */
  method IdleStays(start: nat) returns (h: Heap, ghost l: Loc, collected: nat)
    requires 0 < start
    ensures h.Valid() && l in h.st.runs && h.st.runs[l] == Small(0) && Idle(h.st, l) && collected == 0
  {
    hide *;
    Constants();
    var pin;
    ghost var a;
    h, pin, a, l := WithIdlePage(start, 8);
    ValidParts(h);
    Shaped(h);
    TwoAre(h.st.runs, a, l, 0);
    OnlyIdle(h.st, pin, a, l, 0);
    ghost var before := h.st;
    collected := h.Gc();
    SameRunsLeft(before, h.st, l);
    CollectParts(before);
    SameLiveIs(before, h.st);
    ValidAgain(h);
  }

  lemma SameRunsLeft(s: State, s': State, l: Loc)
    requires |s.free| == BINS && Garbage(s) == {} && Idle(s, l)
    requires s' == Collect(s, Garbage(s)).(ring := s'.ring, cached := s'.cached)
    ensures s'.runs == s.runs && Idle(s', l)
  {
    CollectNothing(s);
    hide Garbage, Collect;
  }

  // A block of the largest size in a chunk fills one.
  lemma FillsChunk(s: State, p: Ptr)
    requires Inv(s) && p in Blocks(s) && p.off != 0 && |Blocks(s)[p].data| == BlockSize(MAX_LARGE)
    ensures p.chunk in s.ring && p == RunPtr(Loc(p.chunk, 1))
  {
    hide *;
    FullSize();
    Constants();
    BlocksAre(s, p);
    HugeByOffset(s, p);
    BlockIs(s, p);
    RunsInRing(s);
    var l := Loc(p.chunk, p.off / 4096);
    RunIsLarge(s.runs[l]);
    FirstPage(s, l);
  }

  lemma FirstPage(s: State, l: Loc)
    requires Inv(s) && l in s.runs && s.runs[l] == Large(511)
    ensures l.page == 1
  {
    hide ChunksOk, SlotsOk, FreeOk, LiveOk, HugeOk, RegionsOk, Length;
    LengthLarge(511);
  }

  // Three blocks of the largest size take three chunks.
  lemma ThreeChunks(h: Heap, p: Ptr, q: Ptr, r: Ptr)
    requires h.Valid() && {p, q, r} <= Blocks(h.st).Keys && p != q && q != r && p != r
    requires p.off != 0 && q.off != 0 && r.off != 0
    requires forall x :: x in {p, q, r} ==> |Blocks(h.st)[x].data| == BlockSize(MAX_LARGE)
    ensures |h.ring| >= 3
  {
    hide *;
    ValidParts(h);
    Shaped(h);
    CachedCount(h);
    FillsChunk(h.st, p);
    FillsChunk(h.st, q);
    FillsChunk(h.st, r);
    Three(h.st.ring, p.chunk, q.chunk, r.chunk);
  }

  lemma Three(s: seq<nat>, a: nat, b: nat, c: nat)
    requires a in s && b in s && c in s && a != b && b != c && a != c
    ensures |s| >= 3
  {}

  lemma SpareSome(k: nat, total: int, average: real)
    requires Spare(k, total, average) && total >= 2 && average >= 2.0
    ensures k >= 1
  {}

  // Another chunk fits under the limit, so only the operating system may refuse a request.
  method OneMore(h: Heap) returns (p: Option<Ptr>)
    requires h.Valid() && h.realSize + CHUNK <= h.limit
    modifies h, Objects(h.ring), Objects(h.cachedChunks)
    ensures h.Valid() && h.refusals >= old(h.refusals) && h.pin == old(h.pin)
    ensures h.avgChunksCount == old(h.avgChunksCount)
    ensures h.refusals == old(h.refusals) ==> p.Some?
    ensures p.Some? ==> p.value.off != 0 && Handed(old(h.st), h.st, p.value, BlockSize(MAX_LARGE))
    ensures h.realSize <= old(h.realSize) + CHUNK
    ensures forall o :: o in Objects(h.ring) + Objects(h.cachedChunks) ==>
      o in old(Objects(h.ring) + Objects(h.cachedChunks)) || fresh(o)
  {
    hide *;
    Constants();
    ValidParts(h);
    Shaped(h);
    CorneredIs(h);
    StuckIs(h, MAX_LARGE);
    CostIs(MAX_LARGE);
    p := h.Alloc(MAX_LARGE);
  }

  /** After three chunks have been in use, a shutdown leaves a chunk in the cache that is not charged. */
  method LeftUncharged(start: nat) returns (h: Heap)
    requires 0 < start
    ensures h.Blank() && h.realSize == CHUNK && h.uncharged == |h.cachedChunks|
    ensures h.refusals == 0 ==> h.cachedChunks != []
  {
    hide *;
    Constants();
    var pin;
    h, pin := Started(start, 3 * CHUNK, MAX_LARGE);
    ghost var s0 := h.st;
    var p := OneMore(h);
    ghost var s1 := h.st;
    forall o | o in Objects(h.ring) || o in Objects(h.cachedChunks) ensures fresh(o) {
      assert o in Objects(h.ring) + Objects(h.cachedChunks);
    }
    var q := OneMore(h);
    forall o | o in Objects(h.ring) || o in Objects(h.cachedChunks) ensures fresh(o) {
      assert o in Objects(h.ring) + Objects(h.cachedChunks);
    }
    if p.Some? && q.Some? {
      AllThree(s0, s1, h.st, pin, p.value, q.value);
      ThreeChunks(h, pin, p.value, q.value);
    }
    ValidParts(h);
    RealIs(h);
    ghost var total, peak := |h.ring| + |h.cachedChunks| - 1, h.peakChunksCount as real;
    h.Shutdown();
    BlankReal(h);
    if h.refusals == 0 { SpareSome(|h.cachedChunks|, total, (1.0 + peak) / 2.0); }
  }

  lemma AllThree(s0: State, s1: State, s2: State, pin: Ptr, p: Ptr, q: Ptr)
    requires Blocks(s0).Keys == {pin} && |Blocks(s0)[pin].data| == BlockSize(MAX_LARGE)
    requires Handed(s0, s1, p, BlockSize(MAX_LARGE)) && Handed(s1, s2, q, BlockSize(MAX_LARGE))
    ensures {pin, p, q} <= Blocks(s2).Keys && pin != p && p != q && pin != q
    ensures forall x :: x in {pin, p, q} ==> |Blocks(s2)[x].data| == BlockSize(MAX_LARGE)
  {
    hide Blocks, BlockSize;
  }

  lemma TwoBlocks(s: State, s': State, pin: Ptr, p: Ptr, n: nat)
    requires Handed(s, s', p, n) && Blocks(s).Keys == {pin}
    ensures p != pin && Blocks(s').Keys == {pin, p} && |Blocks(s')[p].data| == n
    ensures Blocks(s')[pin] == Blocks(s)[pin]
  {
    hide Blocks;
  }

  lemma OneBlock(s: State, s': State, pin: Ptr, p: Ptr)
    requires Blocks(s).Keys == {pin, p} && p != pin && Blocks(s') == Blocks(s) - {p}
    ensures Blocks(s').Keys == {pin}
  {
    hide Blocks;
  }

  lemma TwoRuns(s: State, pin: Ptr, a: Loc, b: Loc, c: Bin)
    requires Inv(s) && pin in Blocks(s) && |Blocks(s)[pin].data| == 510 * 4096 && a == Loc(pin.chunk, pin.off / 4096)
    requires pin.off != 0 && s.runs == map[a := Large(510)][b := Small(c)]
    ensures Two(s.runs, a, b, c)
  {
    hide *;
    BlocksAre(s, pin);
    HugeByOffset(s, pin);
    BlockIs(s, pin);
    if s.live[pin].kind == SmallBlock { FewBytes(s.slots[pin].bin); }
    IsTwo(s.runs, a, b, c);
  }

  lemma FewBytes(b: Bin)
    ensures BinSize(b) < 510 * 4096
  {
    BinFacts(b);
  }

  lemma IsTwo(runs: map<Loc, Run>, a: Loc, b: Loc, c: Bin)
    requires runs == map[a := Large(510)][b := Small(c)] && a in runs && runs[a].Large?
    ensures Two(runs, a, b, c)
  {}

  lemma Collected510(s: State, a: Loc, b: Loc, c: Bin)
    requires |s.free| == BINS && Garbage(s) == {b} && Two(s.runs, a, b, c)
    requires a.chunk in s.ring && 1 <= a.page <= 2
    requires |s.ring| == 1
    ensures RunFree(Cleared(s), 1)
  {
    CollectParts(s);
    OnlyChunk(s);
    SweptShorter(s);
    hide Garbage, Collect, RunFree, SweptRing, Reclaimable;
    TwoAre(s.runs, a, b, c);
    assert s.runs - {b} == map[a := Large(510)];
    OnePageLeft(Cleared(s), a);
  }

  /** The limit is exceeded when a huge block that just fits under it is the first thing allocated after a block that
      fills the main chunk: the chunk for its list entry comes on top. */
  method OverTheLimit(start: nat, length: nat) returns (h: Heap, p: Option<Ptr>)
    requires 0 < start && MAX_LARGE < length
    ensures h.Valid() && h.limit == CHUNK + Aligned(length) && !h.overflow
    ensures h.refusals == 0 ==> p.Some?
    ensures p.Some? ==> h.realSize == h.limit + CHUNK
  {
    hide *;
    Constants();
    h := new Heap(start, CHUNK + Aligned(length), false);
    BlankReal(h);
    NoObjects(h);
    ghost var blank := h.st;
    var pin := h.Pin(MAX_LARGE);
    AlignedFacts(length);
    NeedIs(length);
    ValidParts(h);
    Shaped(h);
    PinFills(h, blank, pin);
    MainFullIs(h);
    p := h.Alloc(length);
  }

  lemma PinFills(h: Heap, blank: State, pin: Ptr)
    requires h.Valid() && pin == h.pin && Handed(blank, h.st, pin, BlockSize(MAX_LARGE))
    ensures Fills(h.st, pin)
  {
    hide *;
    ValidParts(h);
    Shaped(h);
    FullSize();
    HandedLive(blank, h.st, pin, BlockSize(MAX_LARGE));
    BlockIs(h.st, pin);
    PinHeld(h);
    HeldKind(h.st, pin);
  }

  lemma FullSize()
    ensures BlockSize(MAX_LARGE) == 511 * PAGE && forall b: Bin :: BinSize(b) < 511 * PAGE
  {
    forall b: Bin ensures BinSize(b) < 511 * PAGE {
      BinFacts(b);
    }
  }

  lemma HandedLive(s: State, s': State, p: Ptr, n: nat)
    requires Handed(s, s', p, n)
    ensures p in s'.live && |s'.live[p].data| == n
  {
    BlocksAre(s', p);
    hide Blocks;
  }

  lemma HeldKind(s: State, p: Ptr)
    requires HeldBy(s, p) && |s.live[p].data| == 511 * PAGE
    requires s.live[p].kind == SmallBlock ==> p in s.slots && |s.live[p].data| == BinSize(s.slots[p].bin)
    requires forall b: Bin :: BinSize(b) < 511 * PAGE
    ensures Fills(s, p)
  {
    hide BinSize;
  }
}
