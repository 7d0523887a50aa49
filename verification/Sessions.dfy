/** Whole runs of a heap: any sequence of client calls, from start-up on. */
module Sessions {
  import opened Wrappers
  import opened Sizes
  import opened Chunks
  import opened HeapState
  import opened HeapShape
  import opened Collecting
  import opened HeapSteps
  import opened Heaps

  // What a client may ask for, or do to its blocks.
  datatype Call =
    | Allocate(size: nat)
    | Release(p: Ptr)
    | Reallocate(p: Ptr, size: nat, copySize: nat)
    | Store(p: Ptr, at: nat, bytes: seq<bv8>)
    | CollectGarbage
    | EndOfRequest(first: nat) // a shutdown that is not full, and the first block of the next request

  // What came of a call. A refusal may leave bytes charged; it is the operating system's, or the limit's.
  datatype Event =
    | Got(p: Ptr, data: seq<bv8>)
    | Refused(charge: nat, denied: bool)
    | Gave(p: Ptr)
    | Moved(p: Ptr, q: Ptr, data: seq<bv8>)
    | Stored(p: Ptr, data: seq<bv8>)
    | Restarted(p: Ptr, data: seq<bv8>)
    | Nothing

  // What a client holds: blocks and their bytes.
  type Holdings = map<Ptr, seq<bv8>>

  function Apply(m: Holdings, e: Event): Holdings
  {
    match e
    case Got(p, data) => m[p := data]
    case Gave(p) => m - {p}
    case Moved(p, q, data) => (m - {p})[q := data]
    case Stored(p, data) => m[p := data]
    case Restarted(p, data) => map[p := data]
    case _ => m
  }

  // Some other block lies in the main chunk. A client that gives up its last one there breaks the heap; so does one
  // that has bytes copied past the new block. Such calls, and those that name a block the client does not hold, are
  // ignored.
  predicate Spared(main: nat, held: set<Ptr>, p: Ptr)
  {
    p in held && exists q :: q in held && q != p && q.chunk == main
  }

  // How the events may answer the calls of a client that holds m.
  ghost predicate Answers(main: nat, m: Holdings, c: Call, e: Event)
  {
    match c
    case Allocate(size) =>
      (e.Got? && e.p !in m && |e.data| == BlockSize(size)) || (e.Refused? && Charges(size, e.charge))
    case Release(p) => e == if Spared(main, m.Keys, p) then Gave(p) else Nothing
    case Reallocate(p, size, copySize) =>
      if Spared(main, m.Keys, p) && !Spills(p, |m[p]|, copySize, size) then
        || (e.Refused? && Charges(size, e.charge) && !Stays(p, |m[p]|, size))
        || (e.Moved? && e.p == p && (e.q == p || e.q !in m) && InPlace(p, |m[p]|, size, e.q) &&
            |e.data| == NewSize(p, |m[p]|, size) &&
            Begins(m[p], e.data, if e.q == p then Least(|m[p]|, size) else Carried(|m[p]|, copySize, size)))
      else e == Nothing
    case Store(p, at, bytes) =>
      if p in m && at + |bytes| <= |m[p]|
      then e == Stored(p, m[p][..at] + bytes + m[p][at + |bytes|..])
      else e == Nothing
    case CollectGarbage => e == Nothing
    case EndOfRequest(first) => e.Restarted? && |e.data| == BlockSize(first) && e.p.chunk == main
  }

  // Where a block of the given size can be after a reallocation: in place if it stays whatever else the heap holds, and
  // else only if it stays large or huge.
  ghost predicate InPlace(p: Ptr, size: nat, length: nat, q: Ptr)
  {
    && (Stays(p, size, length) ==> q == p)
    && (q == p && !Stays(p, size, length) ==>
         if p.off == 0 then MAX_LARGE < length else MAX_SMALL < size && MAX_SMALL < length <= MAX_LARGE)
  }

  predicate Begins(a: seq<bv8>, b: seq<bv8>, k: nat)
  {
    k <= |a| && k <= |b| && a[..k] == b[..k]
  }

  // What a request that is refused may leave charged: a small block, or the entry of a huge one.
  ghost predicate Charges(size: nat, charge: nat)
  {
    if size <= MAX_SMALL then charge == BlockSize(size)
    else charge == 0 || (MAX_LARGE < size && charge == BinSize(NODE_BIN))
  }

  // What the client holds after a number of events.
  function Replay(m: Holdings, log: seq<Event>): Holdings
  {
    if log == [] then m else Apply(Replay(m, log[..|log| - 1]), log[|log| - 1])
  }

  ghost predicate Faithful(main: nat, m: Holdings, calls: seq<Call>, log: seq<Event>)
  {
    |log| <= |calls| && forall i :: 0 <= i < |log| ==> Answers(main, Replay(m, log[..i]), calls[i], log[i])
  }

  // The bytes that refusals have left charged since the last restart.
  function Unpaid(log: seq<Event>): nat
  {
    if log == [] then 0
    else
      match log[|log| - 1]
      case Refused(charge, _) => Unpaid(log[..|log| - 1]) + charge
      case Restarted(_, _) => 0
      case _ => Unpaid(log[..|log| - 1])
  }

  // How much memory the events may have charged: the first chunk, and for each block that was handed out a chunk and,
  // if it is huge, its region.
  function Reserved(log: seq<Event>): nat
  {
    if log == [] then CHUNK else Reserve(Reserved(log[..|log| - 1]), log[|log| - 1])
  }

  function Reserve(before: int, e: Event): int
  {
    match e
    case Got(_, data) => before + Cost(|data|)
    case Moved(_, _, data) => before + Cost(|data|)
    case Restarted(_, _) => CHUNK
    case _ => before
  }

  // How often the operating system refused memory.
  function Denials(log: seq<Event>): nat
  {
    if log == [] then 0 else Denials(log[..|log| - 1]) + if IsDenied(log[|log| - 1]) then 1 else 0
  }

  predicate IsDenied(e: Event) { e.Refused? && e.denied }

  function Requested(c: Call): nat
  {
    match c
    case Allocate(size) => size
    case Reallocate(_, size, _) => size
    case _ => 0
  }

  // A refusal that is not the operating system's has the limit as its reason.
  predicate Reasoned(limit: nat, charged: int, c: Call, e: Event)
  {
    e.Refused? && !e.denied ==> charged + Need(Requested(c)) > limit
  }

  // So no request is refused by the limit that would have fitted under it beside all that was handed out before.
  ghost predicate Justified(limit: nat, calls: seq<Call>, log: seq<Event>)
  {
    |log| <= |calls| &&
    forall i :: 0 <= i < |log| ==> Reasoned(limit, Reserved(log[..i]), calls[i], log[i])
  }

  function Left(drift: nat, e: Event): nat
  {
    match e
    case Refused(charge, _) => drift + charge
    case Restarted(_, _) => 0
    case _ => drift
  }

  predicate Allowed(c: Call)
  {
    c.EndOfRequest? ==> c.first <= MAX_LARGE
  }

  ghost function Contents(s: State): Holdings
  {
    map p | p in Blocks(s) :: Blocks(s)[p].data
  }

  // The client holds exactly the blocks of the heap, with their bytes; one of them is in the main chunk.
  ghost predicate Holds(h: Heap, main: nat, m: Holdings)
    reads h
  {
    m == Contents(h.st) && h.pin in m && h.pin.chunk == main
  }

  // ---- what the steps of the heap are to the client ----

  lemma HandedIs(s: State, s': State, p: Ptr, n: nat) returns (e: Event)
    requires Handed(s, s', p, n)
    ensures e == Got(p, Contents(s')[p]) && p !in Contents(s) && |e.data| == n && Contents(s') == Apply(Contents(s), e)
  {
    hide Blocks;
    e := Got(p, Contents(s')[p]);
    assert forall q :: q in Blocks(s') <==> q in Blocks(s) || q == p;
  }

  lemma FreedIs(s: State, s': State, p: Ptr)
    requires Blocks(s') == Blocks(s) - {p}
    ensures Contents(s') == Apply(Contents(s), Gave(p))
  {
    hide Blocks;
  }

  lemma SameContents(s: State, s': State)
    requires Blocks(s') == Blocks(s)
    ensures Contents(s') == Contents(s)
  {
    hide Blocks;
  }

  lemma MovedIs(s: State, s': State, p: Ptr, q: Ptr, length: nat, keep: nat) returns (e: Event)
    requires Reallocated(s, s', p, q, length, keep)
    ensures p in Contents(s) && q in Contents(s') && e == Moved(p, q, Contents(s')[q]) && (q == p || q !in Contents(s))
    ensures length == |e.data| && Begins(Contents(s)[p], e.data, keep) && Contents(s') == Apply(Contents(s), e)
  {
    hide Blocks;
    e := Moved(p, q, Contents(s')[q]);
    forall x | x != q ensures x in Contents(s') <==> x in Contents(s) && x != p
      ensures x in Contents(s') ==> Contents(s')[x] == Contents(s)[x]
    {
      assert x in Blocks(s') - {q} <==> x in Blocks(s) - {p};
      if x in Contents(s') { assert (Blocks(s') - {q})[x] == (Blocks(s) - {p})[x]; }
    }
    assert Contents(s') == Apply(Contents(s), e);
  }

  lemma StoredIs(s: State, p: Ptr, data: seq<bv8>)
    requires p in Blocks(s) && p in s.live && |data| == |s.live[p].data|
    ensures Contents(Write(s, p, data)) == Apply(Contents(s), Stored(p, data))
  {
    WriteParts(s, p, data);
    forall q ensures q in Blocks(Write(s, p, data)) <==> q in Blocks(s) {
      BlocksAre(s, q);
      BlocksAre(Write(s, p, data), q);
    }
    forall q | q in Blocks(s) ensures Contents(Write(s, p, data))[q] == if q == p then data else Contents(s)[q] {
      BlocksAre(s, q);
      BlocksAre(Write(s, p, data), q);
    }
    hide Blocks, IsNode, Write;
  }

  // ---- one call ----

  lemma HoldsParts(h: Heap, main: nat, m: Holdings)
    requires h.Valid() && Holds(h, main, m)
    ensures m == Contents(h.st) && m.Keys == Blocks(h.st).Keys && h.pin.chunk == main && h.Shape() && h.ring != []
    ensures h !in Objects(h.ring) && h !in Objects(h.cachedChunks) && h.ring[0].number == main
    ensures forall p :: p in m ==> p in Blocks(h.st) && m[p] == Blocks(h.st)[p].data && p != NULL
  {
    hide *;
    ValidParts(h);
    Shaped(h);
    ContentsAll(h.st);
    HoldsAre(h, main, m);
    MainIs(h);
    forall p | p in m ensures p != NULL { NotNull(h, p); }
  }

  lemma ContentsAll(s: State)
    ensures Contents(s).Keys == Blocks(s).Keys
    ensures forall p :: p in Contents(s) ==> p in Blocks(s) && Contents(s)[p] == Blocks(s)[p].data
  {
    hide Blocks;
  }

  lemma HoldsAre(h: Heap, main: nat, m: Holdings)
    requires Holds(h, main, m)
    ensures m == Contents(h.st) && h.pin.chunk == main
  {}

  lemma MainIs(h: Heap)
    requires h.Valid()
    ensures h.ring != [] && h.pin.chunk == h.ring[0].number && h.pin in Blocks(h.st)
  {
    hide h.Valid, h.Shape, h.SizeOk, h.RealOk, Blocks, IsNode, Inv, ShapeOf, Sized;
    ValidParts(h);
    Shaped(h);
    BlocksAre(h.st, h.pin);
    NotNode(h.st, h.pin);
  }

  lemma HoldsAgain(h: Heap, main: nat, m: Holdings)
    requires h.Valid() && m == Contents(h.st) && h.pin.chunk == main
    ensures Holds(h, main, m)
  {
    hide *;
    MainIs(h);
    ContentsAll(h.st);
    HoldsIs(h, main, m);
  }

  lemma HoldsIs(h: Heap, main: nat, m: Holdings)
    requires m == Contents(h.st) && h.pin in m && h.pin.chunk == main
    ensures Holds(h, main, m)
  {}

  lemma NotNull(h: Heap, p: Ptr)
    requires h.Shape() && p in Blocks(h.st)
    ensures p != NULL
  {
    BlockPlace(h, p);
  }

  // What the drift becomes is what the events say.
  lemma Charged(size: nat, drift: int, drift': int, unlisted: int, unlisted': int)
    requires Settled(false, size, drift, drift', unlisted, unlisted')
    ensures drift' >= drift && Charges(size, drift' - drift)
  {
    hide BlockSize, BinSize;
  }

  lemma NotCharged(size: nat, drift: int, drift': int, unlisted: int, unlisted': int)
    requires Settled(true, size, drift, drift', unlisted, unlisted')
    ensures drift' == drift
  {
    hide BlockSize, BinSize;
  }

  lemma Applied(m: Holdings, e: Event, drift: nat)
    ensures e.Refused? ==> Apply(m, e) == m && Left(drift, e) == drift + e.charge
    ensures e.Nothing? ==> Apply(m, e) == m
    ensures e.Got? ==> Apply(m, e) == m[e.p := e.data]
    ensures e.Restarted? ==> Apply(m, e) == map[e.p := e.data] && Left(drift, e) == 0
    ensures !e.Refused? && !e.Restarted? ==> Left(drift, e) == drift
  {}

  lemma ReservedIs(limit: nat, charged: int, c: Call, e: Event, size: nat)
    ensures IsDenied(e) <==> e.Refused? && e.denied
    ensures e.Refused? && (e.denied || (Requested(c) == size && charged + Need(size) > limit)) ==>
      Reasoned(limit, charged, c, e)
    ensures !e.Refused? ==> Reasoned(limit, charged, c, e)
    ensures c.Allocate? ==> Requested(c) == c.size
    ensures c.Reallocate? ==> Requested(c) == c.size
    ensures e.Got? && size <= |e.data| ==> Reserve(charged, e) >= charged + Cost(size)
    ensures e.Moved? && size <= |e.data| ==> Reserve(charged, e) >= charged + Cost(size)
    ensures e.Restarted? ==> Reserve(charged, e) == CHUNK
    ensures e.Refused? || e.Gave? || e.Stored? || e.Nothing? ==> Reserve(charged, e) == charged
  {
    if e.Got? && size <= |e.data| { CostGrows(size, |e.data|); }
    if e.Moved? && size <= |e.data| { CostGrows(size, |e.data|); }
    hide Need, Cost;
  }

  lemma CostGrows(a: nat, b: nat)
    requires a <= b
    ensures Cost(a) <= Cost(b)
  {}

  lemma AllocateIs(main: nat, m: Holdings, size: nat, e: Event)
    requires (e.Got? && e.p !in m && |e.data| == BlockSize(size)) || (e.Refused? && Charges(size, e.charge))
    ensures Answers(main, m, Allocate(size), e)
  {}

  lemma SparedIs(main: nat, held: set<Ptr>, p: Ptr)
    ensures Spared(main, held, p) <==> p in held && exists q :: q in held && q != p && q.chunk == main
  {}

  lemma ReleaseIs(main: nat, m: Holdings, p: Ptr, e: Event)
    requires e == if Spared(main, m.Keys, p) then Gave(p) else Nothing
    ensures Answers(main, m, Release(p), e)
  {
    hide Spared;
  }

  lemma ReallocateIs(main: nat, m: Holdings, p: Ptr, size: nat, copySize: nat, e: Event)
    requires Spared(main, m.Keys, p) && p in m && !Spills(p, |m[p]|, copySize, size)
    requires (e.Refused? && Charges(size, e.charge) && !Stays(p, |m[p]|, size)) ||
      (e.Moved? && e.p == p && (e.q == p || e.q !in m) && InPlace(p, |m[p]|, size, e.q) &&
       |e.data| == NewSize(p, |m[p]|, size) &&
       Begins(m[p], e.data, if e.q == p then Least(|m[p]|, size) else Carried(|m[p]|, copySize, size)))
    ensures Answers(main, m, Reallocate(p, size, copySize), e)
  {
    hide BlockSize, Charges, Begins, Carried, Spills, Stays, InPlace, NewSize;
  }

  lemma InPlaceIs(s: State, p: Ptr, n: nat, size: nat)
    requires p in Blocks(s) && |Blocks(s)[p].data| == n
    ensures forall q :: InPlace(p, n, size, q) <==>
      && (Stays(p, n, size) ==> q == p)
      && (q == p && !Stays(p, n, size) ==>
           if p.off == 0 then MAX_LARGE < size else MAX_SMALL < n && MAX_SMALL < size <= MAX_LARGE)
    ensures KeepsPlace(s, p, size) && !Stays(p, n, size) && p.off != 0 ==>
      MAX_SMALL < n && MAX_SMALL < size <= MAX_LARGE
    ensures Stays(p, n, size) ==> KeepsPlace(s, p, size)
  {
    hide Stays, Blocks;
    KeepsPlaceIs(s, p, size);
  }

  lemma ReallocateNot(main: nat, m: Holdings, p: Ptr, size: nat, copySize: nat)
    requires !(Spared(main, m.Keys, p) && p in m && !Spills(p, |m[p]|, copySize, size))
    ensures Answers(main, m, Reallocate(p, size, copySize), Nothing)
  {
    hide BlockSize, Charges, Begins, Carried, Spills, Stays, InPlace, NewSize;
  }

  lemma StoreIs(main: nat, m: Holdings, p: Ptr, at: nat, bytes: seq<bv8>, e: Event)
    requires e == if p in m && at + |bytes| <= |m[p]| then Stored(p, m[p][..at] + bytes + m[p][at + |bytes|..])
      else Nothing
    ensures Answers(main, m, Store(p, at, bytes), e)
  {}

  lemma RestIs(main: nat, m: Holdings, first: nat, e: Event)
    ensures Answers(main, m, CollectGarbage, Nothing)
    ensures e.Restarted? && |e.data| == BlockSize(first) && e.p.chunk == main ==>
      Answers(main, m, EndOfRequest(first), e)
  {}

  method DoAllocate(h: Heap, main: nat, ghost m: Holdings, size: nat) returns (p: Option<Ptr>, ghost e: Event)
    requires h.Valid() && Holds(h, main, m)
    modifies h, Objects(h.ring), Objects(h.cachedChunks)
    ensures h.Valid() && Holds(h, main, Apply(m, e)) && h.drift == Left(old(h.drift), e)
    ensures h.overflow || h.realSize <= old(h.realSize) || h.realSize <= h.limit + CHUNK
    ensures Reasoned(h.limit, old(h.realSize), Allocate(size), e) && h.realSize <= Reserve(old(h.realSize), e)
    ensures h.refusals >= old(h.refusals) + if IsDenied(e) then 1 else 0
    ensures forall o :: o in Objects(h.ring) + Objects(h.cachedChunks) ==>
      o in old(Objects(h.ring) + Objects(h.cachedChunks)) || fresh(o)
    ensures Answers(main, m, Allocate(size), e)
    ensures if p.Some? then e.Got? && e.p == p.value else e.Refused?
    ensures size <= MAX_LARGE ==> (e.Refused? && !e.denied <==> old(h.Stuck(size)))
  {
    hide *;
    HoldsParts(h, main, m);
    ghost var before, drift, unlisted := h.st, h.drift, h.unlisted;
    ghost var charged, refused := h.realSize, h.refusals;
    BlockSizeEnough(size);
    p := h.Alloc(size);
    if p.Some? {
      e := HandedIs(before, h.st, p.value, BlockSize(size));
      NotCharged(size, drift, h.drift, unlisted, h.unlisted);
    } else {
      Charged(size, drift, h.drift, unlisted, h.unlisted);
      e := Refused(h.drift - drift, h.refusals > refused);
      SameContents(before, h.st);
    }
    ReservedIs(h.limit, charged, Allocate(size), e, size);
    Applied(m, e, drift);
    HoldsAgain(h, main, Contents(h.st));
    AllocateIs(main, m, size, e);
  }

  // The block that stays while p is given up.
  lemma Other(h: Heap, main: nat, m: Holdings, p: Ptr) returns (q: Ptr)
    requires h.Valid() && Holds(h, main, m) && Spared(main, m.Keys, p)
    ensures p in m && q in m && q != p && q in Blocks(h.st) && h.ring != [] && q.chunk == h.ring[0].number
  {
    hide *;
    SparedIs(main, m.Keys, p);
    HoldsParts(h, main, m);
    q :| q in m.Keys && q != p && q.chunk == main;
  }

  method DoRelease(h: Heap, main: nat, held: set<Ptr>, ghost m: Holdings, p: Ptr) returns (ghost e: Event)
    requires held == m.Keys
    requires h.Valid() && Holds(h, main, m)
    modifies h, Objects(h.ring), Objects(h.cachedChunks)
    ensures h.Valid() && Holds(h, main, Apply(m, e)) && h.drift == Left(old(h.drift), e)
    ensures h.overflow || h.realSize <= old(h.realSize) || h.realSize <= h.limit + CHUNK
    ensures Reasoned(h.limit, old(h.realSize), Release(p), e) && h.realSize <= Reserve(old(h.realSize), e)
    ensures h.refusals >= old(h.refusals) + if IsDenied(e) then 1 else 0
    ensures forall o :: o in Objects(h.ring) + Objects(h.cachedChunks) ==>
      o in old(Objects(h.ring) + Objects(h.cachedChunks)) || fresh(o)
    ensures Answers(main, m, Release(p), e) && e == if Spared(main, held, p) then Gave(p) else Nothing
  {
    hide *;
    HoldsParts(h, main, m);
    ghost var before := h.st;
    if Spared(main, held, p) {
      ghost var q := Other(h, main, m, p);
      h.Repin(q);
      h.Free(p);
      FreedIs(before, h.st, p);
      e := Gave(p);
    } else {
      e := Nothing;
    }
    ReservedIs(h.limit, old(h.realSize), Release(p), e, 0);
    Applied(m, e, h.drift);
    HoldsAgain(h, main, Contents(h.st));
    ReleaseIs(main, m, p, e);
  }

  method DoReallocate(h: Heap, main: nat, held: set<Ptr>, ghost m: Holdings, p: Ptr, size: nat, copySize: nat)
    returns (r: Option<Ptr>, ghost e: Event)
    requires held == m.Keys
    requires h.Valid() && Holds(h, main, m)
    modifies h, Objects(h.ring), Objects(h.cachedChunks)
    ensures h.Valid() && Holds(h, main, Apply(m, e)) && h.drift == Left(old(h.drift), e)
    ensures h.overflow || h.realSize <= old(h.realSize) || h.realSize <= h.limit + CHUNK
    ensures Reasoned(h.limit, old(h.realSize), Reallocate(p, size, copySize), e)
    ensures h.realSize <= Reserve(old(h.realSize), e)
    ensures h.refusals >= old(h.refusals) + if IsDenied(e) then 1 else 0
    ensures forall o :: o in Objects(h.ring) + Objects(h.cachedChunks) ==>
      o in old(Objects(h.ring) + Objects(h.cachedChunks)) || fresh(o)
    ensures Answers(main, m, Reallocate(p, size, copySize), e)
    ensures if r.Some? then e.Moved? && e.p == p && e.q == r.value else e.Refused? || e.Nothing?
  {
    hide *;
    HoldsParts(h, main, m);
    SparedIs(main, held, p);
    ghost var before, drift, unlisted := h.st, h.drift, h.unlisted;
    ghost var charged, refused := h.realSize, h.refusals;
    r := None;
    e := Nothing;
    if Spared(main, held, p) {
      ghost var q := Other(h, main, m, p);
      var n := h.Size(p);
      if !Spills(p, n, copySize, size) {
        h.Repin(q);
        InPlaceIs(before, p, n, size);
        NewSizeEnough(p, n, size);
        r := h.Realloc(p, size, true, copySize);
        if r.Some? {
          e := MovedIs(before, h.st, p, r.value, NewSize(p, n, size),
            if r.value == p then Least(n, size) else Carried(n, copySize, size));
          NotCharged(size, drift, h.drift, unlisted, h.unlisted);
        } else {
          Charged(size, drift, h.drift, unlisted, h.unlisted);
          e := Refused(h.drift - drift, h.refusals > refused);
          SameContents(before, h.st);
        }
        ReallocateIs(main, m, p, size, copySize, e);
      } else {
        assert n == |m[p]|;
        ReallocateNot(main, m, p, size, copySize);
      }
    } else {
      ReallocateNot(main, m, p, size, copySize);
    }
    ReservedIs(h.limit, charged, Reallocate(p, size, copySize), e, size);
    Applied(m, e, drift);
    HoldsAgain(h, main, Contents(h.st));
  }

  method DoStore(h: Heap, main: nat, ghost m: Holdings, p: Ptr, at: nat, bytes: seq<bv8>) returns (ghost e: Event)
    requires h.Valid() && Holds(h, main, m)
    modifies h, Objects(h.ring), Objects(h.cachedChunks)
    ensures h.Valid() && Holds(h, main, Apply(m, e)) && h.drift == Left(old(h.drift), e)
    ensures h.overflow || h.realSize <= old(h.realSize) || h.realSize <= h.limit + CHUNK
    ensures Reasoned(h.limit, old(h.realSize), Store(p, at, bytes), e) && h.realSize <= Reserve(old(h.realSize), e)
    ensures h.refusals >= old(h.refusals) + if IsDenied(e) then 1 else 0
    ensures forall o :: o in Objects(h.ring) + Objects(h.cachedChunks) ==>
      o in old(Objects(h.ring) + Objects(h.cachedChunks)) || fresh(o)
    ensures Answers(main, m, Store(p, at, bytes), e) && (e.Nothing? || (e.Stored? && p in m && e.p == p))
  {
    hide *;
    HoldsParts(h, main, m);
    ghost var before := h.st;
    e := Nothing;
    if p in m && at + |bytes| <= |m[p]| {
      ghost var data := m[p][..at] + bytes + m[p][at + |bytes|..];
      assert |data| == |m[p]|;
      h.Store(p, data);
      StoredIs(before, p, data);
      e := Stored(p, data);
    }
    ReservedIs(h.limit, old(h.realSize), Store(p, at, bytes), e, 0);
    Applied(m, e, h.drift);
    HoldsAgain(h, main, Contents(h.st));
    StoreIs(main, m, p, at, bytes, e);
  }

  method DoRest(h: Heap, main: nat, ghost m: Holdings, c: Call) returns (p: Option<Ptr>, ghost e: Event)
    requires (c.CollectGarbage? || c.EndOfRequest?) && Allowed(c)
    requires h.Valid() && Holds(h, main, m)
    modifies h, Objects(h.ring), Objects(h.cachedChunks)
    ensures h.Valid() && Holds(h, main, Apply(m, e)) && h.drift == Left(old(h.drift), e)
    ensures h.overflow || h.realSize <= old(h.realSize) || h.realSize <= h.limit + CHUNK
    ensures Reasoned(h.limit, old(h.realSize), c, e) && h.realSize <= Reserve(old(h.realSize), e)
    ensures h.refusals >= old(h.refusals) + if IsDenied(e) then 1 else 0
    ensures forall o :: o in Objects(h.ring) + Objects(h.cachedChunks) ==>
      o in old(Objects(h.ring) + Objects(h.cachedChunks)) || fresh(o)
    ensures Answers(main, m, c, e)
    ensures if c.CollectGarbage? then e.Nothing? && p == None else e.Restarted? && p == Some(e.p)
  {
    hide *;
    HoldsParts(h, main, m);
    AllowedIs(c);
    ValidParts(h);
    Shaped(h);
    ghost var before := h.st;
    match c {
      case CollectGarbage =>
        var collected := h.Gc();
        CollectParts(before);
        SameLiveIs(before, h.st);
        SameBlocks(before, h.st);
        SameContents(before, h.st);
        ValidAgain(h);
        p, e := None, Nothing;
      case EndOfRequest(first) =>
        h.Shutdown();
        ghost var blank := h.st;
        BlankReal(h);
        var first' := h.Pin(first);
        e := HandedIs(blank, h.st, first', BlockSize(first));
        NoContents(blank);
        Applied(map[], e, 0);
        e := Restarted(e.p, e.data);
        p := Some(first');
    }
    ReservedIs(h.limit, old(h.realSize), c, e, 0);
    Applied(m, e, old(h.drift));
    HoldsAgain(h, main, Contents(h.st));
    RestIs(main, m, if c.EndOfRequest? then c.first else 0, e);
  }

  lemma NoContents(s: State)
    requires Blocks(s) == map[]
    ensures Contents(s) == map[]
  {}

  lemma AllowedIs(c: Call)
    requires Allowed(c)
    ensures c.EndOfRequest? ==> c.first <= MAX_LARGE
  {}

  lemma BlankReal(h: Heap)
    requires h.Blank()
    ensures h.realSize == CHUNK && h.drift == 0 && h.ring != []
  {
    hide Inv, ShapeOf, Bytes;
    Shaped(h);
    NoBytes();
  }

  lemma NoBytes()
    ensures Bytes(map[]) == 0
  {}

  // ---- runs ----

  /** One call: its event answers it, and the heap then holds what the event leaves the client; no other block, and no
      byte of one, changes. */
  method Perform(h: Heap, main: nat, c: Call, held: set<Ptr>, ghost m: Holdings)
    returns (held': set<Ptr>, ghost e: Event)
    requires h.Valid() && Holds(h, main, m) && held == m.Keys && Allowed(c)
    modifies h, Objects(h.ring), Objects(h.cachedChunks)
    ensures h.Valid() && Answers(main, m, c, e)
    ensures Holds(h, main, Apply(m, e)) && held' == Apply(m, e).Keys && h.drift == Left(old(h.drift), e)
    ensures h.overflow || h.realSize <= old(h.realSize) || h.realSize <= h.limit + CHUNK
    ensures Reasoned(h.limit, old(h.realSize), c, e) && h.realSize <= Reserve(old(h.realSize), e)
    ensures h.refusals >= old(h.refusals) + if IsDenied(e) then 1 else 0
    ensures c.Allocate? && c.size <= MAX_LARGE ==> (e.Refused? && !e.denied <==> old(h.Stuck(c.size)))
    ensures forall o :: o in Objects(h.ring) + Objects(h.cachedChunks) ==>
      o in old(Objects(h.ring) + Objects(h.cachedChunks)) || fresh(o)
  {
    hide *;
    held' := held;
    match c {
      case Allocate(size) =>
        var p;
        p, e := DoAllocate(h, main, m, size);
        if p.Some? { held' := held + {p.value}; }
      case Release(p) =>
        SparedIs(main, held, p);
        if Spared(main, held, p) { held' := held - {p}; }
        e := DoRelease(h, main, held, m, p);
      case Reallocate(p, size, copySize) =>
        var r;
        r, e := DoReallocate(h, main, held, m, p, size, copySize);
        if r.Some? { held' := held - {p} + {r.value}; }
      case Store(p, at, bytes) =>
        e := DoStore(h, main, m, p, at, bytes);
        assert e.Stored? ==> m.Keys + {p} == m.Keys;
      case CollectGarbage =>
        var none;
        none, e := DoRest(h, main, m, c);
      case EndOfRequest(_) =>
        var p;
        p, e := DoRest(h, main, m, c);
        held' := {p.value};
    }
    AppliedKeys(m, e);
  }

  lemma AppliedKeys(m: Holdings, e: Event)
    ensures Apply(m, e).Keys ==
      match e
      case Got(p, _) => m.Keys + {p}
      case Gave(p) => m.Keys - {p}
      case Moved(p, q, _) => m.Keys - {p} + {q}
      case Stored(p, _) => m.Keys + {p}
      case Restarted(p, _) => {p}
      case _ => m.Keys
  {}

  lemma Begun(main: nat, m: Holdings, calls: seq<Call>)
    ensures Replay(m, []) == m && Faithful(main, m, calls, []) && Unpaid([]) == 0
  {}

  lemma Logged(main: nat, m: Holdings, calls: seq<Call>, log: seq<Event>, e: Event)
    requires Faithful(main, m, calls, log) && |log| < |calls| && Answers(main, Replay(m, log), calls[|log|], e)
    ensures Faithful(main, m, calls, log + [e]) && Replay(m, log + [e]) == Apply(Replay(m, log), e)
    ensures Unpaid(log + [e]) == Left(Unpaid(log), e)
  {
    hide Answers, Apply;
    assert (log + [e])[..|log|] == log;
    forall i | 0 <= i < |log| + 1 ensures Answers(main, Replay(m, (log + [e])[..i]), calls[i], (log + [e])[i]) {
      assert i < |log| ==> (log + [e])[..i] == log[..i];
    }
  }

  /** Over every run, from start-up on, whether the first block comes from the start-up or is a client's own: each event
      answers its call; the client holds exactly the blocks and bytes that replaying the events gives; live blocks are
      disjoint; the bytes charged are those of the live blocks and what refusals have left; and the memory charged is at
      least a chunk and exceeds the limit by at most a chunk. */
  method Run(start: nat, limit: nat, first: nat, calls: seq<Call>)
    returns (h: Heap, held: set<Ptr>, ghost m: Holdings, ghost log: seq<Event>)
    requires 0 < start && first <= MAX_LARGE && forall c :: c in calls ==> Allowed(c)
    ensures h.Valid() && |log| == |calls| && |m| == 1
      && (forall p :: p in m ==> p.chunk == start && |m[p]| == BlockSize(first))
    ensures Faithful(start, m, calls, log)
    ensures Justified(limit, calls, log) && Denials(log) <= h.refusals && h.realSize <= Reserved(log)
    ensures Contents(h.st) == Replay(m, log) && held == Replay(m, log).Keys
    ensures forall p, q :: p in h.st.live && q in h.st.live && p != q ==>
      BytesApart(Addr(p), |h.st.live[p].data|, Addr(q), |h.st.live[q].data|)
    ensures h.size == Bytes(h.st.live) + Unpaid(log)
    ensures (forall e :: e in log ==> !e.Refused?) ==> h.size == Bytes(h.st.live)
    ensures CHUNK <= h.realSize <= limit + CHUNK
  {
    hide *;
    Constants();
    h := new Heap(start, limit, false);
    BlankReal(h);
    NoObjects(h);
    ghost var blank := h.st;
    var pin := h.Pin(first);
    ghost var e := HandedIs(blank, h.st, pin, BlockSize(first));
    NoContents(blank);
    Applied(map[], e, 0);
    m := map[pin := e.data];
    HoldsAgain(h, start, m);
    held := {pin};
    log := [];
    Begun(start, m, calls);
    Unspent(limit, calls);
    var i := 0;
    while i < |calls|
      invariant i == |log| <= |calls| && h.Valid() && Holds(h, start, Replay(m, log)) && held == Replay(m, log).Keys
      invariant Faithful(start, m, calls, log) && h.drift == Unpaid(log) && h.realSize <= limit + CHUNK
      invariant h.limit == limit && Justified(limit, calls, log)
      invariant Denials(log) <= h.refusals && h.realSize <= Reserved(log)
      invariant forall o :: o in Objects(h.ring) + Objects(h.cachedChunks) ==> fresh(o)
    {
      forall o | o in Objects(h.ring) || o in Objects(h.cachedChunks) ensures fresh(o) {
        assert o in Objects(h.ring) + Objects(h.cachedChunks);
      }
      ghost var event;
      ghost var charged := h.realSize;
      held, event := Perform(h, start, calls[i], held, Replay(m, log));
      Logged(start, m, calls, log, event);
      Accounted(limit, charged, calls, log, event);
      log := log + [event];
      i := i + 1;
    }
    AtLeastAChunk(h);
    if forall e :: e in log ==> !e.Refused? { NothingUnpaid(log); }
    HoldsAre(h, start, Replay(m, log));
    forall p, q | p in h.st.live && q in h.st.live && p != q
      ensures BytesApart(Addr(p), |h.st.live[p].data|, Addr(q), |h.st.live[q].data|)
    {
      LiveBlocksApart(h.st, p, q);
    }
  }

  lemma Unspent(limit: nat, calls: seq<Call>)
    ensures Justified(limit, calls, []) && Denials([]) == 0 && Reserved([]) == CHUNK
  {}

  lemma Accounted(limit: nat, charged: int, calls: seq<Call>, log: seq<Event>, e: Event)
    requires Justified(limit, calls, log) && |log| < |calls|
    requires Reasoned(limit, charged, calls[|log|], e) && charged <= Reserved(log)
    ensures Justified(limit, calls, log + [e])
    ensures Denials(log + [e]) == Denials(log) + if IsDenied(e) then 1 else 0
    ensures Reserve(charged, e) <= Reserved(log + [e])
  {
    hide *;
    LastEvent(log, e);
    ReserveGrows(charged, Reserved(log), e);
    ReasonedStill(limit, charged, Reserved(log), calls[|log|], e);
    JustifiedIs(limit, calls, log);
    JustifiedIs(limit, calls, log + [e]);
    forall i | 0 <= i < |log| + 1 ensures Reasoned(limit, Reserved((log + [e])[..i]), calls[i], (log + [e])[i]) {
      assert (log + [e])[..i] == log[..i];
      assert i == |log| ==> log[..i] == log;
    }
  }

  lemma JustifiedIs(limit: nat, calls: seq<Call>, log: seq<Event>)
    ensures Justified(limit, calls, log) <==>
      (|log| <= |calls| && forall i :: 0 <= i < |log| ==> Reasoned(limit, Reserved(log[..i]), calls[i], log[i]))
  {
    hide Reasoned, Reserved;
  }

  lemma LastEvent(log: seq<Event>, e: Event)
    ensures Denials(log + [e]) == Denials(log) + if IsDenied(e) then 1 else 0
    ensures Reserved(log + [e]) == Reserve(Reserved(log), e)
  {
    hide Reserve, IsDenied;
    assert (log + [e])[..|log|] == log;
  }

  lemma ReserveGrows(a: int, b: int, e: Event)
    requires a <= b
    ensures Reserve(a, e) <= Reserve(b, e)
  {
    hide Cost;
  }

  lemma ReasonedStill(limit: nat, a: int, b: int, c: Call, e: Event)
    requires a <= b && Reasoned(limit, a, c, e)
    ensures Reasoned(limit, b, c, e)
  {
    hide Need, Requested;
  }

  // Without a refusal since the last restart nothing is left charged.
  lemma {:induction false} NothingUnpaid(log: seq<Event>)
    requires forall e :: e in log ==> !e.Refused?
    ensures Unpaid(log) == 0
  {
    if log != [] {
      var rest, e := log[..|log| - 1], log[|log| - 1];
      assert e in log && forall x :: x in rest ==> x in log;
      NothingUnpaid(rest);
    }
  }

  lemma NoObjects(h: Heap)
    requires h.cachedChunks == []
    ensures Objects(h.ring) + Objects(h.cachedChunks) == Objects(h.ring)
  {}

  lemma AtLeastAChunk(h: Heap)
    requires h.Valid()
    ensures CHUNK <= h.realSize && Inv(h.st) && h.size == Bytes(h.st.live) + h.drift
  {
    ValidParts(h);
    Shaped(h);
    RealIs(h);
    hide h.Valid, h.Shape, h.SizeOk, h.Pinned, Inv, Bytes;
  }
}
