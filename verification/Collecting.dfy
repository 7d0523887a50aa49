/** The three passes of zend_mm_gc: counting the free slots of each run, unlisting those of full runs, sweeping the
    chunks. */
module Collecting {
  import opened Sizes
  import opened Chunks
  import opened HeapState
  import opened HeapShape

  // What the counter of run l reads when the lists of the classes below i and the first j slots of list i are counted:
  // the entry keeps nine bits of it.
  ghost function Tally(s: State, i: nat, j: nat, l: Loc): nat
    requires |s.free| == BINS && l in s.runs && s.runs[l].Small?
  {
    var b := s.runs[l].bin;
    if b < i then Count(s.free[b], s.slots, l) % 512
    else if b == i && j <= |s.free[b]| then Count(s.free[b][..j], s.slots, l) % 512
    else 0
  }

  // Chunk c during a collection: its runs are those of s, their counters are tallies.
  ghost predicate Counted(s: State, c: Chunk, i: nat, j: nat)
    requires |s.free| == BINS
    reads c, c.freeMap, c.info
  {
    c.Valid() && Matches(c.number, c.runs, s.runs) && Tallied(s, c.number, c.runs, c.info[..], i, j)
  }

  ghost predicate Tallied(s: State, number: nat, local: map<nat, Run>, info: seq<PageInfo>, i: nat, j: nat)
    requires |s.free| == BINS
  {
    forall p ::
      p in local && local[p].Small? && p < |info| && Loc(number, p) in s.runs && s.runs[Loc(number, p)] == local[p] ==>
      info[p] == Srun(local[p].bin, Tally(s, i, j, Loc(number, p)))
  }

  // The heap while lists are counted and unlisted.
  ghost predicate Counting(s: State, ring: seq<Chunk>, cached: seq<Chunk>, i: nat, j: nat)
    reads Objects(ring), Objects(cached)
  {
    && Inv(s) && |s.free| == BINS && Numbers(ring) == s.ring && Numbers(cached) == s.cached
    && (forall c :: c in ring ==> Counted(s, c, i, j))
    && (forall c :: c in cached ==> Clean(c))
    && Unshared(ring + cached)
  }

  // The heap while its chunks are swept: s is what the collection makes of s0, chunks from index i on are still to
  // come.
  ghost predicate Sweeping(s0: State, s: State, ring: seq<Chunk>, cached: seq<Chunk>, i: nat)
    reads Objects(ring), Objects(cached)
  {
    && Inv(s0) && |s0.free| == BINS && Inv(s) && s.runs == s0.runs - Garbage(s0)
    && Numbers(ring) == s.ring && Numbers(cached) == s.cached
    && i <= |ring|
    && (forall c :: c in ring && c in ring[..i] ==> InUse(c, s.runs))
    && (forall c :: c in ring && c in ring[i..] ==> Counted(s0, c, BINS, 0))
    && (forall c :: c in cached ==> Clean(c))
    && Unshared(ring + cached)
  }

  // ---- counting ----

  lemma {:induction false} CountNone(slots: map<Ptr, Slot>, l: Loc)
    ensures Count([], slots, l) == 0
  {}

  lemma CountNext(list: seq<Ptr>, slots: map<Ptr, Slot>, j: nat, l: Loc)
    requires j < |list|
    ensures Count(list[..j + 1], slots, l) ==
            Count(list[..j], slots, l) + if list[j] in slots && slots[list[j]].run == l then 1 else 0
  {
    assert list[..j + 1][..j] == list[..j];
  }

  lemma {:induction false} CountUpTo(list: seq<Ptr>, slots: map<Ptr, Slot>, j: nat, l: Loc)
    requires j <= |list|
    ensures Count(list[..j], slots, l) <= Count(list, slots, l)
    decreases |list| - j
  {
    if j < |list| {
      CountNext(list, slots, j, l);
      CountUpTo(list, slots, j + 1, l);
    } else {
      assert list[..j] == list;
    }
  }

  // A quiet chunk has counted nothing yet.
  lemma NothingCounted(s: State, c: Chunk)
    requires |s.free| == BINS && InUse(c, s.runs)
    ensures Counted(s, c, 0, 0)
  {
    var local, info := c.runs, c.info[..];
    forall p | p in local && local[p].Small? && p < |info| && Loc(c.number, p) in s.runs
      && s.runs[Loc(c.number, p)] == local[p]
      ensures info[p] == Srun(local[p].bin, Tally(s, 0, 0, Loc(c.number, p)))
    {
      CountNone(s.slots, Loc(c.number, p));
      assert s.free[local[p].bin][..0] == [];
    }
  }

  // The end of one list is the start of the next.
  lemma NextList(s: State, i: nat, l: Loc)
    requires |s.free| == BINS && l in s.runs && s.runs[l].Small? && i < BINS
    ensures Tally(s, i, |s.free[i]|, l) == Tally(s, i + 1, 0, l)
  {
    assert s.free[i][..|s.free[i]|] == s.free[i];
    CountNone(s.slots, l);
    assert s.runs[l].bin < BINS ==> s.free[s.runs[l].bin][..0] == [];
  }

  lemma ListCounted(s: State, ring: seq<Chunk>, cached: seq<Chunk>, i: nat)
    requires |s.free| == BINS && i < BINS && Counting(s, ring, cached, i, |s.free[i]|)
    ensures Counting(s, ring, cached, i + 1, 0)
  {
    hide Inv, Unshared, Clean, Matches, Tally;
    forall c | c in ring ensures Counted(s, c, i + 1, 0) {
      forall p | p in c.runs && c.runs[p].Small? && p < |c.info[..]| && Loc(c.number, p) in s.runs
        && s.runs[Loc(c.number, p)] == c.runs[p]
        ensures c.info[p] == Srun(c.runs[p].bin, Tally(s, i + 1, 0, Loc(c.number, p)))
      {
        NextList(s, i, Loc(c.number, p));
      }
    }
  }

  // Counting a slot of run l changes the tally of l alone.
  lemma TallyNext(s: State, i: nat, j: nat, l: Loc)
    requires |s.free| == BINS && i < BINS && j < |s.free[i]| && l in s.runs && s.runs[l].Small?
    requires s.free[i][j] in s.slots
    ensures s.slots[s.free[i][j]].run != l ==> Tally(s, i, j + 1, l) == Tally(s, i, j, l)
    ensures s.slots[s.free[i][j]].run == l && s.runs[l].bin == i ==>
      Tally(s, i, j + 1, l) == (Tally(s, i, j, l) + 1) % 512
  {
    CountNext(s.free[i], s.slots, j, l);
    hide Count;
  }

  /** The counter of a run tells whether it is garbage: it reads the number of its elements exactly if they are all
      free, and for class 0 it never does. */
  lemma CounterDecides(s: State, l: Loc)
    requires Inv(s) && |s.free| == BINS && l in s.runs && s.runs[l].Small?
    ensures Tally(s, BINS, 0, l) == Elements(s.runs[l].bin) <==> l in Garbage(s)
    ensures Tally(s, s.runs[l].bin + 1, 0, l) == Tally(s, BINS, 0, l)
  {
    hide *;
    var b := s.runs[l].bin;
    FreeDistinct(s, b);
    SlotsGood(s);
    CountFull(s.runs, s.free[b], s.slots, l, b);
    IdleListed(s, l);
    FewElements(b);
    LastTally(s, l);
    IsGarbage(s, l);
  }

  lemma LastTally(s: State, l: Loc)
    requires |s.free| == BINS && l in s.runs && s.runs[l].Small?
    ensures Tally(s, BINS, 0, l) == Tally(s, s.runs[l].bin + 1, 0, l) == Count(s.free[s.runs[l].bin], s.slots, l) % 512
  {}

  lemma IsGarbage(s: State, l: Loc)
    requires l in s.runs && s.runs[l].Small?
    ensures l in Garbage(s) <==> Idle(s, l) && s.runs[l].bin != 0
  {}

  lemma FewElements(b: Bin)
    ensures b == 0 <==> Elements(b) == 512
    ensures 0 < Elements(b) <= 512
  {
    BinFacts(b);
  }

  lemma FreeDistinct(s: State, b: Bin)
    requires Inv(s)
    ensures |s.free| == BINS == 30 && Distinct(s.free[b])
    ensures forall p :: p in s.free[b] ==> p in s.slots && s.slots[p].bin == b && p !in s.live
  {
    hide ChunksOk, RunsOk, SlotsOk, LiveOk, HugeOk, RegionsOk;
  }

  lemma SlotsGood(s: State)
    requires Inv(s)
    ensures SlotsOk(s.runs, s.slots)
  {}

  // What a step on chunk c needs to know, and what it has to give back.
  lemma CountingParts(s: State, ring: seq<Chunk>, cached: seq<Chunk>, i: nat, j: nat, c: Chunk)
    requires Counting(s, ring, cached, i, j) && c in ring
    ensures Inv(s) && |s.free| == BINS && Numbers(ring) == s.ring && Numbers(cached) == s.cached
      && Unshared(ring + cached)
    ensures Counted(s, c, i, j) && c.Valid() && Matches(c.number, c.runs, s.runs) && c.info.Length == 512
      && PAGE == 4096 && PAGES == 512
    ensures forall d :: d in ring && d != c ==>
      Counted(s, d, i, j) && d.number != c.number
        && {d as object, d.freeMap, d.info} !! {c as object, c.freeMap, c.info}
    ensures forall d :: d in cached ==> Clean(d) && {d as object, d.freeMap, d.info} !! {c as object, c.freeMap, c.info}
  {
    hide *;
    CountingAre(s, ring, cached, i, j);
    CountedAre(s, c, i, j);
    NumbersHas(ring, c);
    forall d | d in cached ensures d != c { NumbersHas(cached, d); NotBoth(s, c.number, d.number); }
    forall d: Chunk | d in ring + cached && d != c
      ensures d.number != c.number && {d as object, d.freeMap, d.info} !! {c as object, c.freeMap, c.info}
    {
      if d in ring { CountedAre(s, d, i, j); } else { CleanParts(d); }
      Footprints(ring + cached, c, d);
    }
  }

  lemma CountingAre(s: State, ring: seq<Chunk>, cached: seq<Chunk>, i: nat, j: nat)
    requires Counting(s, ring, cached, i, j)
    ensures Inv(s) && |s.free| == BINS && Numbers(ring) == s.ring && Numbers(cached) == s.cached
      && Unshared(ring + cached)
    ensures forall c :: c in ring ==> Counted(s, c, i, j)
    ensures forall c :: c in cached ==> Clean(c)
  {
    hide Inv, Unshared, Counted, Clean, Numbers;
  }

  lemma CountingIs(s: State, ring: seq<Chunk>, cached: seq<Chunk>, i: nat, j: nat)
    requires Inv(s) && |s.free| == BINS && Numbers(ring) == s.ring && Numbers(cached) == s.cached
      && Unshared(ring + cached)
    requires forall c :: c in ring ==> Counted(s, c, i, j)
    requires forall c :: c in cached ==> Clean(c)
    ensures Counting(s, ring, cached, i, j)
  {
    hide Inv, Unshared, Counted, Clean, Numbers;
  }

  lemma CountedAre(s: State, c: Chunk, i: nat, j: nat)
    requires |s.free| == BINS && Counted(s, c, i, j)
    ensures c.Valid() && Matches(c.number, c.runs, s.runs) && Tallied(s, c.number, c.runs, c.info[..], i, j)
    ensures c.freeMap.Length == 8 && c.info.Length == 512 && PAGE == 4096 && PAGES == 512
  {
    hide Matches, Tallied;
    Bounds(c);
  }

  // ---- from a slot to its run's entry ----

  lemma PageOfSlot(s: State, p: Ptr)
    requires Inv(s) && p in s.slots
    ensures var t := s.slots[p];
      && t.run in s.runs && s.runs[t.run] == Small(t.bin) && p.chunk == t.run.chunk && t.run.chunk in s.ring
      && t.run.page <= p.off / 4096 < t.run.page + BinPages(t.bin) <= 512
  {
    SlotBounds(s.runs, s.slots, p);
    hide SlotsOk, FreeOk, LiveOk, HugeOk, RegionsOk, BinPages, BinSize, Length, Elements;
  }

  lemma EntryOfSlot(c: Chunk, runs: map<Loc, Run>, l: Loc, b: Bin, page: nat)
    requires c.Valid() && Matches(c.number, c.runs, runs) && l in runs && l.chunk == c.number && runs[l] == Small(b)
    requires l.page <= page < l.page + BinPages(b)
    ensures page < c.info.Length && l.page in c.runs && c.runs[l.page] == Small(b)
    ensures if page == l.page then c.info[page].Srun? && c.info[page].bin == b
      else c.info[page] == Nrun(b, page - l.page)
  {
    LengthSmall(b);
    hide MapOk, Length, BinPages, TailOk;
    assert Described(c.info[..], l.page, c.runs[l.page]);
    assert c.info[l.page + (page - l.page)] == c.info[page];
  }

  // ---- one counted slot ----

  lemma TallyOf(s: State, c: Chunk, i: nat, j: nat, page: nat, b: Bin)
    requires |s.free| == BINS && Counted(s, c, i, j) && page in c.runs && page < c.info.Length
      && c.runs[page] == Small(b)
    ensures Loc(c.number, page) in s.runs && s.runs[Loc(c.number, page)] == Small(b)
    ensures c.info[page] == Srun(b, Tally(s, i, j, Loc(c.number, page)))
  {
    hide Tally;
  }

  lemma TallyStep(s: State, c: Chunk, local: map<nat, Run>, entries: seq<PageInfo>, b: Bin, j: nat, page: nat)
    requires |s.free| == BINS && j < |s.free[b]| && s.free[b][j] in s.slots
    requires c.Valid() && c.runs == local && Matches(c.number, local, s.runs)
      && Tallied(s, c.number, local, entries, b, j)
    requires s.slots[s.free[b][j]].run == Loc(c.number, page) && page in local && local[page] == Small(b)
    requires page < |entries| && c.info[..] == entries[page := Srun(b, (Tally(s, b, j, Loc(c.number, page)) + 1) % 512)]
    ensures Counted(s, c, b, j + 1)
  {
    hide *;
    TalliedStep(s, c.number, local, entries, b, j, page);
    CountedIs(s, c, b, j + 1);
  }

  lemma CountedIs(s: State, c: Chunk, i: nat, j: nat)
    requires |s.free| == BINS && c.Valid() && Matches(c.number, c.runs, s.runs)
      && Tallied(s, c.number, c.runs, c.info[..], i, j)
    ensures Counted(s, c, i, j)
  {}

  lemma TalliedStep(s: State, number: nat, local: map<nat, Run>, entries: seq<PageInfo>, b: Bin, j: nat, page: nat)
    requires |s.free| == BINS && j < |s.free[b]| && s.free[b][j] in s.slots
    requires Matches(number, local, s.runs) && Tallied(s, number, local, entries, b, j)
    requires s.slots[s.free[b][j]].run == Loc(number, page) && page in local && local[page] == Small(b)
      && page < |entries|
    ensures Tallied(s, number, local, entries[page := Srun(b, (Tally(s, b, j, Loc(number, page)) + 1) % 512)], b, j + 1)
  {
    hide Tally;
    var info := entries[page := Srun(b, (Tally(s, b, j, Loc(number, page)) + 1) % 512)];
    forall p | p in local && local[p].Small? && p < |info| && Loc(number, p) in s.runs
      && s.runs[Loc(number, p)] == local[p]
      ensures info[p] == Srun(local[p].bin, Tally(s, b, j + 1, Loc(number, p)))
    {
      TallyNext(s, b, j, Loc(number, p));
    }
  }

  lemma TallySame(s: State, c: Chunk, b: Bin, j: nat)
    requires |s.free| == BINS && j < |s.free[b]| && s.free[b][j] in s.slots
    requires Counted(s, c, b, j) && s.slots[s.free[b][j]].run.chunk != c.number
    ensures Counted(s, c, b, j + 1)
  {
    hide Tally;
    forall p | p in c.runs && c.runs[p].Small? && p < |c.info[..]| && Loc(c.number, p) in s.runs
      && s.runs[Loc(c.number, p)] == c.runs[p]
      ensures c.info[p] == Srun(c.runs[p].bin, Tally(s, b, j + 1, Loc(c.number, p)))
    {
      TallyNext(s, b, j, Loc(c.number, p));
    }
  }

  // No run of class b has been counted as entirely free.
  ghost predicate NoneFull(s: State, b: Bin, j: nat)
    requires |s.free| == BINS
  {
    forall l :: l in s.runs && s.runs[l] == Small(b) && j <= |s.free[b]| ==>
      Count(s.free[b][..j], s.slots, l) < Elements(b)
  }

  lemma NoneFullYet(s: State, b: Bin)
    requires |s.free| == BINS
    ensures NoneFull(s, b, 0)
  {
    FewElements(b);
    assert s.free[b][..0] == [];
    hide Elements;
  }

  lemma NoneFullNext(s: State, b: Bin, j: nat)
    requires |s.free| == BINS && j < |s.free[b]| && s.free[b][j] in s.slots && NoneFull(s, b, j)
    requires var l := s.slots[s.free[b][j]].run;
      l in s.runs && s.runs[l] == Small(b) && Tally(s, b, j, l) + 1 != Elements(b)
    ensures NoneFull(s, b, j + 1)
  {
    FewElements(b);
    hide Elements, Count;
    forall l | l in s.runs && s.runs[l] == Small(b) ensures Count(s.free[b][..j + 1], s.slots, l) < Elements(b) {
      CountNext(s.free[b], s.slots, j, l);
    }
  }

  lemma NoneFullEnds(s: State, b: Bin)
    requires Inv(s) && |s.free| == BINS && NoneFull(s, b, |s.free[b]|)
    ensures forall l :: l in Garbage(s) ==> s.runs[l] != Small(b)
  {
    hide Inv, Idle, Tally, Elements;
    assert s.free[b][..|s.free[b]|] == s.free[b];
    forall l | l in Garbage(s) ensures s.runs[l] != Small(b) {
      if s.runs[l] == Small(b) {
        CounterDecides(s, l);
        LastTally(s, l);
        FewElements(b);
      }
    }
  }

  // ---- one slot kept or unlisted ----

  lemma KeptNext(list: seq<Ptr>, slots: map<Ptr, Slot>, gone: set<Loc>, j: nat)
    requires j < |list|
    ensures Kept(list[..j + 1], slots, gone) ==
            Kept(list[..j], slots, gone) + if list[j] in slots && slots[list[j]].run in gone then [] else [list[j]]
  {
    assert list[..j + 1][..j] == list[..j];
  }

  lemma KeptNone(list: seq<Ptr>, slots: map<Ptr, Slot>, gone: set<Loc>)
    ensures Kept(list[..0], slots, gone) == []
    ensures Kept(list[..|list|], slots, gone) == Kept(list, slots, gone)
  {
    assert list[..|list|] == list;
  }

  // A list without garbage stays as it is.
  lemma {:induction false} KeptWhole(list: seq<Ptr>, slots: map<Ptr, Slot>, gone: set<Loc>)
    requires forall p :: p in list && p in slots ==> slots[p].run !in gone
    ensures Kept(list, slots, gone) == list
  {
    if list != [] {
      assert list == list[..|list| - 1] + [list[|list| - 1]];
      KeptWhole(list[..|list| - 1], slots, gone);
    }
  }

  lemma NothingToUnlist(s: State, b: Bin)
    requires Inv(s) && forall l :: l in Garbage(s) ==> s.runs[l] != Small(b)
    ensures |s.free| == BINS && Kept(s.free[b], s.slots, Garbage(s)) == s.free[b]
  {
    FreeDistinct(s, b);
    SlotsGood(s);
    hide Inv, Garbage, BinSize, Elements;
    KeptWhole(s.free[b], s.slots, Garbage(s));
  }

  // ---- one chunk swept ----

  lemma SweepingAre(s0: State, s: State, ring: seq<Chunk>, cached: seq<Chunk>, i: nat)
    requires Sweeping(s0, s, ring, cached, i)
    ensures Inv(s0) && |s0.free| == BINS && Inv(s) && s.runs == s0.runs - Garbage(s0) && i <= |ring|
    ensures Numbers(ring) == s.ring && Numbers(cached) == s.cached && Unshared(ring + cached)
    ensures |s.ring| == |ring| && ring != [] && forall k :: 0 <= k < |ring| ==> s.ring[k] == ring[k].number
    ensures forall c :: c in ring && c in ring[..i] ==> InUse(c, s.runs)
    ensures forall c :: c in ring && c in ring[i..] ==> Counted(s0, c, BINS, 0)
    ensures forall c :: c in cached ==> Clean(c)
  {
    NonEmpty(s);
    hide Inv, Unshared, Counted, InUse, Clean, Garbage;
  }

  lemma NonEmpty(s: State)
    requires Inv(s)
    ensures s.ring != []
  {}

  lemma SweepingIs(s0: State, s: State, ring: seq<Chunk>, cached: seq<Chunk>, i: nat)
    requires Inv(s0) && |s0.free| == BINS && Inv(s) && s.runs == s0.runs - Garbage(s0) && i <= |ring|
    requires Numbers(ring) == s.ring && Numbers(cached) == s.cached && Unshared(ring + cached)
    requires forall c :: c in ring && c in ring[..i] ==> InUse(c, s.runs)
    requires forall c :: c in ring && c in ring[i..] ==> Counted(s0, c, BINS, 0)
    requires forall c :: c in cached ==> Clean(c)
    ensures Sweeping(s0, s, ring, cached, i)
  {
    hide Inv, Unshared, Counted, InUse, Clean, Numbers, Garbage;
  }

  lemma SweepStart(s: State, ring: seq<Chunk>, cached: seq<Chunk>)
    requires Counting(s, ring, cached, BINS, 0)
    ensures Sweeping(s, Collect(s, Garbage(s)), ring, cached, 0)
    ensures Collect(s, Garbage(s)).live == s.live
  {
    hide *;
    CountingAre(s, ring, cached, BINS, 0);
    GarbageIdle(s);
    CollectInv(s, Garbage(s));
    CollectParts(s);
    assert ring[..0] == [];
    SweepingIs(s, Collect(s, Garbage(s)), ring, cached, 0);
  }

  lemma GarbageIdle(s: State)
    ensures forall l :: l in Garbage(s) ==> Idle(s, l)
    ensures Garbage(s) <= s.runs.Keys
  {}

  lemma CollectParts(s: State)
    requires |s.free| == BINS
    ensures Collect(s, Garbage(s)).runs == s.runs - Garbage(s)
    ensures Collect(s, Garbage(s)).ring == s.ring && Collect(s, Garbage(s)).cached == s.cached
      && Collect(s, Garbage(s)).huge == s.huge
    ensures Collect(s, Garbage(s)).live == s.live
  {}

  // The counters mark the garbage of a chunk.
  lemma MarkedAre(s: State, c: Chunk)
    requires Inv(s) && |s.free| == BINS && Counted(s, c, BINS, 0)
    ensures forall p :: p in Marked(c.runs, c.info[..]) <==> p in c.runs && Loc(c.number, p) in Garbage(s)
  {
    CountedAre(s, c, BINS, 0);
    forall p ensures p in Marked(c.runs, c.info[..]) <==> p in c.runs && Loc(c.number, p) in Garbage(s) {
      hide *;
      MarkedIs(s, c, p);
    }
  }

  lemma MarkedIs(s: State, c: Chunk, p: nat)
    requires Inv(s) && |s.free| == BINS && Counted(s, c, BINS, 0)
    ensures p in Marked(c.runs, c.info[..]) <==> p in c.runs && Loc(c.number, p) in Garbage(s)
  {
    hide *;
    CountedAre(s, c, BINS, 0);
    IsMarked(c, p);
    RunInTable(c, s.runs, p);
    if p in c.runs && c.runs[p].Small? {
      TallyOf(s, c, BINS, 0, p, c.runs[p].bin);
      CounterDecides(s, Loc(c.number, p));
    } else {
      LargeIsKept(s, Loc(c.number, p));
    }
  }

  lemma IsMarked(c: Chunk, p: nat)
    requires c.Valid()
    ensures p in c.runs ==> p < c.info.Length
    ensures p in Marked(c.runs, c.info[..]) <==>
      p in c.runs && p < c.info.Length && c.runs[p].Small? && c.info[p] == Srun(c.runs[p].bin, Elements(c.runs[p].bin))
  {
    if p in c.runs {
      Placed(c);
      RunsApart(c.runs, p);
    }
    hide MapOk, Elements, Length;
  }

  lemma RunInTable(c: Chunk, runs: map<Loc, Run>, p: nat)
    requires Matches(c.number, c.runs, runs)
    ensures p in c.runs <==> Loc(c.number, p) in runs
    ensures p in c.runs ==> runs[Loc(c.number, p)] == c.runs[p]
  {}

  lemma LargeIsKept(s: State, l: Loc)
    requires l !in s.runs || s.runs[l].Large?
    ensures l !in Garbage(s)
  {}

  lemma MatchesSwept(s: State, number: nat, local: map<nat, Run>, marked: set<nat>)
    requires Matches(number, local, s.runs)
    requires forall p :: p in marked <==> p in local && Loc(number, p) in Garbage(s)
    ensures Matches(number, local - marked, s.runs - Garbage(s))
    ensures marked == {} <==> forall l :: l in Garbage(s) ==> l.chunk != number
  {
    GarbageIdle(s);
    hide Garbage, Idle;
    if marked != {} { var p :| p in marked; assert Loc(number, p).chunk == number; }
    if l :| l in Garbage(s) && l.chunk == number { assert Loc(number, l.page) == l; assert l.page in marked; }
  }

  lemma SweepApart(s0: State, s: State, ring: seq<Chunk>, cached: seq<Chunk>, i: nat)
    requires Sweeping(s0, s, ring, cached, i) && i < |ring|
    ensures ring[i] in ring && ring[i] in ring[i..] && PAGES == 512
    ensures forall d: Chunk :: d in ring[i + 1..] ==> d in ring[i..] && d != ring[i]
    ensures forall d: Chunk :: d in ring && d != ring[i] ==>
      {d as object, d.freeMap, d.info} !! {ring[i] as object, ring[i].freeMap, ring[i].info}
    ensures forall d: Chunk :: d in cached ==>
      {d as object, d.freeMap, d.info} !! {ring[i] as object, ring[i].freeMap, ring[i].info}
  {
    hide *;
    SweepingAre(s0, s, ring, cached, i);
    Later(ring, i);
    var c := ring[i];
    CountedAre(s0, c, BINS, 0);
    forall d | d in ring[i + 1..] ensures d in ring[i..] && d != c { Later(ring, i); LaterNumber(s, ring, i, d); }
    NumbersHas(ring, c);
    forall d | d in cached ensures d != c { NumbersHas(cached, d); NotBoth(s, c.number, d.number); }
    forall d: Chunk | d in ring + cached && d != c
      ensures {d as object, d.freeMap, d.info} !! {c as object, c.freeMap, c.info} {
      if d in cached {
        CleanParts(d);
      } else if d in ring[..i] {
        UseParts(d, s.runs);
      } else {
        Split(ring, i, d);
        CountedAre(s0, d, BINS, 0);
      }
      Footprints(ring + cached, c, d);
    }
  }

  lemma Split<T>(s: seq<T>, i: nat, x: T)
    requires i <= |s| && x in s
    ensures x in s[..i] || x in s[i..]
  {}

  lemma Later<T>(s: seq<T>, i: nat)
    requires i < |s|
    ensures s[i] in s && s[i] in s[i..] && forall x :: x in s[i + 1..] ==> x in s[i..]
  {
    assert s[i..] == [s[i]] + s[i + 1..];
  }

  lemma LaterNumber(s: State, ring: seq<Chunk>, i: nat, d: Chunk)
    requires Inv(s) && Numbers(ring) == s.ring && i < |ring| && d in ring[i + 1..]
    ensures d != ring[i]
  {
    var k :| i + 1 <= k < |ring| && ring[k] == d;
    assert s.ring[i] == ring[i].number && s.ring[k] == d.number;
    assert Distinct(s.ring);
  }

  lemma InUseIs(c: Chunk, runs: map<Loc, Run>)
    requires c.Valid() && Matches(c.number, c.runs, runs) && Quiet(c.runs, c.info[..])
    ensures InUse(c, runs)
  {}

  // An emptied chunk leaves the ring.
  lemma SweepDropped(s0: State, s: State, ring: seq<Chunk>, cached: seq<Chunk>, i: nat, cached': seq<Chunk>)
    requires Sweeping(s0, s, ring, cached, i + 1) && 0 < i < |ring| && ring[i].runs == map[]
    requires Retired(cached, cached', ring[i])
    ensures Sweeping(s0, s.(ring := Numbers(Without(ring, i)), cached := Numbers(cached')), Without(ring, i), cached',
      i)
    ensures Objects(Without(ring, i)) + Objects(cached') <= Objects(ring) + Objects(cached)
  {
    hide *;
    var c, ring' := ring[i], Without(ring, i);
    SweepingAre(s0, s, ring, cached, i + 1);
    assert c in ring[..i + 1];
    DroppedState(s, c, ring, cached, i, cached');
    WithoutParts(ring, i);
    var s' := s.(ring := Numbers(ring'), cached := Numbers(cached'));
    SweepingIs(s0, s', ring', cached', i);
  }

  lemma WithoutParts<T>(s: seq<T>, i: nat)
    requires i < |s|
    ensures Without(s, i)[..i] == s[..i] && Without(s, i)[i..] == s[i + 1..]
    ensures forall x :: x in s[..i] ==> x in s[..i + 1]
    ensures forall x :: x in Without(s, i) ==> x in s
  {}

  lemma NumbersTail(s0: State, s: State, ring: seq<Chunk>, cached: seq<Chunk>, i: nat)
    requires Sweeping(s0, s, ring, cached, i + 1) && i < |ring|
    ensures i < |s.ring| && i <= |Numbers(Without(ring, i))| && Numbers(Without(ring, i))[i..] == s.ring[i + 1..]
  {
    hide Sweeping, Inv, Numbers, Without;
    SweepingAre(s0, s, ring, cached, i + 1);
    WithoutTail(ring, i);
  }

  lemma WithoutTail(ring: seq<Chunk>, i: nat)
    requires i < |ring|
    ensures i <= |Numbers(Without(ring, i))| && i < |Numbers(ring)|
    ensures Numbers(Without(ring, i))[i..] == Numbers(ring)[i + 1..]
  {}

  // ---- where garbage is still to come ----

  ghost predicate Ahead(gone: set<Loc>, chunks: seq<nat>)
  {
    forall l :: l in gone ==> l.chunk in chunks
  }

  lemma AheadStarts(s: State)
    requires Inv(s)
    ensures Ahead(Garbage(s), s.ring[0..])
    ensures Ahead(Garbage(s), []) <==> Garbage(s) == {}
  {
    GarbageIdle(s);
    hide ChunksOk, SlotsOk, FreeOk, LiveOk, HugeOk, RegionsOk, Garbage, Idle, Length;
    assert s.ring[0..] == s.ring;
  }

  lemma AheadStep(gone: set<Loc>, chunks: seq<nat>, i: nat)
    requires Distinct(chunks) && i < |chunks|
    ensures Ahead(gone, chunks[i + 1..]) <==> Ahead(gone, chunks[i..]) && forall l :: l in gone ==> l.chunk != chunks[i]
  {
    assert chunks[i..] == [chunks[i]] + chunks[i + 1..];
  }

  lemma AheadNext(s0: State, s: State, i: nat)
    requires Inv(s) && i < |s.ring|
    ensures Ahead(Garbage(s0), s.ring[i + 1..]) <==>
            Ahead(Garbage(s0), s.ring[i..]) && forall l :: l in Garbage(s0) ==> l.chunk != s.ring[i]
  {
    hide RunsOk, SlotsOk, FreeOk, LiveOk, HugeOk, RegionsOk, Garbage, Ahead;
    AheadStep(Garbage(s0), s.ring, i);
  }

  // ---- how many pages a collection frees ----

  ghost predicate InGarbage(s: State, x: Loc)
  {
    exists p: nat :: p <= x.page && Loc(x.chunk, p) in s.runs && Loc(x.chunk, p) in Garbage(s) &&
      x.page < p + Length(s.runs[Loc(x.chunk, p)])
  }

  // The garbage pages of some chunks, as chunk and page.
  ghost function GarbageIn(s: State, chunks: seq<nat>): set<Loc>
  {
    set c: nat, p: nat | c in chunks && 0 <= p < PAGES && InGarbage(s, Loc(c, p)) :: Loc(c, p)
  }

  // The pages of all runs that are garbage.
  ghost function GarbagePages(s: State): set<Loc> { GarbageIn(s, s.ring) }

  lemma GarbageSplits(s: State, chunks: seq<nat>, i: nat)
    requires Distinct(chunks) && i < |chunks|
    ensures |GarbageIn(s, chunks[i..])| == |GarbageIn(s, [chunks[i]])| + |GarbageIn(s, chunks[i + 1..])|
  {
    hide InGarbage;
    var a, b := GarbageIn(s, [chunks[i]]), GarbageIn(s, chunks[i + 1..]);
    assert chunks[i..] == [chunks[i]] + chunks[i + 1..];
    assert GarbageIn(s, chunks[i..]) == a + b;
    assert a !! b;
    SizesAdd(a, b);
  }

  lemma SizesAdd(a: set<Loc>, b: set<Loc>)
    requires a !! b
    ensures |a + b| == |a| + |b|
  {}

  lemma GarbageNext(s0: State, s: State, i: nat)
    requires Inv(s) && i < |s.ring|
    ensures |GarbageIn(s0, s.ring[i..])| == |GarbageIn(s0, [s.ring[i]])| + |GarbageIn(s0, s.ring[i + 1..])|
  {
    hide RunsOk, SlotsOk, FreeOk, LiveOk, HugeOk, RegionsOk, GarbageIn;
    GarbageSplits(s0, s.ring, i);
  }

  lemma GarbageEnds(s: State)
    ensures GarbageIn(s, []) == {} && GarbageIn(s, s.ring[0..]) == GarbagePages(s)
  {
    assert s.ring[0..] == s.ring;
  }

  function InChunk(number: nat, ps: set<nat>): set<Loc>
  {
    set p | p in ps :: Loc(number, p)
  }

  lemma {:induction false} InChunkSize(number: nat, ps: set<nat>)
    ensures |InChunk(number, ps)| == |ps|
  {
    if ps == {} {
      assert InChunk(number, ps) == {};
    } else {
      var p :| p in ps;
      InChunkSize(number, ps - {p});
      assert InChunk(number, ps) == InChunk(number, ps - {p}) + {Loc(number, p)};
    }
  }

  // The pages a sweep of chunk c frees.
  lemma GarbageOfChunk(s: State, c: Chunk, marked: set<nat>)
    requires Inv(s) && Matches(c.number, c.runs, s.runs)
    requires forall p :: p in marked <==> p in c.runs && Loc(c.number, p) in Garbage(s)
    ensures |GarbageIn(s, [c.number])| == |PagesOf(c.runs, marked)|
  {
    hide Inv, Garbage, Length;
    var ps := PagesOf(c.runs, marked);
    forall p: nat | p < PAGES ensures InGarbage(s, Loc(c.number, p)) <==> InRuns(c.runs, marked, p) {
      if InGarbage(s, Loc(c.number, p)) {
        var q: nat :| q <= p && Loc(c.number, q) in s.runs && Loc(c.number, q) in Garbage(s) &&
          p < q + Length(s.runs[Loc(c.number, q)]);
        assert q in c.runs && q in marked;
      }
      if InRuns(c.runs, marked, p) {
        var q :| q in marked && q in c.runs && q <= p < q + Length(c.runs[q]);
        assert Loc(c.number, q) in s.runs;
      }
    }
    assert GarbageIn(s, [c.number]) == InChunk(c.number, ps);
    InChunkSize(c.number, ps);
  }

  // Block p lies in the main chunk.
  ghost predicate HeldBy(s: State, p: Ptr)
  {
    p in s.live && s.live[p].kind != HugeBlock && s.ring != [] && p.chunk == s.ring[0]
  }

  // A block that stays allocated: it lies in the main chunk and holds no list entry of a huge block.
  ghost predicate Pins(s: State, p: Ptr)
  {
    HeldBy(s, p) && forall i :: 0 <= i < |s.huge| ==> s.huge[i].node != p
  }

  lemma HeldStill(s: State, s': State, p: Ptr)
    requires HeldBy(s, p) && s'.live == s.live && s'.ring != [] && s'.ring[0] == s.ring[0]
    ensures HeldBy(s', p)
  {}

  // The main chunk does not become empty while block p lives in it.
  lemma EmptiedChunk(s0: State, s: State, ring: seq<Chunk>, cached: seq<Chunk>, i: nat, p: Ptr)
    requires Sweeping(s0, s, ring, cached, i + 1) && i < |ring| && HeldBy(s, p)
    ensures ring[i].freePages == PAGES - 1 <==> ring[i].runs == map[]
    ensures ring[i].runs == map[] ==> 0 < i
  {
    hide *;
    SweepingAre(s0, s, ring, cached, i + 1);
    assert ring[i] in ring[..i + 1];
    UseParts(ring[i], s.runs);
    EmptyChunk(ring[i]);
    if i == 0 { HeldRun(s, ring[i], ring, p); }
  }

  lemma HeldRun(s: State, c: Chunk, ring: seq<Chunk>, p: Ptr)
    requires Inv(s) && HeldBy(s, p) && Numbers(ring) == s.ring && ring != [] && c == ring[0]
      && Matches(c.number, c.runs, s.runs)
    ensures c.runs != map[]
  {
    InItsRun(s, p);
    hide Inv, RunOf;
    assert s.ring[0] == c.number;
  }

  // ---- the whole collection ----

  lemma StartCounting(s: State, ring: seq<Chunk>, cached: seq<Chunk>, free: seq<seq<Ptr>>, huge: seq<Huge>)
    requires ShapeOf(s, ring, cached, free, huge)
    ensures Counting(s, ring, cached, 0, 0) && BINS == 30
  {
    hide *;
    ShapeParts(s, ring, cached, free, huge);
    BinsOf(s);
    forall c | c in ring ensures Counted(s, c, 0, 0) { NothingCounted(s, c); }
    CountingIs(s, ring, cached, 0, 0);
  }

  lemma FreeCollected(s: State, free: seq<seq<Ptr>>)
    requires |s.free| == |free| == BINS && forall b :: 0 <= b < BINS ==> free[b] == Kept(s.free[b], s.slots, Garbage(s))
    ensures free == Collect(s, Garbage(s)).free
  {}

  lemma GarbageSame(before: State, s: State)
    requires |before.free| == BINS
    requires s == Collect(before, Garbage(before)).(ring := s.ring, cached := s.cached)
    ensures Garbage(s) == Garbage(Collect(before, Garbage(before)))
  {}

  lemma SweepDone(s0: State, s: State, ring: seq<Chunk>, cached: seq<Chunk>, free: seq<seq<Ptr>>, huge: seq<Huge>)
    requires Sweeping(s0, s, ring, cached, |ring|) && free == s.free && huge == s.huge
    ensures ShapeOf(s, ring, cached, free, huge)
  {
    SweepingAre(s0, s, ring, cached, |ring|);
    hide Inv, InUse, Clean, Unshared, Numbers, Counted, Sweeping;
    assert ring[..|ring|] == ring;
  }

  lemma FewerRuns(runs: map<Loc, Run>, gone: set<Loc>)
    requires gone <= runs.Keys && gone != {}
    ensures |runs - gone| < |runs|
  {
    assert (runs - gone).Keys == runs.Keys - gone;
    assert runs.Keys == (runs.Keys - gone) + gone;
  }

  // ---- which chunks a collection empties ----

  // Chunk n of the ring has no runs but garbage.
  ghost predicate Spent(s: State, n: nat)
  {
    forall l :: l in s.runs && l.chunk == n ==> l in Garbage(s)
  }

  // A collection empties a chunk behind the main chunk.
  ghost predicate Reclaimable(s: State)
  {
    exists i :: 1 <= i < |s.ring| && Spent(s, s.ring[i])
  }

  // Every chunk behind the main chunk holds a run.
  ghost predicate Busy(s: State)
  {
    forall i :: 1 <= i < |s.ring| ==> HoldsRun(s.runs, s.ring[i])
  }

  ghost predicate HoldsRun(runs: map<Loc, Run>, n: nat)
  {
    exists l :: l in runs && l.chunk == n
  }

  ghost function Survivors(s: State, chunks: seq<nat>): seq<nat>
  {
    if chunks == [] then []
    else
      var n := chunks[|chunks| - 1];
      Survivors(s, chunks[..|chunks| - 1]) + if Spent(s, n) then [] else [n]
  }

  // The ring after a collection: the main chunk, and of the others those that are not spent, in the same order.
  ghost function SweptRing(s: State): seq<nat>
    requires s.ring != []
  {
    [s.ring[0]] + Survivors(s, s.ring[1..])
  }

  lemma {:induction false} SurvivorsAre(s: State, chunks: seq<nat>)
    ensures |Survivors(s, chunks)| <= |chunks|
    ensures (forall n :: n in chunks ==> !Spent(s, n)) ==> Survivors(s, chunks) == chunks
    ensures |Survivors(s, chunks)| == |chunks| ==> forall n :: n in chunks ==> !Spent(s, n)
    ensures forall n :: n in Survivors(s, chunks) ==> n in chunks && !Spent(s, n)
  {
    hide Spent;
    if chunks != [] {
      var rest := chunks[..|chunks| - 1];
      SurvivorsAre(s, rest);
      assert chunks == rest + [chunks[|chunks| - 1]];
    }
  }

  lemma SweptShorter(s: State)
    requires s.ring != []
    ensures |SweptRing(s)| <= |s.ring|
    ensures |SweptRing(s)| < |s.ring| <==> Reclaimable(s)
    ensures !Reclaimable(s) ==> SweptRing(s) == s.ring
    ensures forall n :: n in SweptRing(s)[1..] ==> n in s.ring[1..] && !Spent(s, n)
  {
    hide Spent, Survivors;
    SurvivorsAre(s, s.ring[1..]);
    assert SweptRing(s)[1..] == Survivors(s, s.ring[1..]);
    if Reclaimable(s) {
      var i :| 1 <= i < |s.ring| && Spent(s, s.ring[i]);
      assert s.ring[1..][i - 1] == s.ring[i];
    } else {
      forall n | n in s.ring[1..] ensures !Spent(s, n) {
        var j :| 0 <= j < |s.ring[1..]| && s.ring[1..][j] == n;
        assert s.ring[j + 1] == n;
      }
    }
  }

  // How many chunks a collection empties.
  ghost function Emptied(s: State): int
  {
    if s.ring == [] then 0 else |s.ring| - |SweptRing(s)|
  }

  lemma EmptiedIs(s: State)
    requires s.ring != []
    ensures Emptied(s) == |s.ring| - |SweptRing(s)| >= 0
    ensures Emptied(s) >= 1 <==> Reclaimable(s)
  {
    hide SweptRing, Reclaimable;
    SweptShorter(s);
  }

  // The sweep has come to index i of the ring it leaves.
  ghost predicate SweptTo(s0: State, chunks: seq<nat>, i: nat)
  {
    && i <= |chunks| <= |s0.ring|
    && var k := |s0.ring| - |chunks| + i;
      && chunks[i..] == s0.ring[k..]
      && (if i == 0 then k == 0 else chunks[..i] == [s0.ring[0]] + Survivors(s0, s0.ring[1..k]))
  }

  lemma SweptNext(s0: State, chunks: seq<nat>, i: nat)
    requires SweptTo(s0, chunks, i) && i < |chunks| && (i == 0 || !Spent(s0, chunks[i]))
    ensures SweptTo(s0, chunks, i + 1)
  {
    hide Spent;
    var k := |s0.ring| - |chunks| + i;
    assert chunks[i..][0] == s0.ring[k..][0];
    assert chunks[i + 1..] == chunks[i..][1..] == s0.ring[k + 1..];
    assert chunks[..i + 1] == chunks[..i] + [chunks[i]];
    if i == 0 {
      assert s0.ring[1..1] == [];
    } else {
      assert s0.ring[1..k + 1][..k - 1] == s0.ring[1..k];
    }
  }

  lemma SweptPast(s0: State, chunks: seq<nat>, i: nat)
    requires SweptTo(s0, chunks, i) && 0 < i < |chunks| && Spent(s0, chunks[i])
    ensures SweptTo(s0, Without(chunks, i), i)
  {
    hide *;
    SweptToIs(s0, chunks, i);
    var k := |s0.ring| - |chunks| + i;
    WithoutParts(chunks, i);
    NextOf(chunks, s0.ring, i, k);
    SurvivorsSkip(s0, k);
    SweptToIs(s0, Without(chunks, i), i);
  }

  lemma SweptToIs(s0: State, chunks: seq<nat>, i: nat)
    requires 0 < i
    ensures SweptTo(s0, chunks, i) <==>
      && i <= |chunks| <= |s0.ring|
      && var k := |s0.ring| - |chunks| + i;
        chunks[i..] == s0.ring[k..] && chunks[..i] == [s0.ring[0]] + Survivors(s0, s0.ring[1..k])
  {
    hide Survivors;
  }

  lemma NextOf(chunks: seq<nat>, ring: seq<nat>, i: nat, k: nat)
    requires i < |chunks| && k < |ring| && chunks[i..] == ring[k..]
    ensures chunks[i] == ring[k] && chunks[i + 1..] == ring[k + 1..]
  {
    assert chunks[i] == chunks[i..][0] == ring[k..][0];
    assert chunks[i + 1..] == chunks[i..][1..] && ring[k + 1..] == ring[k..][1..];
  }

  lemma SurvivorsSkip(s0: State, k: nat)
    requires 0 < k < |s0.ring| && Spent(s0, s0.ring[k])
    ensures Survivors(s0, s0.ring[1..k + 1]) == Survivors(s0, s0.ring[1..k])
  {
    hide Spent;
    assert s0.ring[1..k + 1][..k - 1] == s0.ring[1..k];
  }

  lemma SweptAll(s0: State, chunks: seq<nat>)
    requires s0.ring != []
    ensures SweptTo(s0, s0.ring, 0)
    ensures SweptTo(s0, chunks, |chunks|) ==> chunks == SweptRing(s0)
  {
    assert s0.ring[1..|s0.ring|] == s0.ring[1..];
    if SweptTo(s0, chunks, |chunks|) { assert chunks[..|chunks|] == chunks; }
  }

  // What a collection, or none, makes of a heap. Whether the chunks that leave the ring stay in the cache depends on
  // the average number of chunks.
  ghost predicate MaybeCollected(s: State, s': State)
  {
    && |s.free| == BINS && s.ring != []
    && (s' == s ||
        (Garbage(s') == {} && s' == Collect(s, Garbage(s)).(ring := SweptRing(s), cached := s'.cached) &&
         (!Reclaimable(s) ==> s'.cached == s.cached)))
  }

  // A chunk that stays has kept a run.
  lemma SweptBusy(s: State, s': State)
    requires s.ring != [] && s'.runs == s.runs - Garbage(s) && s'.ring == SweptRing(s)
    ensures Busy(s')
  {
    hide Garbage, Survivors, SweptRing, Reclaimable;
    SweptShorter(s);
    SweptHead(s);
    forall i | 1 <= i < |s'.ring| ensures HoldsRun(s'.runs, s'.ring[i]) {
      assert SweptRing(s)[1..][i - 1] == s'.ring[i];
      assert !Spent(s, s'.ring[i]);
      var l :| l in s.runs && l.chunk == s'.ring[i] && l !in Garbage(s);
      assert l in s'.runs;
    }
  }

  lemma SweptHead(s: State)
    requires s.ring != []
    ensures SweptRing(s) != [] && SweptRing(s)[0] == s.ring[0]
  {}

  lemma NothingSpent(s: State)
    requires Busy(s) && Garbage(s) == {}
    ensures !Reclaimable(s)
  {
    hide Garbage;
    forall i | 1 <= i < |s.ring| ensures !Spent(s, s.ring[i]) {
      assert HoldsRun(s.runs, s.ring[i]);
    }
  }

  lemma MaybeBusy(s: State, s': State)
    requires MaybeCollected(s, s')
    ensures s' == s || Busy(s')
    ensures s'.ring != [] && s'.ring[0] == s.ring[0]
    ensures Busy(s) ==> Busy(s')
  {
    hide Garbage, Collect, SweptRing, Busy, Reclaimable;
    SweptHead(s);
    if s' != s {
      CollectParts(s);
      SweptBusy(s, s');
    }
  }

  lemma MaybeSame(s: State)
    requires |s.free| == BINS && s.ring != []
    ensures MaybeCollected(s, s)
  {
    hide Garbage, Collect, SweptRing, Reclaimable;
  }

  lemma {:induction false} KeptAll(list: seq<Ptr>, slots: map<Ptr, Slot>)
    ensures Kept(list, slots, {}) == list
  {
    if list != [] { KeptAll(list[..|list| - 1], slots); }
  }

  lemma CollectNothing(s: State)
    requires |s.free| == BINS
    ensures Collect(s, {}) == s
  {
    hide Kept;
    forall b | 0 <= b < BINS ensures Collect(s, {}).free[b] == s.free[b] {
      KeptAll(s.free[b], s.slots);
    }
    assert Collect(s, {}).free == s.free && Collect(s, {}).slots == s.slots && Collect(s, {}).runs == s.runs;
  }

  // Where there is nothing to collect, nothing changes.
  lemma MaybeNothing(s: State, s': State)
    requires MaybeCollected(s, s') && Garbage(s) == {} && Busy(s)
    ensures s' == s
  {
    hide Garbage, Collect, SweptRing, Busy, Reclaimable;
    CollectNothing(s);
    NothingSpent(s);
    SweptShorter(s);
  }

  lemma MaybeOn(a: State, b: State, c: State)
    requires MaybeCollected(a, b) && MaybeCollected(b, c)
    ensures MaybeCollected(a, c)
    ensures b != a ==> c == b
  {
    hide Garbage, Collect, SweptRing, Busy, Reclaimable;
    MaybeBusy(a, b);
    if b != a && c != b {
      CollectNothing(b);
      NothingSpent(b);
      SweptShorter(b);
    }
  }

  // Every chunk behind the main chunk holds a run, perhaps but for chunk n.
  ghost predicate BusyBut(s: State, n: nat)
  {
    forall i :: 1 <= i < |s.ring| && s.ring[i] != n ==> HoldsRun(s.runs, s.ring[i])
  }

  lemma BusyButAny(s: State, n: nat)
    requires Busy(s)
    ensures BusyBut(s, n)
  {}

  lemma BusyEntered(s: State, s': State, n: nat)
    requires s'.runs == s.runs && s'.ring == s.ring + [n] && s.ring != []
    ensures Busy(s) ==> BusyBut(s', n)
  {}

  lemma BusyMoved(s: State, s': State, n: nat)
    requires s'.runs == s.runs && s.ring != [] && s'.ring != [] && s'.ring[0] == s.ring[0]
    requires forall x :: x in s'.ring[1..] ==> x in s.ring[1..]
    ensures BusyBut(s, n) ==> BusyBut(s', n)
  {
    if BusyBut(s, n) {
      forall i | 1 <= i < |s'.ring| && s'.ring[i] != n ensures HoldsRun(s'.runs, s'.ring[i]) {
        assert s'.ring[1..][i - 1] == s'.ring[i];
        assert s'.ring[i] in s'.ring[1..];
        var j :| 0 <= j < |s.ring[1..]| && s.ring[1..][j] == s'.ring[i];
        assert s.ring[j + 1] == s'.ring[i];
      }
    }
  }

  lemma BusyPut(s: State, s': State, l: Loc)
    requires s'.ring == s.ring && l in s'.runs && forall m :: m in s.runs ==> m in s'.runs
    ensures BusyBut(s, l.chunk) ==> Busy(s')
  {
    if BusyBut(s, l.chunk) {
      forall i | 1 <= i < |s'.ring| ensures HoldsRun(s'.runs, s'.ring[i]) {
        if s'.ring[i] != l.chunk { assert HoldsRun(s.runs, s.ring[i]); }
      }
    }
  }

  lemma BusySame(s: State, s': State)
    requires s'.ring == s.ring && s'.runs.Keys == s.runs.Keys
    ensures Busy(s) <==> Busy(s')
  {
    assert forall n :: HoldsRun(s.runs, n) <==> HoldsRun(s'.runs, n);
  }

  // A run is gone; its chunk has another, or leaves the ring.
  lemma BusyLess(s: State, s': State, l: Loc)
    requires s'.ring == s.ring && s'.runs == s.runs - {l} && HoldsRun(s'.runs, l.chunk)
    ensures Busy(s) ==> Busy(s')
  {
    if Busy(s) {
      forall i | 1 <= i < |s'.ring| ensures HoldsRun(s'.runs, s'.ring[i]) { StillRun(s, s', l, s.ring[i]); }
    }
  }

  lemma StillRun(s: State, s': State, l: Loc, n: nat)
    requires s'.runs == s.runs - {l}
    ensures HoldsRun(s.runs, n) && n != l.chunk ==> HoldsRun(s'.runs, n)
  {
    if HoldsRun(s.runs, n) && n != l.chunk {
      var m :| m in s.runs && m.chunk == n;
      assert m in s'.runs;
    }
  }

  lemma BusyWithout(s: State, s': State, l: Loc, i: nat)
    requires Distinct(s.ring) && 0 < i < |s.ring| && s.ring[i] == l.chunk
    requires s'.ring == Without(s.ring, i) && s'.runs == s.runs - {l}
    ensures Busy(s) ==> Busy(s')
    ensures l.chunk !in s'.ring
  {
    forall j | 0 <= j < |s'.ring| ensures s'.ring[j] == s.ring[if j < i then j else j + 1] && s'.ring[j] != l.chunk {}
    if Busy(s) {
      forall j | 1 <= j < |s'.ring| ensures HoldsRun(s'.runs, s'.ring[j]) {
        assert HoldsRun(s.runs, s.ring[if j < i then j else j + 1]);
        StillRun(s, s', l, s'.ring[j]);
      }
    }
  }

  lemma BusyAlone(s: State)
    requires |s.ring| == 1
    ensures Busy(s)
  {}
}
