/** How the chunk objects, lists and counters of a heap implement a state of module HeapState. */
module HeapShape {
  import opened Sizes
  import opened Bitset
  import opened Chunks
  import opened HeapState
  import Spans

  function Numbers(cs: seq<Chunk>): seq<nat>
  {
    seq(|cs|, i requires 0 <= i < |cs| => cs[i].number)
  }

  ghost function Objects(cs: seq<Chunk>): set<object>
  {
    (set c: Chunk | c in cs :: c as object) + (set c: Chunk | c in cs :: c.freeMap as object)
      + (set c: Chunk | c in cs :: c.info as object)
  }

  // No two chunks share a buffer.
  ghost predicate Unshared(cs: seq<Chunk>)
  {
    forall c, d :: c in cs && d in cs && c != d ==> c.freeMap != d.freeMap && c.info != d.info && c.number != d.number
  }

  // A chunk's own runs are the heap's runs in that chunk.
  ghost predicate Matches(number: nat, local: map<nat, Run>, runs: map<Loc, Run>)
  {
    && (forall p :: p in local ==> Loc(number, p) in runs && runs[Loc(number, p)] == local[p])
    && (forall l :: l in runs && l.chunk == number ==> l.page in local)
  }

  ghost predicate InUse(c: Chunk, runs: map<Loc, Run>)
    reads c, c.freeMap, c.info
  {
    c.Valid() && Matches(c.number, c.runs, runs) && Quiet(c.runs, c.info[..])
  }

  // A chunk in the cache: nothing allocated behind the header page.
  ghost predicate Clean(c: Chunk)
    reads c.freeMap
  {
    c.freeMap.Length == 8 && c.info.Length == PAGES && Members(c.freeMap[..]) <= {0}
  }

  // The fields against the state they implement.
  ghost predicate ShapeOf(st: State, ring: seq<Chunk>, cached: seq<Chunk>, free: seq<seq<Ptr>>, huge: seq<Huge>)
    reads Objects(ring), Objects(cached)
  {
    && Inv(st)
    && Numbers(ring) == st.ring && Numbers(cached) == st.cached
    && free == st.free && huge == st.huge
    && (forall c :: c in ring ==> InUse(c, st.runs))
    && (forall c :: c in cached ==> Clean(c))
    && Unshared(ring + cached)
  }

  // The run tables agree outside one chunk.
  ghost predicate Elsewhere(number: nat, a: map<Loc, Run>, b: map<Loc, Run>)
  {
    forall l: Loc :: l.chunk != number ==> (l in a <==> l in b) && (l in a ==> a[l] == b[l])
  }

  lemma FewerObjects(cs: seq<Chunk>, cs': seq<Chunk>)
    requires forall c :: c in cs' ==> c in cs
    ensures Objects(cs') <= Objects(cs)
    ensures Unshared(cs) ==> Unshared(cs')
  {}

  lemma ObjectsJoin(cs: seq<Chunk>, ds: seq<Chunk>)
    ensures Objects(cs + ds) == Objects(cs) + Objects(ds)
  {}

  lemma ObjectsHave(cs: seq<Chunk>, c: Chunk)
    requires c in cs
    ensures {c as object, c.freeMap, c.info} <= Objects(cs)
  {}

  lemma ObjectsOne(c: Chunk)
    ensures Objects([c]) == {c as object, c.freeMap, c.info}
  {}

  lemma EnteredObjects(ring: seq<Chunk>, cached: seq<Chunk>)
    requires cached != []
    ensures Objects(ring + [cached[0]]) + Objects(cached[1..]) == Objects(ring) + Objects(cached)
  {
    ObjectsJoin(ring, [cached[0]]);
    ObjectsJoin([cached[0]], cached[1..]);
    assert [cached[0]] + cached[1..] == cached;
  }

  lemma ChunksIn(cs: seq<Chunk>)
    ensures (set c: Chunk | c in cs :: c as object) <= Objects(cs)
  {}

  lemma InfosIn(cs: seq<Chunk>)
    ensures (set c: Chunk | c in cs :: c.info as object) <= Objects(cs)
  {}

  lemma NumbersWithout(cs: seq<Chunk>, i: nat)
    requires i < |cs|
    ensures Numbers(Without(cs, i)) == Without(Numbers(cs), i)
  {}

  lemma NumbersHas(cs: seq<Chunk>, c: Chunk)
    requires c in cs
    ensures c.number in Numbers(cs)
  {
    var i :| 0 <= i < |cs| && cs[i] == c;
    assert Numbers(cs)[i] == c.number;
  }

  lemma NumbersOf(cs: seq<Chunk>, n: nat) returns (i: nat)
    requires n in Numbers(cs)
    ensures i < |cs| && cs[i].number == n
  {
    i :| 0 <= i < |cs| && Numbers(cs)[i] == n;
  }

  // ---- steps on one chunk ----

  // What a step on chunk c of the ring needs to know.
  lemma Opened(st: State, ring: seq<Chunk>, cached: seq<Chunk>, free: seq<seq<Ptr>>, huge: seq<Huge>, c: Chunk)
    requires ShapeOf(st, ring, cached, free, huge) && c in ring
    ensures Inv(st) && Numbers(ring) == st.ring && Numbers(cached) == st.cached
    ensures free == st.free && |free| == BINS == 30 && huge == st.huge && Unshared(ring + cached)
    ensures InUse(c, st.runs) && c.Valid() && Matches(c.number, c.runs, st.runs) && Quiet(c.runs, c.info[..])
    ensures c.number in st.ring && c.info.Length == PAGES == 512 && PAGE == 4096
    ensures forall d :: d in ring && d != c ==>
      InUse(d, st.runs) && {d as object, d.freeMap, d.info} !! {c as object, c.freeMap, c.info}
    ensures forall d :: d in cached ==> Clean(d) && {d as object, d.freeMap, d.info} !! {c as object, c.freeMap, c.info}
  {
    hide *;
    ShapeParts(st, ring, cached, free, huge);
    BinsOf(st);
    UseParts(c, st.runs);
    NumbersHas(ring, c);
    forall d | d in cached ensures d != c { NumbersHas(cached, d); NotBoth(st, c.number, d.number); }
    forall d: Chunk | d in ring + cached && d != c
      ensures {d as object, d.freeMap, d.info} !! {c as object, c.freeMap, c.info} {
      if d in ring { UseParts(d, st.runs); } else { CleanParts(d); }
      Footprints(ring + cached, c, d);
    }
  }

  lemma ShapeParts(st: State, ring: seq<Chunk>, cached: seq<Chunk>, free: seq<seq<Ptr>>, huge: seq<Huge>)
    requires ShapeOf(st, ring, cached, free, huge)
    ensures Inv(st) && Numbers(ring) == st.ring && Numbers(cached) == st.cached && free == st.free && huge == st.huge
    ensures Unshared(ring + cached)
    ensures forall c :: c in ring ==> InUse(c, st.runs)
    ensures forall c :: c in cached ==> Clean(c)
  {
    hide Inv, Unshared, InUse, Clean, Numbers;
  }

  lemma BinsOf(st: State)
    requires Inv(st)
    ensures |st.free| == BINS == 30
  {}

  lemma UseParts(c: Chunk, runs: map<Loc, Run>)
    requires InUse(c, runs)
    ensures c.Valid() && Matches(c.number, c.runs, runs) && Quiet(c.runs, c.info[..])
    ensures c.info.Length == PAGES == 512 && PAGE == 4096 && c.freeMap.Length == 8
  {
    hide Matches, Quiet;
    Bounds(c);
  }

  lemma CleanParts(c: Chunk)
    requires Clean(c)
    ensures c.freeMap.Length == 8 && c.info.Length == PAGES == 512 && Members(c.freeMap[..]) <= {0}
  {
    hide Members;
  }

  lemma NotBoth(st: State, a: nat, b: nat)
    requires Inv(st) && a in st.ring && b in st.cached
    ensures a != b
  {}

  lemma Footprints(cs: seq<Chunk>, c: Chunk, d: Chunk)
    requires Unshared(cs) && c in cs && d in cs && c != d
    requires c.freeMap.Length == d.freeMap.Length == 8 && c.info.Length == d.info.Length == 512
    ensures d.number != c.number && {d as object, d.freeMap, d.info} !! {c as object, c.freeMap, c.info}
  {
    NoMix(c, d);
    NoMix(d, c);
  }

  lemma NoMix(c: Chunk, d: Chunk)
    requires c.freeMap.Length == d.freeMap.Length == 8 && c.info.Length == d.info.Length == 512
    ensures c as object != d.freeMap as object && c as object != d.info as object
      && c.freeMap as object != d.info as object
  {}

  // What it has to give back.
  lemma Closed(before: State, st: State, ring: seq<Chunk>, cached: seq<Chunk>, c: Chunk)
    requires Inv(st) && Numbers(ring) == st.ring && Numbers(cached) == st.cached && Unshared(ring + cached)
    requires InUse(c, st.runs) && c in ring && Elsewhere(c.number, before.runs, st.runs)
    requires forall d :: d in ring && d != c ==> InUse(d, before.runs)
    requires forall d :: d in cached ==> Clean(d)
    ensures ShapeOf(st, ring, cached, st.free, st.huge)
  {
    hide Inv, Quiet;
    forall d | d in ring ensures InUse(d, st.runs) {
      if d != c { MatchesElsewhere(d.number, d.runs, c.number, before.runs, st.runs); }
    }
  }

  lemma MatchesElsewhere(number: nat, local: map<nat, Run>, other: nat, a: map<Loc, Run>, b: map<Loc, Run>)
    requires Matches(number, local, a) && Elsewhere(other, a, b) && number != other
    ensures Matches(number, local, b)
  {}

  lemma VacantRoom(st: State, c: Chunk, page: nat, count: nat)
    requires Inv(st) && InUse(c, st.runs) && c.number in st.ring && 0 < count
      && Spans.Vacant(Lengths(c.runs), page, count)
    ensures Room(st.ring, st.runs, Loc(c.number, page), count) && page + count <= 512
  {
    hide Inv, Length, Quiet;
    OthersApart(c.runs, page, count);
  }

  // A chunk's run table and entries move together with the heap's run table.
  lemma RunPut(c: Chunk, local: map<nat, Run>, entries: seq<PageInfo>, runs: map<Loc, Run>, page: nat, r: Run)
    requires Matches(c.number, local, runs) && Quiet(local, entries)
    requires c.Valid() && c.runs == local[page := r] && |entries| == c.info.Length && page < |entries|
    requires r.Small? ==> c.info[page] == Srun(r.bin, 0)
    requires forall p :: p in local && p != page && p < |entries| ==> c.info[p] == entries[p]
    ensures InUse(c, runs[Loc(c.number, page) := r])
  {
    MatchesPut(c.number, local, runs, page, r);
    QuietPut(local, entries, page, r, c.info[..]);
    hide Matches, Quiet;
  }

  lemma MatchesPut(number: nat, local: map<nat, Run>, runs: map<Loc, Run>, page: nat, r: Run)
    requires Matches(number, local, runs)
    ensures Matches(number, local[page := r], runs[Loc(number, page) := r])
  {}

  lemma QuietPut(local: map<nat, Run>, entries: seq<PageInfo>, page: nat, r: Run, entries': seq<PageInfo>)
    requires Quiet(local, entries) && |entries'| == |entries| && page < |entries|
    requires r.Small? ==> entries'[page] == Srun(r.bin, 0)
    requires forall p :: p in local && p != page && p < |entries| ==> entries'[p] == entries[p]
    ensures Quiet(local[page := r], entries')
  {}

  lemma RunCut(c: Chunk, local: map<nat, Run>, entries: seq<PageInfo>, runs: map<Loc, Run>, page: nat)
    requires Matches(c.number, local, runs) && Quiet(local, entries)
    requires c.Valid() && c.runs == local - {page} && |entries| == c.info.Length && page < |entries|
    requires c.info[..] == entries[page := Frun]
    ensures InUse(c, runs - {Loc(c.number, page)})
  {
    MatchesCut(c.number, local, runs, page);
    QuietCut(local, entries, page, Frun);
    hide Matches, Quiet;
  }

  lemma MatchesCut(number: nat, local: map<nat, Run>, runs: map<Loc, Run>, page: nat)
    requires Matches(number, local, runs)
    ensures Matches(number, local - {page}, runs - {Loc(number, page)})
  {}

  lemma QuietCut(local: map<nat, Run>, entries: seq<PageInfo>, page: nat, entry: PageInfo)
    requires Quiet(local, entries) && page < |entries|
    ensures Quiet(local - {page}, entries[page := entry])
  {}

  lemma AddedParts(s: State, l: Loc, n: nat, data: seq<bv8>)
    ensures AddLarge(s, l, n, data).(runs := s.runs, live := s.live) == s
    ensures AddLarge(s, l, n, data).runs == s.runs[l := Large(n)] && Elsewhere(l.chunk, s.runs, s.runs[l := Large(n)])
    ensures ResizeLarge(s, l, n, data) == AddLarge(s, l, n, data)
  {}

  lemma DroppedParts(s: State, l: Loc)
    ensures DropLarge(s, l).(runs := s.runs, live := s.live) == s
    ensures DropLarge(s, l).live == s.live - {RunPtr(l)} && DropLarge(s, l).huge == s.huge
    ensures DropLarge(s, l).runs == s.runs - {l} && Elsewhere(l.chunk, s.runs, s.runs - {l})
  {}

  lemma CarvedParts(s: State, l: Loc, b: Bin, data: seq<bv8>)
    requires |s.free| == BINS
    ensures Carve(s, l, b, data).(runs := s.runs, live := s.live, slots := s.slots, free := s.free) == s
    ensures Carve(s, l, b, data).free == s.free[b := NewFree(l, b)]
    ensures Carve(s, l, b, data).runs == s.runs[l := Small(b)] && Elsewhere(l.chunk, s.runs, s.runs[l := Small(b)])
  {}

  // A large run of the heap is one of its chunk, described by its entry.
  lemma RunInChunk(st: State, c: Chunk, page: nat)
    requires InUse(c, st.runs)
    ensures page in c.runs <==> Loc(c.number, page) in st.runs
    ensures page in c.runs ==> c.runs[page] == st.runs[Loc(c.number, page)]
  {}

  // The run at l could have n pages: no other run lies in the way.
  ghost predicate RoomBehind(s: State, l: Loc, n: nat)
  {
    l.page + n <= PAGES && forall m :: m in s.runs && m.chunk == l.chunk && l.page < m.page ==> l.page + n <= m.page
  }

  lemma RoomBehindIs(s: State, l: Loc, n: nat)
    ensures RoomBehind(s, l, n) <==>
      l.page + n <= 512 && forall m :: m in s.runs && m.chunk == l.chunk && l.page < m.page ==> l.page + n <= m.page
  {}

  // The pages behind a run are free exactly if no other run lies there.
  lemma GrowsIntoRoom(c: Chunk, runs: map<Loc, Run>, page: nat, n: nat)
    requires c.Valid() && Matches(c.number, c.runs, runs) && page in c.runs && c.runs[page].Large?
      && c.runs[page].pages < n
    ensures (page + n <= PAGES
      && Interval(page + c.runs[page].pages, n - c.runs[page].pages) !! Spans.Pages(Lengths(c.runs)))
       <==> (page + n <= 512 && forall m :: m in runs && m.chunk == c.number && page < m.page ==> page + n <= m.page)
  {
    var free := page + n <= 512
      && Interval(page + c.runs[page].pages, n - c.runs[page].pages) !! Spans.Pages(Lengths(c.runs));
    var clear := page + n <= 512 && forall m :: m in runs && m.chunk == c.number && page < m.page ==>
      page + n <= m.page;
    hide *;
    Placed(c);
    PagesAre();
    RunsApart(c.runs, page);
    LengthLarge(c.runs[page].pages);
    if free {
      forall m | m in runs && m.chunk == c.number && page < m.page ensures page + n <= m.page {
        LocalRun(c, runs, m);
        RunsApart(c.runs, m.page);
        RunPage(c, m.page);
      }
    }
    if clear {
      forall x: nat | page + c.runs[page].pages <= x < page + n ensures x !in Spans.Pages(Lengths(c.runs)) {
        NoRunAt(c, runs, page, n, x);
      }
    }
    FreeIs(page + c.runs[page].pages, n - c.runs[page].pages, Spans.Pages(Lengths(c.runs)));
  }

  lemma PagesAre()
    ensures PAGES == 512
  {}

  lemma FreeIs(start: nat, len: nat, pages: set<nat>)
    ensures Interval(start, len) !! pages <==> forall x: nat :: start <= x < start + len ==> x !in pages
  {
    assert forall x: nat :: x in Interval(start, len) <==> start <= x < start + len;
  }

  lemma LocalRun(c: Chunk, runs: map<Loc, Run>, m: Loc)
    requires Matches(c.number, c.runs, runs) && m in runs && m.chunk == c.number
    ensures m.page in c.runs
  {}

  lemma RunPage(c: Chunk, page: nat)
    requires c.Valid() && page in c.runs
    ensures page in Spans.Pages(Lengths(c.runs))
  {
    Placed(c);
    RunsApart(c.runs, page);
    InLengths(c.runs, page);
    hide MapOk, Consistent, Length;
    assert Spans.Covered(Lengths(c.runs), page);
  }

  lemma NoRunAt(c: Chunk, runs: map<Loc, Run>, page: nat, n: nat, x: nat)
    requires c.Valid() && Matches(c.number, c.runs, runs) && page in c.runs
      && page + Length(c.runs[page]) <= x < page + n
    requires forall m :: m in runs && m.chunk == c.number && page < m.page ==> page + n <= m.page
    ensures x !in Spans.Pages(Lengths(c.runs))
  {
    Placed(c);
    RunsApart(c.runs, page);
    hide MapOk, Consistent, Length;
    var spans := Lengths(c.runs);
    forall s | s in spans ensures !(s <= x < s + spans[s]) {
      assert s in c.runs && Loc(c.number, s) in runs;
    }
  }

  // ---- steps that leave chunks and runs alone ----

  lemma Reshaped(before: State, after: State, ring: seq<Chunk>, cached: seq<Chunk>, free: seq<seq<Ptr>>,
                 huge: seq<Huge>)
    requires ShapeOf(before, ring, cached, free, huge) && Inv(after)
    requires after.ring == before.ring && after.cached == before.cached && after.runs == before.runs
    ensures ShapeOf(after, ring, cached, after.free, after.huge)
  {
    hide Inv, InUse, Unshared;
  }

  // ---- steps on the ring and the cache ----

  // A chunk that leaves the ring goes to the cache, is unmapped, or takes the place of the head of the cache.
  ghost predicate Retired(cached: seq<Chunk>, cached': seq<Chunk>, c: Chunk)
  {
    cached' == cached || cached' == [c] + cached || (cached != [] && cached' == [c] + cached[1..])
  }

  lemma DroppedState(st: State, c: Chunk, ring: seq<Chunk>, cached: seq<Chunk>, i: nat, cached': seq<Chunk>)
    requires Inv(st) && Numbers(ring) == st.ring && Numbers(cached) == st.cached && Unshared(ring + cached)
    requires 0 < i < |ring| && c == ring[i] && InUse(c, st.runs) && c.runs == map[] && Retired(cached, cached', c)
    requires forall d :: d in cached ==> Clean(d)
    ensures Inv(st.(ring := Numbers(Without(ring, i)), cached := Numbers(cached')))
      && Unshared(Without(ring, i) + cached')
    ensures forall d :: d in cached' ==> Clean(d)
    ensures Objects(Without(ring, i)) + Objects(cached') <= Objects(ring) + Objects(cached)
  {
    var ring' := Without(ring, i);
    NoRunsIn(st, c);
    EmptyChunk(c);
    NumbersWithout(ring, i);
    NumbersAdded(cached, cached', c);
    DropChunkInv(st, i, Numbers(cached'));
    hide Inv, Matches, Quiet, InUse, Objects, Unshared, Without, Numbers;
    forall d | d in cached' ensures d in cached || d == c {}
    forall d | d in ring' + cached' ensures d in ring + cached {}
    FewerObjects(ring + cached, ring' + cached');
    ObjectsJoin(ring, cached);
    ObjectsJoin(ring', cached');
  }

  lemma Dropped(st: State, ring: seq<Chunk>, cached: seq<Chunk>, free: seq<seq<Ptr>>, huge: seq<Huge>, i: nat,
                cached': seq<Chunk>)
    requires ShapeOf(st, ring, cached, free, huge) && 0 < i < |ring| && ring[i].runs == map[]
    requires Retired(cached, cached', ring[i])
    ensures ShapeOf(st.(ring := Numbers(Without(ring, i)), cached := Numbers(cached')), Without(ring, i), cached', free,
      huge)
    ensures Objects(Without(ring, i)) + Objects(cached') <= Objects(ring) + Objects(cached)
  {
    ShapeParts(st, ring, cached, free, huge);
    DroppedState(st, ring[i], ring, cached, i, cached');
    hide Inv, Objects, Unshared, Numbers, InUse, Clean, Retired;
  }

  lemma NumbersAdded(cached: seq<Chunk>, cached': seq<Chunk>, c: Chunk)
    requires cached' == cached || cached' == [c] + cached || (cached != [] && cached' == [c] + cached[1..])
    ensures cached' == cached ==> Numbers(cached') == Numbers(cached)
    ensures cached' == [c] + cached ==> Numbers(cached') == [c.number] + Numbers(cached)
    ensures cached != [] && cached' == [c] + cached[1..] ==> Numbers(cached') == [c.number] + Numbers(cached)[1..]
  {}

  lemma NoRunsIn(st: State, c: Chunk)
    requires InUse(c, st.runs) && c.runs == map[]
    ensures forall l :: l in st.runs ==> l.chunk != c.number
  {}

  // Chunk c is nobody's among cs.
  ghost predicate Stranger(c: Chunk, cs: seq<Chunk>)
  {
    forall d: Chunk :: d in cs ==>
      d.number != c.number && {d as object, d.freeMap, d.info} !! {c as object, c.freeMap, c.info}
  }

  lemma HeadApart(st: State, ring: seq<Chunk>, cached: seq<Chunk>, free: seq<seq<Ptr>>, huge: seq<Huge>)
    requires ShapeOf(st, ring, cached, free, huge) && cached != []
    ensures Stranger(cached[0], ring) && Stranger(cached[0], cached[1..]) && Clean(cached[0])
    ensures cached[0].number in st.cached && cached[0].number != 0
    ensures Distinct(Numbers(cached[1..])) && forall n :: n in Numbers(cached[1..]) ==> n in st.cached
    ensures Unshared(ring + cached[1..]) && forall d :: d in cached[1..] ==> d in cached && Clean(d)
  {
    hide *;
    ShapeParts(st, ring, cached, free, huge);
    CachedDistinct(st);
    var c := cached[0];
    NumbersHas(cached, c);
    NumbersRest(cached);
    CleanParts(c);
    FewerObjects(ring + cached, ring + cached[1..]);
    forall d: Chunk | d in ring + cached[1..]
      ensures d.number != c.number && {d as object, d.freeMap, d.info} !! {c as object, c.freeMap, c.info}
    {
      if d in ring {
        NumbersHas(ring, d);
        NotBoth(st, d.number, c.number);
        UseParts(d, st.runs);
      } else {
        NumbersHas(cached[1..], d);
        CleanParts(d);
      }
      Footprints(ring + cached, c, d);
    }
    IsStranger(c, ring);
    IsStranger(c, cached[1..]);
  }

  lemma IsStranger(c: Chunk, cs: seq<Chunk>)
    requires forall d: Chunk :: d in cs ==>
      d.number != c.number && {d as object, d.freeMap, d.info} !! {c as object, c.freeMap, c.info}
    ensures Stranger(c, cs)
  {}

  lemma CachedDistinct(st: State)
    requires Inv(st)
    ensures Distinct(st.cached) && 0 !in st.cached
  {}

  lemma NumbersRest(cs: seq<Chunk>)
    requires cs != [] && Distinct(Numbers(cs))
    ensures Distinct(Numbers(cs[1..])) && cs[0].number !in Numbers(cs[1..])
    ensures forall n :: n in Numbers(cs[1..]) ==> n in Numbers(cs)
  {
    assert Numbers(cs)[1..] == Numbers(cs[1..]);
    var numbers := Numbers(cs);
    assert forall i :: 1 <= i < |numbers| ==> numbers[i] != numbers[0];
  }

  // A chunk just initialized enters the ring.
  lemma Entered(st: State, ring: seq<Chunk>, cached: seq<Chunk>, c: Chunk)
    requires Inv(st) && Numbers(ring) == st.ring && Unshared(ring + cached)
    requires Distinct(Numbers(cached)) && forall n :: n in Numbers(cached) ==> n in st.cached
    requires Stranger(c, ring) && Stranger(c, cached) && c.number != 0
    requires c.number in st.cached || Unmapped(st, c.number, 1)
    requires c.Valid() && c.runs == map[]
    requires forall d :: d in ring ==> InUse(d, st.runs)
    requires forall d :: d in cached ==> Clean(d)
    ensures ShapeOf(st.(ring := Numbers(ring + [c]), cached := Numbers(cached)), ring + [c], cached, st.free, st.huge)
  {
    hide *;
    var st' := st.(ring := Numbers(ring + [c]), cached := Numbers(cached));
    EnteredChunks(st, ring, cached, c);
    RunsInRing(st);
    forall l | l in st.runs ensures l.chunk in Numbers(ring + [c]) {}
    RechunkInv(st, Numbers(ring + [c]), Numbers(cached));
    EnteredUse(st, ring, c);
    EnteredUnshared(ring, cached, c);
    forall d | d in ring + [c] ensures InUse(d, st.runs) {}
    ShapeIs(st', ring + [c], cached);
  }

  lemma NotNumbered(c: Chunk, cs: seq<Chunk>)
    requires Stranger(c, cs)
    ensures c.number !in Numbers(cs)
  {
    assert forall i :: 0 <= i < |cs| ==> cs[i] in cs && Numbers(cs)[i] != c.number;
  }

  lemma RunsInRing(st: State)
    requires Inv(st)
    ensures forall l :: l in st.runs ==> l.chunk in st.ring
  {}

  lemma EnteredChunks(st: State, ring: seq<Chunk>, cached: seq<Chunk>, c: Chunk)
    requires Inv(st) && Numbers(ring) == st.ring
    requires Distinct(Numbers(cached)) && forall n :: n in Numbers(cached) ==> n in st.cached
    requires Stranger(c, ring) && Stranger(c, cached) && c.number != 0
    requires c.number in st.cached || Unmapped(st, c.number, 1)
    ensures ChunksOk(Numbers(ring + [c]), Numbers(cached))
    ensures forall n :: n in Numbers(ring + [c]) <==> n in st.ring || n == c.number
    ensures forall n :: n in Numbers(ring + [c]) + Numbers(cached) ==> n in st.ring + st.cached || Unmapped(st, n, 1)
  {
    assert Numbers(ring + [c]) == st.ring + [c.number];
    NotNumbered(c, ring);
    NotNumbered(c, cached);
    hide RunsOk, SlotsOk, FreeOk, LiveOk, HugeOk, RegionsOk, Unmapped, Numbers, Stranger;
  }

  lemma EnteredUse(st: State, ring: seq<Chunk>, c: Chunk)
    requires Inv(st) && Numbers(ring) == st.ring && Stranger(c, ring) && c.Valid() && c.runs == map[]
    ensures InUse(c, st.runs)
  {
    RunsInRing(st);
    hide Inv;
    forall l | l in st.runs ensures l.chunk != c.number {
      var i := NumbersOf(ring, l.chunk);
      assert ring[i] in ring;
    }
  }

  lemma EnteredUnshared(ring: seq<Chunk>, cached: seq<Chunk>, c: Chunk)
    requires Unshared(ring + cached) && Stranger(c, ring) && Stranger(c, cached)
    ensures Unshared(ring + [c] + cached)
  {
    forall d: Chunk | d in ring + cached ensures d.number != c.number && d.freeMap != c.freeMap && d.info != c.info {
      assert d.freeMap as object !in {c as object, c.freeMap, c.info};
      assert d.info as object !in {c as object, c.freeMap, c.info};
    }
    var all, more := ring + cached, ring + [c] + cached;
    assert forall d :: d in more ==> d in all || d == c;
  }

  lemma ShapeIs(st: State, ring: seq<Chunk>, cached: seq<Chunk>)
    requires Inv(st) && Numbers(ring) == st.ring && Numbers(cached) == st.cached && Unshared(ring + cached)
    requires forall c :: c in ring ==> InUse(c, st.runs)
    requires forall c :: c in cached ==> Clean(c)
    ensures ShapeOf(st, ring, cached, st.free, st.huge)
  {
    hide Inv, Unshared, InUse, Clean, Numbers;
  }

  // A chunk moves behind the main chunk.
  lemma Moved(st: State, ring: seq<Chunk>, cached: seq<Chunk>, free: seq<seq<Ptr>>, huge: seq<Huge>, i: nat)
    requires ShapeOf(st, ring, cached, free, huge) && 0 < i < |ring|
    ensures var ring' := [ring[0], ring[i]] + ring[1..i] + ring[i + 1..];
      Objects(ring') == Objects(ring) && ShapeOf(st.(ring := Numbers(ring')), ring', cached, free, huge)
  {
    hide *;
    var ring' := [ring[0], ring[i]] + ring[1..i] + ring[i + 1..];
    ShapeParts(st, ring, cached, free, huge);
    MovedElements(ring, i);
    MovedChunks(st, ring, i);
    FewerObjects(ring, ring');
    FewerObjects(ring', ring);
    FewerObjects(ring + cached, ring' + cached);
    RechunkInv(st, Numbers(ring'), Numbers(cached));
    assert st.(ring := Numbers(ring'), cached := Numbers(cached)) == st.(ring := Numbers(ring'));
    ShapeIs(st.(ring := Numbers(ring')), ring', cached);
  }

  lemma MovedElements<T>(s: seq<T>, i: nat)
    requires 0 < i < |s|
    ensures forall x :: x in [s[0], s[i]] + s[1..i] + s[i + 1..] <==> x in s
  {
    assert s == [s[0]] + s[1..i] + [s[i]] + s[i + 1..];
  }

  lemma MovedDistinct<T>(s: seq<T>, i: nat)
    requires Distinct(s) && 0 < i < |s|
    ensures Distinct([s[0], s[i]] + s[1..i] + s[i + 1..])
  {
    var s' := [s[0], s[i]] + s[1..i] + s[i + 1..];
    assert forall k :: 0 <= k < |s'| ==>
      s'[k] == s[if k == 0 then 0 else if k == 1 then i else if k <= i then k - 1 else k];
  }

  lemma MovedChunks(st: State, ring: seq<Chunk>, i: nat)
    requires Inv(st) && Numbers(ring) == st.ring && 0 < i < |ring|
    ensures var numbers := Numbers([ring[0], ring[i]] + ring[1..i] + ring[i + 1..]);
      ChunksOk(numbers, st.cached) && (forall l :: l in st.runs ==> l.chunk in numbers)
      && forall c :: c in numbers + st.cached ==> c in st.ring + st.cached
  {
    var numbers := Numbers([ring[0], ring[i]] + ring[1..i] + ring[i + 1..]);
    assert numbers == [st.ring[0], st.ring[i]] + st.ring[1..i] + st.ring[i + 1..];
    hide RunsOk, SlotsOk, FreeOk, LiveOk, HugeOk, RegionsOk, Numbers, Distinct;
    MovedElements(st.ring, i);
    MovedDistinct(st.ring, i);
    RunsInRing(st);
  }
}
