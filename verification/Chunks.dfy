/** One 2 MB chunk: its page bitmap, its page entries and the runs they stand for. */
module Chunks {
  import opened Sizes
  import opened Words
  import opened Bitset
  import opened BestFit
  import opened Spans

  type Bin = b: nat | b < BINS

  // What occupies a run of pages.
  datatype Run = Large(pages: nat) | Small(bin: Bin)

  function Length(r: Run): nat
  {
    match r
    case Large(pages) => pages
    case Small(bin) => BinPages(bin)
  }

  // The 32-bit page entry, decoded.
  datatype PageInfo = Frun | Lrun(count: nat) | Srun(bin: Bin, counter: nat) | Nrun(bin: Bin, offset: nat)

  ghost function Lengths(runs: map<nat, Run>): map<nat, nat>
  {
    map s | s in runs :: Length(runs[s])
  }

  ghost predicate Described(info: seq<PageInfo>, s: nat, r: Run)
  {
    && s + Length(r) <= |info| && 0 < Length(r)
    && match r
       case Large(pages) => info[s] == Lrun(pages)
       case Small(bin) =>
         info[s].Srun? && info[s].bin == bin && forall i :: 1 <= i < BinPages(bin) ==> info[s + i] == Nrun(bin, i)
  }


  // Every run starts below the tail; a run that was grown in place may reach beyond it.
  ghost predicate TailOk(spans: map<nat, nat>, tail: nat)
  {
    1 <= tail <= PAGES && forall s :: s in spans ==> s < tail
  }

  lemma TailStraddles(words: seq<bv64>, spans: map<nat, nat>, tail: nat)
    requires |words| == 8 && Members(words) == {0} + Pages(spans) && TailOk(spans, tail)
    ensures Straddles(words, tail)
  {
    hide At;
    forall a, b | tail - 1 <= a <= b && tail <= b < 64 * |words| && At(words, b) ensures At(words, a) {
      assert b in Members(words);
      var s :| s in spans && s <= b < s + spans[s];
      assert s <= a < s + spans[s];
      assert Covered(spans, a);
      assert a in Members(words);
    }
  }

  lemma TailMoved(words: seq<bv64>, spans: map<nat, nat>, tail: nat)
    requires |words| == 8 && Members(words) == {0} + Pages(spans) && WellPlaced(spans)
    requires 1 <= tail <= PAGES && FreeFrom(words, tail)
    ensures TailOk(spans, tail)
  {
    hide At;
    forall s | s in spans ensures s < tail {
      assert Covered(spans, s);
      assert s in Members(words);
    }
  }

  // A page that a fit was found at starts vacant pages.
  lemma FitIsVacant(words: seq<bv64>, spans: map<nat, nat>, count: nat, p: nat)
    requires |words| == 8 && Members(words) == {0} + Pages(spans) && BestFitAt(words, count, p) && 0 < p
    ensures Vacant(spans, p, count)
  {
    hide At;
    var len: nat :| BestRun(words, count, p, len);
    forall i | i in Interval(p, count) ensures i !in Pages(spans) {
      assert !At(words, i);
      assert i !in Members(words);
    }
  }

  // Too few free pages rule every fit out.
  lemma TooFew(words: seq<bv64>, count: nat)
    requires 64 * |words| - |Members(words)| < count
    ensures NoFit(words, count)
  {
    hide At;
    forall q: nat, m: nat | MaximalRun(words, q, m) ensures m < count {
      var all := Interval(0, 64 * |words|);
      assert Members(words) !! Interval(q, m);
      assert Members(words) + Interval(q, m) <= all;
      Subset(Members(words) + Interval(q, m), all);
    }
  }

  lemma {:induction false} Subset(a: set<nat>, b: set<nat>)
    requires a <= b
    ensures |a| <= |b|
  {
    assert b == a + (b - a);
  }

  lemma LengthsUpdate(runs: map<nat, Run>, s: nat, r: Run)
    ensures Lengths(runs[s := r]) == Lengths(runs)[s := Length(r)]
    ensures Lengths(runs - {s}) == Lengths(runs) - {s}
  {
    hide Length;
  }

  // A run's entries do not change when only pages outside it are rewritten.
  lemma StillDescribed(before: seq<PageInfo>, after: seq<PageInfo>, s: nat, r: Run)
    requires Described(before, s, r) && |before| == |after|
    requires forall i :: s <= i < s + Length(r) ==> after[i] == before[i]
    ensures Described(after, s, r)
  {}

  lemma HeaderUsed(words: seq<bv64>, spans: map<nat, nat>)
    requires |words| == 8 && Members(words) == {0} + Pages(spans)
    ensures At(words, 0)
  {
    hide At;
    assert 0 in Members(words);
  }

  // The bitmap holds the header page and the pages of the runs, and freePages counts its zero bits.
  ghost predicate MapOk(words: seq<bv64>, freePages: int, spans: map<nat, nat>)
  {
    && |words| == 8
    && Members(words) == {0} + Pages(spans)
    && freePages == PAGES - |Members(words)|
  }

  ghost predicate EntriesOk(info: seq<PageInfo>, runs: map<nat, Run>)
  {
    |info| == PAGES && forall s :: s in runs ==> Described(info, s, runs[s])
  }

  // The redundant fields of a chunk against its runs.
  ghost predicate Consistent(words: seq<bv64>, info: seq<PageInfo>, freePages: int, freeTail: nat, runs: map<nat, Run>)
  {
    && WellPlaced(Lengths(runs)) && TailOk(Lengths(runs), freeTail)
    && MapOk(words, freePages, Lengths(runs))
    && EntriesOk(info, runs)
  }

  // Set sizes when disjoint pages join, or held pages leave.
  lemma Joined(a: set<nat>, b: set<nat>)
    requires a !! b
    ensures |a + b| == |a| + |b|
  {}

  lemma Left(a: set<nat>, b: set<nat>)
    requires b <= a
    ensures |a - b| == |a| - |b|
  {}

  lemma HeaderKept(a: set<nat>, b: set<nat>)
    requires 0 !in b && b <= a
    ensures {0} + a - b == {0} + (a - b) && b <= {0} + a
  {}

  lemma MapAdded(words: seq<bv64>, freePages: int, spans: map<nat, nat>, words': seq<bv64>, spans': map<nat, nat>,
                 page: nat, count: nat)
    requires MapOk(words, freePages, spans)
    requires |words'| == 8 && Members(words') == Members(words) + Interval(page, count)
    requires 1 <= page && Interval(page, count) !! Pages(spans) && Pages(spans') == Pages(spans) + Interval(page, count)
    ensures MapOk(words', freePages - count, spans')
  {
    hide Members, Pages, Interval;
    assert 0 !in Interval(page, count);
    Joined(Members(words), Interval(page, count));
  }

  lemma MapReleased(words: seq<bv64>, freePages: int, spans: map<nat, nat>, words': seq<bv64>, spans': map<nat, nat>,
                    page: nat, count: nat)
    requires MapOk(words, freePages, spans)
    requires |words'| == 8 && Members(words') == Members(words) - Interval(page, count)
    requires 1 <= page && Interval(page, count) <= Pages(spans) && Pages(spans') == Pages(spans) - Interval(page, count)
    ensures MapOk(words', freePages + count, spans')
  {
    hide Members, Pages, Interval;
    assert 0 !in Interval(page, count);
    HeaderKept(Pages(spans), Interval(page, count));
    Left(Members(words), Interval(page, count));
  }

  lemma MapTaken(words: seq<bv64>, freePages: int, spans: map<nat, nat>, words': seq<bv64>, page: nat, count: nat)
    requires MapOk(words, freePages, spans) && WellPlaced(spans) && 0 < count && Vacant(spans, page, count)
    requires |words'| == 8 && Members(words') == Members(words) + Interval(page, count)
    ensures MapOk(words', freePages - count, spans[page := count])
  {
    hide Members, Pages, WellPlaced, MapOk;
    AddedPages(spans, page, count);
    MapAdded(words, freePages, spans, words', spans[page := count], page, count);
  }

  // Rewriting entries inside one run, or on vacant pages, leaves the description of the other runs.
  lemma EntriesRewritten(info: seq<PageInfo>, info': seq<PageInfo>, runs: map<nat, Run>, page: nat, count: nat, r: Run)
    requires EntriesOk(info, runs) && |info'| == PAGES
    requires |info| == PAGES && forall p :: 0 <= p < PAGES && !(page <= p < page + count) ==> info'[p] == info[p]
    requires forall s :: s in runs && s != page ==> s + Length(runs[s]) <= page || page + count <= s
    requires Described(info', page, r)
    ensures EntriesOk(info', runs[page := r])
  {
    hide Length;
    var runs' := runs[page := r];
    forall s | s in runs' ensures Described(info', s, runs'[s]) {
      if s != page {
        assert Described(info, s, runs[s]);
        StillDescribed(info, info', s, runs[s]);
      }
    }
  }

  lemma LengthLarge(count: nat)
    ensures Length(Large(count)) == count
  {}

  lemma LargeDescribed(info: seq<PageInfo>, page: nat, count: nat)
    requires 0 < count && page + count <= |info| && info[page] == Lrun(count)
    ensures Described(info, page, Large(count))
  {}

  lemma OthersApart(runs: map<nat, Run>, page: nat, count: nat)
    requires WellPlaced(Lengths(runs)) && 0 < count && Vacant(Lengths(runs), page, count)
    ensures forall s :: s in runs ==> s + Length(runs[s]) <= page || page + count <= s
  {
    hide WellPlaced, Vacant, Length;
    forall s | s in runs ensures s + Length(runs[s]) <= page || page + count <= s {
      Separate(Lengths(runs), page, count, s);
    }
  }

  lemma TakeKeeps(words: seq<bv64>, info: seq<PageInfo>, freePages: int, freeTail: nat, runs: map<nat, Run>,
                  words': seq<bv64>, page: nat, count: nat)
    requires Consistent(words, info, freePages, freeTail, runs)
    requires 0 < count && page <= freeTail && Vacant(Lengths(runs), page, count)
    requires |words'| == 8 && Members(words') == Members(words) + Interval(page, count)
    ensures page < |info| &&
      Consistent(words', info[page := Lrun(count)], freePages - count,
                 if page == freeTail then page + count else freeTail, runs[page := Large(count)])
  {
    hide MapOk, WellPlaced, Described, Length, Members, Lengths;
    LengthLarge(count);
    LengthsUpdate(runs, page, Large(count));
    AddedPlaced(Lengths(runs), page, count);
    MapTaken(words, freePages, Lengths(runs), words', page, count);
    OthersApart(runs, page, count);
    LargeDescribed(info[page := Lrun(count)], page, count);
    EntriesRewritten(info, info[page := Lrun(count)], runs, page, 1, Large(count));
  }

  lemma EntriesRemoved(info: seq<PageInfo>, runs: map<nat, Run>, page: nat)
    requires EntriesOk(info, runs) && WellPlaced(Lengths(runs)) && page in runs
    ensures page < |info| && EntriesOk(info[page := Frun], runs - {page})
  {
    hide Length;
    assert page in Lengths(runs);
    var info', runs' := info[page := Frun], runs - {page};
    forall s | s in runs' ensures Described(info', s, runs'[s]) {
      assert s in Lengths(runs) && Described(info, s, runs[s]);
      StillDescribed(info, info', s, runs[s]);
    }
  }

  lemma TailReleased(spans: map<nat, nat>, tail: nat, page: nat)
    requires WellPlaced(spans) && TailOk(spans, tail) && page in spans
    ensures TailOk(spans - {page}, if tail == page + spans[page] then page else tail)
  {}

  lemma ReleaseKeeps(words: seq<bv64>, info: seq<PageInfo>, freePages: int, freeTail: nat, runs: map<nat, Run>,
                     words': seq<bv64>, page: nat, count: nat)
    requires Consistent(words, info, freePages, freeTail, runs)
    requires page in runs && Length(runs[page]) == count
    requires |words'| == 8 && Members(words') == Members(words) - Interval(page, count)
    ensures page < |info| &&
      Consistent(words', info[page := Frun], freePages + count,
                 if freeTail == page + count then page else freeTail, runs - {page})
  {
    hide MapOk, WellPlaced, TailOk, EntriesOk, Described, Length, Members;
    LengthsUpdate(runs, page, runs[page]);
    RemovedPlaced(Lengths(runs), page);
    RemovedPages(Lengths(runs), page);
    TailReleased(Lengths(runs), freeTail, page);
    MapReleased(words, freePages, Lengths(runs), words', Lengths(runs) - {page}, page, count);
    EntriesRemoved(info, runs, page);
  }

  lemma RunsApart(runs: map<nat, Run>, page: nat)
    requires WellPlaced(Lengths(runs)) && page in runs
    ensures 1 <= page && 0 < Length(runs[page]) && page + Length(runs[page]) <= PAGES
    ensures forall s :: s in runs && s != page ==> s + Length(runs[s]) <= page || page + Length(runs[page]) <= s
  {
    hide Length;
    assert page in Lengths(runs);
    forall s | s in runs && s != page ensures s + Length(runs[s]) <= page || page + Length(runs[page]) <= s {
      assert s in Lengths(runs);
    }
  }

  // A large run becomes one of another length at the same place.
  lemma ResizeKeeps(words: seq<bv64>, info: seq<PageInfo>, freePages: int, freeTail: nat, runs: map<nat, Run>,
                    words': seq<bv64>, freePages': int, page: nat, count: nat)
    requires Consistent(words, info, freePages, freeTail, runs) && page in runs && 0 < count && page + count <= PAGES
    requires WellPlaced(Lengths(runs)[page := count]) && MapOk(words', freePages', Lengths(runs)[page := count])
    ensures page < |info|
      && Consistent(words', info[page := Lrun(count)], freePages', freeTail, runs[page := Large(count)])
  {
    hide MapOk, WellPlaced, Described, Length, Members, Lengths;
    LengthLarge(count);
    LengthsUpdate(runs, page, Large(count));
    RunsApart(runs, page);
    assert page in Lengths(runs) by { InLengths(runs, page); }
    LargeDescribed(info[page := Lrun(count)], page, count);
    EntriesRewritten(info, info[page := Lrun(count)], runs, page, 1, Large(count));
  }

  lemma GrowRoom(words: seq<bv64>, info: seq<PageInfo>, freePages: int, freeTail: nat, runs: map<nat, Run>, page: nat,
                 count: nat)
    requires Consistent(words, info, freePages, freeTail, runs)
    requires page in runs && runs[page].Large? && runs[page].pages < count && page + count <= PAGES
    requires Interval(page + runs[page].pages, count - runs[page].pages) !! Pages(Lengths(runs))
    ensures count - runs[page].pages <= freePages && 1 <= page
    ensures WellPlaced(Lengths(runs)[page := count])
    ensures Pages(Lengths(runs)[page := count])
      == Pages(Lengths(runs)) + Interval(page + runs[page].pages, count - runs[page].pages)
  {
    hide WellPlaced, MapOk, TailOk, EntriesOk, Members, Pages, Lengths, Interval;
    RunsApart(runs, page);
    InLengths(runs, page);
    LengthLarge(runs[page].pages);
    Grown(Lengths(runs), page, count);
    RoomFor(words, freePages, Lengths(runs), page + runs[page].pages, count - runs[page].pages);
  }

  lemma GrowKeeps(words: seq<bv64>, info: seq<PageInfo>, freePages: int, freeTail: nat, runs: map<nat, Run>,
                  words': seq<bv64>, page: nat, count: nat)
    requires Consistent(words, info, freePages, freeTail, runs)
    requires page in runs && runs[page].Large? && runs[page].pages < count && page + count <= PAGES
    requires Interval(page + runs[page].pages, count - runs[page].pages) !! Pages(Lengths(runs))
    requires |words'| == 8
      && Members(words') == Members(words) + Interval(page + runs[page].pages, count - runs[page].pages)
    ensures page < |info| &&
      Consistent(words', info[page := Lrun(count)], freePages - (count - runs[page].pages), freeTail,
        runs[page := Large(count)])
  {
    hide *;
    GrowRoom(words, info, freePages, freeTail, runs, page, count);
    ConsistentParts(words, info, freePages, freeTail, runs);
    var from, more := page + runs[page].pages, count - runs[page].pages;
    MapAdded(words, freePages, Lengths(runs), words', Lengths(runs)[page := count], from, more);
    ResizeKeeps(words, info, freePages, freeTail, runs, words', freePages - more, page, count);
  }

  lemma ConsistentParts(words: seq<bv64>, info: seq<PageInfo>, freePages: int, freeTail: nat, runs: map<nat, Run>)
    requires Consistent(words, info, freePages, freeTail, runs)
    ensures MapOk(words, freePages, Lengths(runs)) && PAGES == 512
  {}

  lemma InLengths(runs: map<nat, Run>, page: nat)
    requires page in runs
    ensures page in Lengths(runs) && Lengths(runs)[page] == Length(runs[page])
  {
    hide Length;
  }

  // A large run is turned into a small one of the same length.
  lemma RetypeKeeps(words: seq<bv64>, info: seq<PageInfo>, freePages: int, freeTail: nat, runs: map<nat, Run>,
                    info': seq<PageInfo>, page: nat, r: Run)
    requires Consistent(words, info, freePages, freeTail, runs) && page in runs && Length(runs[page]) == Length(r)
    requires |info'| == PAGES && Described(info', page, r)
    requires |info| == PAGES && forall p :: 0 <= p < PAGES && !(page <= p < page + Length(r)) ==> info'[p] == info[p]
    ensures Consistent(words, info', freePages, freeTail, runs[page := r])
  {
    hide MapOk, WellPlaced, TailOk, Described, Length, Members, Lengths;
    LengthsUpdate(runs, page, r);
    InLengths(runs, page);
    assert Lengths(runs)[page := Length(r)] == Lengths(runs);
    RunsApart(runs, page);
    EntriesRewritten(info, info', runs, page, Length(r), r);
  }

  // Outside a collection the counters of small runs are zero.
  ghost predicate Quiet(runs: map<nat, Run>, info: seq<PageInfo>)
  {
    forall p :: p in runs && runs[p].Small? && p < |info| ==> info[p] == Srun(runs[p].bin, 0)
  }

  // The small runs that a collection has counted as entirely free.
  ghost function Marked(runs: map<nat, Run>, info: seq<PageInfo>): set<nat>
  {
    set p | p in runs && runs[p].Small? && p < |info| && info[p] == Srun(runs[p].bin, Elements(runs[p].bin))
  }

  // The pages of some of the runs.
  ghost predicate InRuns(runs: map<nat, Run>, some: set<nat>, p: nat)
  {
    exists s :: s in some && s in runs && s <= p < s + Length(runs[s])
  }

  ghost function PagesOf(runs: map<nat, Run>, some: set<nat>): set<nat>
  {
    set p: nat | p < PAGES && InRuns(runs, some, p)
  }

  // A sweep has passed page i: no run reaches over it.
  ghost predicate Passed(runs: map<nat, Run>, i: nat)
  {
    forall s :: s in runs && s < i ==> s + Length(runs[s]) <= i
  }

  // The runs left when the marked ones below page i are gone, and the counters below i reset.
  ghost predicate Swept(before: map<nat, Run>, entries: seq<PageInfo>, runs: map<nat, Run>, info: seq<PageInfo>, i: nat)
  {
    && |info| == |entries|
    && runs == before - (set p | p in Marked(before, entries) && p < i)
    && (forall p :: p in runs && i <= p < |info| ==> info[p] == entries[p])
    && (forall p :: p in runs && p < i && p < |info| && runs[p].Small? ==> info[p] == Srun(runs[p].bin, 0))
  }

  class Chunk {
    const number: nat
    const freeMap: array<bv64>
    const info: array<PageInfo>
    var freePages: nat
    var freeTail: nat
    var num: int
    ghost var runs: map<nat, Run>

    ghost predicate Valid()
      reads this, freeMap, info
    {
      Consistent(freeMap[..], info[..], freePages, freeTail, runs)
    }

    /** The best-fit search of zend_mm_alloc_pages in this chunk. */
    method Find(count: nat) returns (found: bool, page: nat)
      requires Valid() && 0 < count
      modifies this`freeTail
      ensures Valid()
      ensures found ==> BestFitAt(freeMap[..], count, page) && page < freeTail && Vacant(Lengths(runs), page, count)
      ensures !found ==> NoFit(freeMap[..], count)
      ensures freeTail != old(freeTail) ==>
        0 < freeTail && (At(freeMap[..], freeTail - 1) || (found && freeTail == page + count))
    {
      hide At, Bit, BestFitAt, NoFit, Straddles, FreeFrom, WellPlaced, Pages, TailOk, Described, Lengths, Vacant,
        Members;
      if freePages < count {
        TooFew(freeMap[..], count);
        return false, 0;
      }
      TailStraddles(freeMap[..], Lengths(runs), freeTail);
      HeaderUsed(freeMap[..], Lengths(runs));
      var tail;
      found, page, tail := Search(freeMap, freeTail, count);
      if tail != freeTail { TailMoved(freeMap[..], Lengths(runs), tail); }
      freeTail := tail;
      if found { FitIsVacant(freeMap[..], Lengths(runs), count, page); }
    }

    /** The end of zend_mm_alloc_pages: page .. page+count-1 become a large run. */
    method Take(page: nat, count: nat)
      requires Valid() && 0 < count && page <= freeTail && Vacant(Lengths(runs), page, count)
      modifies this, freeMap, info
      ensures Valid() && runs == old(runs)[page := Large(count)]
      ensures freeTail == (if page == old(freeTail) then page + count else old(freeTail)) && num == old(num)
      ensures info[..] == old(info[..])[page := Lrun(count)]
    {
      hide *;
      ghost var words, entries, free, tail := freeMap[..], info[..], freePages, freeTail;
      Bounds(this);
      VacantFree(words, freePages, Lengths(runs), page, count);
      freePages := freePages - count;
      SetRange(freeMap, page, count);
      info[page] := Lrun(count);
      if page == freeTail {
        freeTail := page + count;
      }
      TakeKeeps(words, entries, free, tail, runs, freeMap[..], page, count);
      assert info[..] == entries[page := Lrun(count)];
      runs := runs[page := Large(count)];
      Revalidate(this);
    }

    /** The chunk's part of zend_mm_free_pages_ex: the run at page is gone. */
    method Release(page: nat, count: nat)
      requires Valid() && page in runs && Length(runs[page]) == count
      modifies this, freeMap, info
      ensures Valid() && runs == old(runs) - {page}
      ensures page < PAGES && info[..] == old(info[..])[page := Frun]
      ensures freeTail == (if old(freeTail) == page + count then page else old(freeTail)) && num == old(num)
      ensures freePages == old(freePages) + count
    {
      hide *;
      ghost var words, entries, free, tail := freeMap[..], info[..], freePages, freeTail;
      Bounds(this);
      RunsApart(runs, page);
      freePages := freePages + count;
      ResetRange(freeMap, page, count);
      info[page] := Frun;
      if freeTail == page + count {
        freeTail := page;
      }
      ReleaseKeeps(words, entries, free, tail, runs, freeMap[..], page, count);
      assert info[..] == entries[page := Frun];
      runs := runs - {page};
      Revalidate(this);
    }

    /** In-place truncation of a large run to its first count pages. */
    method Shrink(page: nat, count: nat)
      requires Valid() && page in runs && runs[page].Large? && 0 < count < runs[page].pages
      modifies this, freeMap, info
      ensures Valid() && runs == old(runs)[page := Large(count)]
      ensures freeTail == old(freeTail) && num == old(num)
      ensures page < PAGES && info[..] == old(info[..])[page := Lrun(count)]
    {
      hide *;
      ghost var words, entries, free := freeMap[..], info[..], freePages;
      Bounds(this);
      RunsApart(runs, page);
      InLengths(runs, page);
      LengthLarge(runs[page].pages);
      EntryOf(this, page);
      var rest := info[page].count - count;
      Shrunk(Lengths(runs), page, count);
      info[page] := Lrun(count);
      freePages := freePages + rest;
      ResetRange(freeMap, page + count, rest);
      MapReleased(words, free, Lengths(runs), freeMap[..], Lengths(runs)[page := count], page + count, rest);
      ResizeKeeps(words, entries, free, freeTail, runs, freeMap[..], freePages, page, count);
      assert info[..] == entries[page := Lrun(count)];
      runs := runs[page := Large(count)];
      Revalidate(this);
    }

    // The pages behind a large run, which are free, become part of it.
    method Extend(page: nat, count: nat)
      requires Valid() && page in runs && runs[page].Large? && runs[page].pages < count && page + count <= PAGES
      requires Interval(page + runs[page].pages, count - runs[page].pages) !! Pages(Lengths(runs))
      modifies this, freeMap, info
      ensures Valid() && runs == old(runs)[page := Large(count)] && info[..] == old(info[..])[page := Lrun(count)]
      ensures freeTail == old(freeTail) && num == old(num)
    {
      hide *;
      ghost var words, entries, free := freeMap[..], info[..], freePages;
      Bounds(this);
      RunsApart(runs, page);
      InLengths(runs, page);
      LengthLarge(runs[page].pages);
      EntryOf(this, page);
      var oldCount := info[page].count;
      GrowRoom(words, entries, free, freeTail, runs, page, count);
      freePages := freePages - (count - oldCount);
      SetRange(freeMap, page + oldCount, count - oldCount);
      info[page] := Lrun(count);
      GrowKeeps(words, entries, free, freeTail, runs, freeMap[..], page, count);
      assert info[..] == entries[page := Lrun(count)];
      runs := runs[page := Large(count)];
      Revalidate(this);
    }

    /** In-place growth of a large run: done if and only if the pages behind it exist and are free. */
    method Grow(page: nat, count: nat) returns (grown: bool)
      requires Valid() && page in runs && runs[page].Large? && runs[page].pages < count
      modifies this, freeMap, info
      ensures Valid()
      ensures grown == old(page + count <= PAGES
        && Interval(page + runs[page].pages, count - runs[page].pages) !! Pages(Lengths(runs)))
      ensures freeTail == old(freeTail) && num == old(num)
      ensures runs == if grown then old(runs)[page := Large(count)] else old(runs)
      ensures page < PAGES && info[..] == if grown then old(info[..])[page := Lrun(count)] else old(info[..])
    {
      hide *;
      ghost var words, entries, free := freeMap[..], info[..], freePages;
      Bounds(this);
      RunsApart(runs, page);
      InLengths(runs, page);
      LengthLarge(runs[page].pages);
      EntryOf(this, page);
      var oldCount := info[page].count;
      grown := false;
      if page + count <= PAGES {
        grown := IsFreeRange(freeMap, page + oldCount, count - oldCount);
        FreeIsVacant(words, freePages, Lengths(runs), page + oldCount, count - oldCount);
        if grown { Extend(page, count); }
      }
    }

    /** The page entries that zend_mm_alloc_small_slow writes over a fresh large run. */
    method MakeSmall(page: nat, bin: Bin)
      requires Valid() && page in runs && runs[page] == Large(BinPages(bin))
      modifies this`runs, info
      ensures Valid() && runs == old(runs)[page := Small(bin)]
      ensures page + BinPages(bin) <= PAGES && info[page] == Srun(bin, 0)
      ensures forall p :: 0 <= p < PAGES && !(page <= p < page + BinPages(bin)) ==> info[p] == old(info[p])
    {
      hide *;
      ghost var entries := info[..];
      Bounds(this);
      RunsApart(runs, page);
      LengthLarge(BinPages(bin));
      LengthSmall(bin);
      info[page] := Srun(bin, 0);
      if BinPages(bin) > 1 {
        var i := 1;
        while i < BinPages(bin)
          invariant 1 <= i <= BinPages(bin) && runs == old(runs)
          invariant info[page] == Srun(bin, 0)
          invariant forall j :: 1 <= j < i ==> info[page + j] == Nrun(bin, j)
          invariant forall p :: 0 <= p < PAGES && !(page <= p < page + BinPages(bin)) ==> info[p] == entries[p]
        {
          info[page + i] := Nrun(bin, i);
          i := i + 1;
        }
      }
      SmallDescribed(info[..], page, bin);
      RetypeKeeps(freeMap[..], entries, freePages, freeTail, runs, info[..], page, Small(bin));
      runs := runs[page := Small(bin)];
      Revalidate(this);
    }

    /** The counter of a small run is rewritten. */
    method SetCounter(page: nat, bin: Bin, counter: nat)
      requires Valid() && page in runs && runs[page] == Small(bin)
      modifies info
      ensures Valid() && page < PAGES && info[..] == old(info[..])[page := Srun(bin, counter)]
    {
      hide *;
      ghost var entries := info[..];
      Bounds(this);
      RunsApart(runs, page);
      info[page] := Srun(bin, counter);
      assert info[..] == entries[page := Srun(bin, counter)];
      CounterKeeps(freeMap[..], entries, freePages, freeTail, runs, page, bin, counter);
      Revalidate(this);
    }

    /** zend_mm_gc's pass over one chunk: gives back the marked small runs and resets the other counters, although it
        only looks below the tail. */
    method Sweep() returns (collected: nat)
      requires Valid()
      modifies this, freeMap, info
      ensures Valid() && runs == old(runs) - Marked(old(runs), old(info[..])) && Quiet(runs, info[..])
      ensures collected == freePages - old(freePages) == |PagesOf(old(runs), Marked(old(runs), old(info[..])))|
      ensures num == old(num)
      ensures collected == 0 <==> Marked(old(runs), old(info[..])) == {}
    {
      hide *;
      ghost var before, entries, words := runs, info[..], freeMap[..];
      Bounds(this);
      SweepStarts(this);
      Placed(this);
      collected := 0;
      var i := 1;
      while i < freeTail
        invariant Valid() && 1 <= i <= 512 && info.Length == 512 && freeMap.Length == 8
        invariant Passed(runs, i) && Swept(before, entries, runs, info[..], i)
        invariant num == old(num)
        invariant collected == freePages - old(freePages)
        decreases 512 - i
      {
        TailBound(this);
        var used := IsSet(freeMap, i);
        if used {
          AtRun(this, i);
          ghost var held, middle := runs, info[..];
          match info[i] {
            case Srun(bin, counter) =>
              if counter == Elements(bin) {
                // all elements are free
                Release(i, BinPages(bin));
                SweptReleased(before, entries, held, middle, i, bin);
                collected := collected + BinPages(bin);
              } else {
                // reset counter
                SetCounter(i, bin, 0);
                SweptReset(before, entries, held, middle, i, bin);
              }
              i := i + BinPages(bin);
            case Lrun(count) =>
              SweptLarge(before, entries, held, middle, i, count);
              i := i + count;
          }
        } else {
          NotRun(this, i);
          SweptFree(before, entries, runs, info[..], i);
          i := i + 1;
        }
      }
      SweepEnds(this, before, entries, i);
      MarkedAreRuns(before, entries);
      Bounds(this);
      Gained(words, old(freePages), before, freeMap[..], freePages, Marked(before, entries));
      GainedPages(words, old(freePages), before, freeMap[..], freePages, Marked(before, entries));
    }

    /** zend_mm_chunk_init on memory whose bitmap is clear behind the header page. */
    method Initialize()
      requires freeMap.Length == 8 && info.Length == PAGES && Members(freeMap[..]) <= {0}
      modifies this, freeMap, info
      ensures Valid() && runs == map[] && freePages == PAGES - 1 && freeTail == 1 && num == old(num)
      ensures info[..] == old(info[..])[0 := Lrun(1)]
    {
      ghost var words := freeMap[..];
      freePages := PAGES - 1;
      freeTail := 1;
      freeMap[0] := 1;
      info[0] := Lrun(1);
      runs := map[];
      InitKeeps(words, freeMap[..], info[..]);
    }

    // The chunk's header is filled with zeros.
    method Wipe()
      requires freeMap.Length == 8 && info.Length == PAGES
      modifies this, freeMap, info
      ensures Members(freeMap[..]) == {} && num == 0
    {
      freePages, freeTail, num, runs := 0, 0, 0, map[];
      forall i | 0 <= i < info.Length { info[i] := Frun; }
      forall i | 0 <= i < freeMap.Length { freeMap[i] := 0; }
      ZeroWords(freeMap[..]);
    }

    // A chunk that the operating system has just mapped: all zero.
    constructor (number: nat)
      ensures this.number == number && fresh(freeMap) && fresh(info)
      ensures freeMap.Length == 8 && info.Length == PAGES && Members(freeMap[..]) == {} && num == 0
    {
      this.number := number;
      freeMap := new bv64[8](i => 0);
      info := new PageInfo[PAGES](i => Frun);
      freePages, freeTail, num, runs := 0, 0, 0, map[];
      new;
      ZeroWords(freeMap[..]);
    }
  }

  // A method hides the invariant's definition and looks at it only here.
  lemma Bounds(c: Chunk)
    requires c.Valid()
    ensures c.freeMap.Length == 8 && c.info.Length == PAGES == 512 && c.freeMap as object != c.info as object
    ensures MapOk(c.freeMap[..], c.freePages, Lengths(c.runs))
    ensures Consistent(c.freeMap[..], c.info[..], c.freePages, c.freeTail, c.runs)
  {}

  lemma Revalidate(c: Chunk)
    requires Consistent(c.freeMap[..], c.info[..], c.freePages, c.freeTail, c.runs)
    ensures c.Valid()
  {}

  lemma VacantFree(words: seq<bv64>, freePages: int, spans: map<nat, nat>, page: nat, count: nat)
    requires MapOk(words, freePages, spans) && Vacant(spans, page, count)
    ensures page + count <= PAGES && count <= freePages
  {
    hide MapOk, Pages;
    RoomFor(words, freePages, spans, page, count);
  }

  lemma RoomFor(words: seq<bv64>, freePages: int, spans: map<nat, nat>, page: nat, count: nat)
    requires MapOk(words, freePages, spans) && 1 <= page && page + count <= PAGES
      && Interval(page, count) !! Pages(spans)
    ensures count <= freePages
  {
    hide At, Pages, Interval;
    var all := Interval(0, PAGES);
    assert forall i :: i in Interval(page, count) ==> i > 0;
    Joined(Members(words), Interval(page, count));
    Subset(Members(words) + Interval(page, count), all);
  }

  lemma EntryOf(c: Chunk, page: nat)
    requires c.Valid() && page in c.runs && c.runs[page].Large?
    ensures page < c.info.Length && c.info[page] == Lrun(c.runs[page].pages)
  {
    hide Members;
    assert Described(c.info[..], page, c.runs[page]);
  }

  lemma LengthSmall(bin: Bin)
    ensures Length(Small(bin)) == BinPages(bin) > 0
  {
    BinFacts(bin);
  }

  lemma SmallDescribed(info: seq<PageInfo>, page: nat, bin: Bin)
    requires page + BinPages(bin) <= |info| && 0 < BinPages(bin) && info[page] == Srun(bin, 0)
    requires forall i :: 1 <= i < BinPages(bin) ==> info[page + i] == Nrun(bin, i)
    ensures Described(info, page, Small(bin))
  {}

  lemma FreeIsVacant(words: seq<bv64>, freePages: int, spans: map<nat, nat>, page: nat, count: nat)
    requires MapOk(words, freePages, spans) && 1 <= page
    ensures Members(words) !! Interval(page, count) <==> Interval(page, count) !! Pages(spans)
  {
    hide Members, Pages, Interval;
    assert 0 !in Interval(page, count);
  }

  lemma ZeroWords(words: seq<bv64>)
    requires forall i :: 0 <= i < |words| ==> words[i] == 0
    ensures Members(words) == {}
  {
    hide Bit;
    forall i: nat | i < 64 * |words| ensures !At(words, i) { BitExtremes(i % 64); }
  }

  lemma InitKeeps(words: seq<bv64>, words': seq<bv64>, info: seq<PageInfo>)
    requires |words| == 8 && Members(words) <= {0} && words' == words[0 := 1]
    requires |info| == PAGES
    ensures Consistent(words', info, PAGES - 1, 1, map[])
  {
    hide Bit;
    assert Lengths(map[]) == map[];
    forall i: nat | i < 512 ensures At(words', i) <==> i == 0 {
      assert i in Members(words) <==> At(words, i);
      OneWord(i % 64);
    }
    assert Members(words') == {0};
    assert Pages(map[]) == {};
  }

  lemma OneWord(k: nat)
    requires k < 64
    ensures Bit(1, k) <==> k == 0
  {
    assert One(0) == 1;
    BitOne(0, k);
  }

  /** A chunk has all its pages but the header free exactly when it holds no run; this is what makes it deleted. */
  lemma EmptyChunk(c: Chunk)
    requires c.Valid()
    ensures c.runs == map[] <==> c.freePages == PAGES - 1
    ensures c.runs == map[] ==> Members(c.freeMap[..]) == {0}
  {
    var spans, words := Lengths(c.runs), Members(c.freeMap[..]);
    if c.runs == map[] {
      assert Pages(spans) == {};
      assert words == {0};
    } else {
      var s :| s in c.runs;
      InLengths(c.runs, s);
      assert Covered(spans, s);
      assert s in words && 0 in words;
      Subset({0, s}, words);
    }
  }

  lemma CounterKeeps(words: seq<bv64>, info: seq<PageInfo>, freePages: int, freeTail: nat, runs: map<nat, Run>,
                     page: nat, bin: Bin, counter: nat)
    requires Consistent(words, info, freePages, freeTail, runs) && page in runs && runs[page] == Small(bin)
    ensures page < |info| && Consistent(words, info[page := Srun(bin, counter)], freePages, freeTail, runs)
  {
    RunsApart(runs, page);
    hide MapOk, WellPlaced, TailOk, Length, Lengths;
    assert Described(info, page, runs[page]);
    LengthSmall(bin);
    var info' := info[page := Srun(bin, counter)];
    assert Described(info', page, Small(bin)) by { hide BinPages; }
    EntriesRewritten(info, info', runs, page, 1, Small(bin));
    assert runs[page := Small(bin)] == runs;
  }

  lemma SweepStarts(c: Chunk)
    requires c.Valid()
    ensures Passed(c.runs, 1) && Swept(c.runs, c.info[..], c.runs, c.info[..], 1)
  {
    hide MapOk, EntriesOk, Length;
    forall p | p in c.runs ensures 1 <= p { InLengths(c.runs, p); }
    assert (set p | p in Marked(c.runs, c.info[..]) && p < 1) == {};
  }

  lemma Placed(c: Chunk)
    requires c.Valid()
    ensures WellPlaced(Lengths(c.runs)) && MapOk(c.freeMap[..], c.freePages, Lengths(c.runs))
  {}

  lemma MarkedAreRuns(runs: map<nat, Run>, info: seq<PageInfo>)
    ensures Marked(runs, info) <= runs.Keys
  {}

  // Taking runs away frees pages, unless there are none to take.
  lemma Gained(words: seq<bv64>, freePages: int, runs: map<nat, Run>, words': seq<bv64>, freePages': int,
               gone: set<nat>)
    requires WellPlaced(Lengths(runs)) && MapOk(words, freePages, Lengths(runs))
    requires MapOk(words', freePages', Lengths(runs - gone)) && gone <= runs.Keys
    ensures freePages' == freePages <==> gone == {}
  {
    hide *;
    MapParts(words, freePages, Lengths(runs));
    MapParts(words', freePages', Lengths(runs - gone));
    if gone == {} {
      assert runs - gone == runs;
    } else {
      var p :| p in gone;
      InLengths(runs, p);
      LengthsWithout(runs, gone);
      FewerPages(Lengths(runs), gone, p);
      assert p in Members(words) && p !in Members(words');
      Subset(Members(words') + {p}, Members(words));
    }
  }

  // They free exactly their pages.
  lemma GainedPages(words: seq<bv64>, freePages: int, runs: map<nat, Run>, words': seq<bv64>, freePages': int,
                    gone: set<nat>)
    requires WellPlaced(Lengths(runs)) && MapOk(words, freePages, Lengths(runs))
    requires MapOk(words', freePages', Lengths(runs - gone)) && gone <= runs.Keys
    ensures freePages' - freePages == |PagesOf(runs, gone)|
  {
    hide *;
    MapParts(words, freePages, Lengths(runs));
    MapParts(words', freePages', Lengths(runs - gone));
    PagesLeave(runs, gone);
    SizeLeft({0}, Pages(Lengths(runs)), Pages(Lengths(runs - gone)), PagesOf(runs, gone));
  }

  lemma SizeLeft(header: set<nat>, all: set<nat>, rest: set<nat>, out: set<nat>)
    requires all == rest + out && out !! header + rest
    ensures |header + all| == |header + rest| + |out|
  {
    assert header + all == (header + rest) + out;
    Joined(header + rest, out);
  }

  lemma PagesLeave(runs: map<nat, Run>, gone: set<nat>)
    requires WellPlaced(Lengths(runs)) && gone <= runs.Keys
    ensures Pages(Lengths(runs)) == Pages(Lengths(runs - gone)) + PagesOf(runs, gone)
    ensures PagesOf(runs, gone) !! {0} + Pages(Lengths(runs - gone))
  {
    hide Length, Lengths, Covered, InRuns, WellPlaced;
    var all, rest := Lengths(runs), Lengths(runs - gone);
    forall p: nat | p < PAGES
      ensures (Covered(all, p) <==> Covered(rest, p) || InRuns(runs, gone, p))
        && (InRuns(runs, gone, p) ==> p != 0 && !Covered(rest, p))
    {
      PageLeaves(runs, gone, p);
      if InRuns(runs, gone, p) { PageNotKept(runs, gone, p); }
    }
  }

  lemma PageLeaves(runs: map<nat, Run>, gone: set<nat>, p: nat)
    requires gone <= runs.Keys
    ensures Covered(Lengths(runs), p) <==> Covered(Lengths(runs - gone), p) || InRuns(runs, gone, p)
  {
    hide Length;
    var all, rest := Lengths(runs), Lengths(runs - gone);
    if Covered(all, p) {
      var s :| s in all && s <= p < s + all[s];
      if s !in gone { assert s in rest && rest[s] == all[s]; }
    }
    if Covered(rest, p) {
      var s :| s in rest && s <= p < s + rest[s];
      assert s in all && rest[s] == all[s];
    }
    if InRuns(runs, gone, p) {
      var s :| s in gone && s in runs && s <= p < s + Length(runs[s]);
      assert s in all && all[s] == Length(runs[s]);
    }
  }

  lemma PageNotKept(runs: map<nat, Run>, gone: set<nat>, p: nat)
    requires WellPlaced(Lengths(runs)) && InRuns(runs, gone, p)
    ensures p != 0 && !Covered(Lengths(runs - gone), p)
  {
    hide Length;
    var all, rest := Lengths(runs), Lengths(runs - gone);
    assert forall t :: t in rest ==> t in all && t !in gone && rest[t] == all[t];
    var s :| s in gone && s in runs && s <= p < s + Length(runs[s]);
    assert s in all && all[s] == Length(runs[s]);
  }

  lemma MapParts(words: seq<bv64>, freePages: int, spans: map<nat, nat>)
    requires MapOk(words, freePages, spans)
    ensures Members(words) == {0} + Pages(spans) && freePages == 512 - |Members(words)|
  {}

  lemma LengthsWithout(runs: map<nat, Run>, gone: set<nat>)
    ensures Lengths(runs - gone) == Lengths(runs) - gone
  {
    hide Length;
  }

  lemma TailBound(c: Chunk)
    requires c.Valid()
    ensures c.freeTail <= 512
  {}

  // An allocated page that no run reaches over starts a run, and its entry says which.
  lemma AtRun(c: Chunk, i: nat)
    requires c.Valid() && Passed(c.runs, i) && 1 <= i < c.info.Length && i in Members(c.freeMap[..])
    ensures i in c.runs && 0 < Length(c.runs[i]) && i + Length(c.runs[i]) <= 512 && WellPlaced(Lengths(c.runs))
    ensures match c.info[i]
            case Lrun(count) => c.runs[i] == Large(count) && Length(c.runs[i]) == count
            case Srun(bin, _) => c.runs[i] == Small(bin) && Length(c.runs[i]) == BinPages(bin)
            case _ => false
  {
    var spans := Lengths(c.runs);
    hide Members, BinPages;
    assert i in Pages(spans);
    var s :| s in spans && s <= i < s + spans[s];
    InLengths(c.runs, s);
    assert s == i;
    RunsApart(c.runs, i);
    assert Described(c.info[..], i, c.runs[i]);
  }

  lemma RunUsed(c: Chunk, i: nat)
    requires c.Valid() && i in c.runs
    ensures i in Members(c.freeMap[..])
  {
    hide Members, Length;
    InLengths(c.runs, i);
    assert Covered(Lengths(c.runs), i);
  }

  lemma NotRun(c: Chunk, i: nat)
    requires c.Valid() && i !in Members(c.freeMap[..])
    ensures i !in c.runs
  {
    hide *;
    if i in c.runs { RunUsed(c, i); }
  }

  lemma PassedOn(runs: map<nat, Run>, i: nat, runs': map<nat, Run>)
    requires WellPlaced(Lengths(runs)) && Passed(runs, i) && i in runs
    requires forall s :: s in runs' ==> s in runs && runs'[s] == runs[s]
    ensures Passed(runs', i + Length(runs[i]))
    ensures forall s :: s in runs && i < s ==> i + Length(runs[i]) <= s
  {
    RunsApart(runs, i);
    hide Length;
  }

  // The next run is one that a sweep keeps, with its counter reset if it is small.
  lemma SweptKept(before: map<nat, Run>, entries: seq<PageInfo>, held: map<nat, Run>, middle: seq<PageInfo>,
                  info: seq<PageInfo>, i: nat)
    requires WellPlaced(Lengths(held)) && Passed(held, i) && Swept(before, entries, held, middle, i)
    requires i in held && i < |middle| && i !in Marked(before, entries)
    requires info == middle || (held[i].Small? && info == middle[i := Srun(held[i].bin, 0)])
    requires held[i].Small? ==> info[i] == Srun(held[i].bin, 0)
    ensures Passed(held, i + Length(held[i])) && Swept(before, entries, held, info, i + Length(held[i]))
  {
    hide Length, Marked, Lengths, Passed, WellPlaced;
    PassedOn(held, i, held);
    MarkedBelow(before, entries, held, middle, i);
    StartsBelow(held, i);
    HasLength(held, i);
  }

  lemma HasLength(runs: map<nat, Run>, i: nat)
    requires WellPlaced(Lengths(runs)) && i in runs
    ensures 0 < Length(runs[i])
  {
    hide Length;
    assert i in Lengths(runs);
  }

  // Nothing starts inside a run.
  lemma StartsBelow(runs: map<nat, Run>, i: nat)
    requires WellPlaced(Lengths(runs)) && i in runs
    ensures forall p :: p in runs && p < i + Length(runs[i]) ==> p <= i
  {
    hide Length;
    forall p | p in runs && p < i + Length(runs[i]) ensures p <= i {
      assert p in Lengths(runs) && i in Lengths(runs);
    }
  }

  lemma MarkedBelow(before: map<nat, Run>, entries: seq<PageInfo>, held: map<nat, Run>, info: seq<PageInfo>, i: nat)
    requires WellPlaced(Lengths(held)) && Swept(before, entries, held, info, i)
    requires i in held && i !in Marked(before, entries)
    ensures (set p | p in Marked(before, entries) && p < i + Length(held[i]))
      == (set p | p in Marked(before, entries) && p < i)
  {
    hide Length;
    StartsBelow(held, i);
    forall p | p in Marked(before, entries) && p < i + Length(held[i]) ensures p < i {
      assert p < i || p in held;
    }
  }

  lemma SweptReleased(before: map<nat, Run>, entries: seq<PageInfo>, held: map<nat, Run>, middle: seq<PageInfo>, i: nat,
                      bin: Bin)
    requires WellPlaced(Lengths(held)) && Passed(held, i) && Swept(before, entries, held, middle, i)
    requires i in held && held[i] == Small(bin) && i < |middle| && middle[i] == Srun(bin, Elements(bin))
    ensures Passed(held - {i}, i + BinPages(bin))
      && Swept(before, entries, held - {i}, middle[i := Frun], i + BinPages(bin))
  {
    PassedOn(held, i, held - {i});
    assert Length(held[i]) == BinPages(bin) > 0 by { LengthSmall(bin); }
    hide Length, Elements, BinPages;
    var next := i + BinPages(bin);
    assert i in Marked(before, entries);
    forall p | p in Marked(before, entries) && p < next ensures p <= i { assert p < i || p in held; }
    assert (set p | p in Marked(before, entries) && p < next) == (set p | p in Marked(before, entries) && p < i) + {i};
  }

  lemma SweptReset(before: map<nat, Run>, entries: seq<PageInfo>, held: map<nat, Run>, middle: seq<PageInfo>, i: nat,
                   bin: Bin)
    requires WellPlaced(Lengths(held)) && Passed(held, i) && Swept(before, entries, held, middle, i)
    requires i in held && held[i] == Small(bin) && i < |middle| && middle[i] != Srun(bin, Elements(bin))
    ensures Passed(held, i + BinPages(bin))
      && Swept(before, entries, held, middle[i := Srun(bin, 0)], i + BinPages(bin))
  {
    assert Length(held[i]) == BinPages(bin) by { LengthSmall(bin); }
    hide Length, Elements, BinPages;
    SweptKept(before, entries, held, middle, middle[i := Srun(bin, 0)], i);
  }

  lemma SweptLarge(before: map<nat, Run>, entries: seq<PageInfo>, held: map<nat, Run>, middle: seq<PageInfo>, i: nat,
                   count: nat)
    requires WellPlaced(Lengths(held)) && Passed(held, i) && Swept(before, entries, held, middle, i)
    requires i in held && held[i] == Large(count) && i < |middle|
    ensures Passed(held, i + count) && Swept(before, entries, held, middle, i + count)
  {
    LengthLarge(count);
    hide Length;
    SweptKept(before, entries, held, middle, middle, i);
  }

  lemma SweptFree(before: map<nat, Run>, entries: seq<PageInfo>, runs: map<nat, Run>, info: seq<PageInfo>, i: nat)
    requires Passed(runs, i) && Swept(before, entries, runs, info, i) && i !in runs
    ensures Passed(runs, i + 1) && Swept(before, entries, runs, info, i + 1)
  {
    hide Length;
    assert (set p | p in Marked(before, entries) && p < i + 1) == (set p | p in Marked(before, entries) && p < i) by {
      assert i in Marked(before, entries) ==> i in runs;
    }
  }

  lemma SweepEnds(c: Chunk, before: map<nat, Run>, entries: seq<PageInfo>, i: nat)
    requires c.Valid() && c.freeTail <= i && Swept(before, entries, c.runs, c.info[..], i)
    ensures c.runs == before - Marked(before, entries) && Quiet(c.runs, c.info[..])
  {
    hide MapOk, EntriesOk, Length;
    forall p | p in c.runs ensures p < i { InLengths(c.runs, p); }
    var kept := c.runs;
    forall p | p in Marked(before, entries) ensures p < i { assert p < i || p in kept; }
    assert (set p | p in Marked(before, entries) && p < i) == Marked(before, entries);
  }
}
