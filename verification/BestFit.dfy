/** The word-at-a-time best-fit search of zend_mm_alloc_pages over one chunk's bitmap. */
module BestFit {
  import opened Words
  import opened Bitset

  // Pages p .. p+len-1 are all free.
  ghost predicate Free(words: seq<bv64>, p: nat, len: nat)
  {
    p + len <= 64 * |words| && forall i :: p <= i < p + len ==> !At(words, i)
  }

  // A free run that cannot be extended on either side.
  ghost predicate MaximalRun(words: seq<bv64>, p: nat, len: nat)
  {
    && 0 < len && Free(words, p, len)
    && (p == 0 || At(words, p - 1))
    && (p + len == 64 * |words| || At(words, p + len))
  }

  // Page p starts the leftmost of the shortest maximal free runs that hold count pages.
  ghost predicate BestFitAt(words: seq<bv64>, count: nat, p: nat)
  {
    exists len: nat :: BestRun(words, count, p, len)
  }

  ghost predicate BestRun(words: seq<bv64>, count: nat, p: nat, len: nat)
  {
    && MaximalRun(words, p, len) && count <= len
    && forall q: nat, m: nat :: MaximalRun(words, q, m) && count <= m ==> len < m || (len == m && p <= q)
  }

  ghost predicate NoFit(words: seq<bv64>, count: nat)
  {
    forall q: nat, m: nat :: MaximalRun(words, q, m) ==> m < count
  }

  // Every allocated page from tail on is joined to page tail-1 by allocated pages.
  ghost predicate Straddles(words: seq<bv64>, tail: nat)
  {
    && 1 <= tail <= 64 * |words|
    && forall a, b :: tail - 1 <= a <= b && tail <= b < 64 * |words| && At(words, b) ==> At(words, a)
  }

  ghost predicate FreeFrom(words: seq<bv64>, tail: nat)
  {
    forall b :: tail <= b < 64 * |words| ==> !At(words, b)
  }

  // What the search knows when every maximal run that ends before pos has been looked at.
  ghost predicate BestBefore(words: seq<bv64>, count: nat, best: int, bestLen: nat, pos: nat)
  {
    if best < 0 then
      && bestLen == 64 * |words|
      && forall q: nat, m: nat :: MaximalRun(words, q, m) && q + m < pos ==> m < count
    else
      && MaximalRun(words, best, bestLen) && count < bestLen && best + bestLen < pos
      && forall q: nat, m: nat :: MaximalRun(words, q, m) && q + m < pos && count <= m ==>
        bestLen < m || (bestLen == m && best <= q)
  }

  // Working word i/64 of a scan that has passed all positions below pos; passed ones read as set or as clear.
  ghost predicate Working(words: seq<bv64>, tmp: bv64, i: nat, pos: nat, passed: bool)
  {
    && i % 64 == 0 && i < 64 * |words|
    && forall k :: 0 <= k < 64 ==> Bit(tmp, k) == if i + k < pos then passed else At(words, i + k)
  }

  lemma Loaded(words: seq<bv64>, i: nat, pos: nat, passed: bool)
    requires i % 64 == 0 && i < 64 * |words| && pos <= i
    ensures Working(words, words[i / 64], i, pos, passed)
  {
    hide Bit;
  }

  // After the trailing ones: page_num is the first free page from pos on, and the cleared word continues the scan.
  lemma FirstFree(words: seq<bv64>, tmp: bv64, i: nat, pos: nat)
    requires Working(words, tmp, i, pos, true) && i <= pos && tmp != ALL_ONES
    requires 0 < pos <= 64 * |words| && At(words, pos - 1)
    ensures var page := i + TrailingOnes(tmp);
      && pos <= page < i + 64 && !At(words, page) && At(words, page - 1)
      && (forall j :: pos <= j < page ==> At(words, j))
      && Working(words, DropOnes(tmp), i, page, false)
  {
    hide Bit, TrailingOnes, DropOnes, At;
    var n := TrailingOnes(tmp);
    TrailingOnesCounts(tmp);
    assert !Bit(tmp, n);
    forall j | pos <= j < i + n ensures At(words, j) { assert Bit(tmp, j - i); }
    var cleared := DropOnes(tmp);
    forall k | 0 <= k < 64 ensures Bit(cleared, k) == if i + k < i + n then false else At(words, i + k) {
      ClearTrailingOnes(tmp, k);
    }
  }

  // After the trailing zeros: the page that ends the free run, and the filled word continues the scan.
  lemma FirstUsed(words: seq<bv64>, tmp: bv64, i: nat, page: nat)
    requires Working(words, tmp, i, page, false) && page < i + 64 && tmp != 0
    ensures var q := i + TrailingZeros(tmp);
      && page <= q < i + 64 && At(words, q)
      && (forall j :: i <= j && page <= j < q ==> !At(words, j))
      && Working(words, FillZeros(tmp), i, q, true)
  {
    hide Bit, TrailingZeros, FillZeros, At;
    var n := TrailingZeros(tmp);
    TrailingZerosCounts(tmp);
    var q := i + n;
    assert page <= q && At(words, q) by { assert Bit(tmp, n); }
    forall j | i <= j && page <= j < q ensures !At(words, j) { assert !Bit(tmp, j - i); }
    var filled := FillZeros(tmp);
    forall k | 0 <= k < 64 ensures Bit(filled, k) == if i + k < q then true else At(words, i + k) {
      FillTrailingZeros(tmp, k);
    }
  }

  lemma AllUsed(words: seq<bv64>, i: nat, pos: nat)
    requires Working(words, ALL_ONES, i, pos, true)
    ensures forall j :: pos <= j && i <= j < i + 64 ==> At(words, j)
  {
    hide Bit, At;
    forall j | pos <= j && i <= j < i + 64 ensures At(words, j) { BitExtremes(j - i); assert Bit(ALL_ONES, j - i); }
  }

  lemma AllFree(words: seq<bv64>, i: nat, page: nat)
    requires Working(words, 0, i, page, false)
    ensures forall j :: page <= j && i <= j < i + 64 ==> !At(words, j)
  {
    hide Bit, At;
    forall j | page <= j && i <= j < i + 64 ensures !At(words, j) { BitExtremes(j - i); assert !Bit(0, j - i); }
  }

  lemma NothingBefore(words: seq<bv64>, count: nat)
    requires 0 < |words| && At(words, 0)
    ensures Working(words, words[0], 0, 1, true)
    ensures BestBefore(words, count, -1, 64 * |words|, 1)
  {
    hide Bit;
    forall q: nat, m: nat | MaximalRun(words, q, m) ensures q + m >= 1 {}
  }

  // A maximal run cannot end strictly inside a used stretch, so passing one leaves the best run as it is.
  lemma PassUsed(words: seq<bv64>, count: nat, best: int, bestLen: nat, pos: nat, to: nat)
    requires BestBefore(words, count, best, bestLen, pos) && 0 < pos <= to <= 64 * |words|
    requires At(words, pos - 1) && forall j :: pos <= j < to ==> At(words, j)
    ensures BestBefore(words, count, best, bestLen, to)
  {
    hide At;
    forall q: nat, m: nat | MaximalRun(words, q, m) && q + m < to ensures q + m < pos {
      assert !At(words, q + m - 1);
    }
  }

  // The free run page .. q-1 is maximal, and it is the only one that ends from page+1 to q.
  lemma PassFree(words: seq<bv64>, count: nat, best: int, bestLen: nat, page: nat, q: nat)
    requires BestBefore(words, count, best, bestLen, page) && 0 < page < q <= 64 * |words|
    requires At(words, page - 1) && forall j :: page <= j < q ==> !At(words, j)
    requires q == 64 * |words| || At(words, q)
    ensures MaximalRun(words, page, q - page)
    ensures forall p: nat, m: nat :: MaximalRun(words, p, m) && p + m <= q ==>
      p + m < page || (p == page && m == q - page)
  {
    hide At;
    forall p: nat, m: nat | MaximalRun(words, p, m) && p + m <= q ensures p + m < page || (p == page && m == q - page) {
      assert p + m < q ==> At(words, p + m);
      assert 0 < p ==> At(words, p - 1);
      assert !At(words, p + m - 1);
    }
  }

  // Nothing is allocated behind a free stretch that reaches the tail.
  lemma FreeToEnd(words: seq<bv64>, tail: nat, page: nat, i: nat)
    requires page < i <= 64 * |words| && (forall j :: page <= j < i ==> !At(words, j))
    requires i == 64 * |words| || (Straddles(words, tail) && tail <= i)
    ensures FreeFrom(words, page)
  {
    hide At;
    forall b | page <= b < 64 * |words| ensures !At(words, b) {
      if i <= b { assert !At(words, i - 1); }
    }
  }

  lemma InFront(words: seq<bv64>, tail: nat, page: nat, q: nat)
    requires Straddles(words, tail) && page < q < 64 * |words| && !At(words, page) && At(words, q)
    ensures page < tail
  {
    hide At;
  }

  // The end of the scan, when no later run is left.
  lemma Conclude(words: seq<bv64>, count: nat, best: int, bestLen: nat, pos: nat)
    requires BestBefore(words, count, best, bestLen, pos)
    requires forall q: nat, m: nat :: MaximalRun(words, q, m) && count <= m ==> q + m < pos
    ensures best >= 0 ==> BestFitAt(words, count, best)
    ensures best < 0 ==> NoFit(words, count)
  {
    hide MaximalRun;
    if best >= 0 { assert BestRun(words, count, best, bestLen); }
  }

  lemma ConcludeUsed(words: seq<bv64>, count: nat, best: int, bestLen: nat)
    requires BestBefore(words, count, best, bestLen, 64 * |words|)
    requires 0 < |words| && At(words, 64 * |words| - 1)
    ensures best >= 0 ==> BestFitAt(words, count, best)
    ensures best < 0 ==> NoFit(words, count)
  {
    hide At;
    forall q: nat, m: nat | MaximalRun(words, q, m) ensures q + m < 64 * |words| { assert !At(words, q + m - 1); }
    Conclude(words, count, best, bestLen, 64 * |words|);
  }

  // The last free run, page to the end, is taken when it is long enough and strictly shorter than the best one.
  lemma ConcludeFree(words: seq<bv64>, count: nat, best: int, bestLen: nat, page: nat)
    requires BestBefore(words, count, best, bestLen, page) && 0 < page < 64 * |words|
    requires At(words, page - 1) && FreeFrom(words, page)
    ensures var len := 64 * |words| - page;
      if count <= len < bestLen then BestFitAt(words, count, page) && FreeFrom(words, page + count)
      else if best >= 0 then BestFitAt(words, count, best) && best < page else NoFit(words, count)
  {
    hide At;
    var len := 64 * |words| - page;
    PassFree(words, count, best, bestLen, page, 64 * |words|);
    forall q: nat, m: nat | MaximalRun(words, q, m) ensures q + m <= 64 * |words| {}
    hide MaximalRun;
    if count <= len < bestLen {
      assert BestRun(words, count, page, len);
    } else if best >= 0 {
      assert BestRun(words, count, best, bestLen);
    }
  }

  lemma ConcludeExact(words: seq<bv64>, count: nat, best: int, bestLen: nat, page: nat)
    requires BestBefore(words, count, best, bestLen, page) && 0 < page && page + count < 64 * |words|
    requires At(words, page - 1) && At(words, page + count) && 0 < count
    requires forall j :: page <= j < page + count ==> !At(words, j)
    ensures BestFitAt(words, count, page)
  {
    hide At;
    PassFree(words, count, best, bestLen, page, page + count);
    forall q: nat, m: nat | MaximalRun(words, q, m) && count <= m && q < page ensures count < m {
      assert At(words, page + count);
    }
    hide MaximalRun;
    assert BestRun(words, count, page, count);
  }

  // One maximal run further.
  lemma NextRun(words: seq<bv64>, count: nat, best: int, bestLen: nat, page: nat, q: nat)
    requires BestBefore(words, count, best, bestLen, page) && 0 < page < q < 64 * |words|
    requires At(words, page - 1) && At(words, q) && forall j :: page <= j < q ==> !At(words, j)
    requires q - page != count
    ensures var better := count < q - page < bestLen;
      BestBefore(words, count, if better then page else best, if better then q - page else bestLen, q + 1)
  {
    hide At;
    PassFree(words, count, best, bestLen, page, q);
    hide MaximalRun;
  }

  lemma WorkingNext(words: seq<bv64>, tmp: bv64, i: nat, q: nat)
    requires Working(words, tmp, i, q, true) && q < 64 * |words| && At(words, q)
    ensures Working(words, tmp, i, q + 1, true)
  {
    hide At, Bit;
  }

  // Skip allocated pages: to the next free page from pos on, or past the last word.
  method SkipUsed(freeMap: array<bv64>, word: bv64, start: nat, ghost pos: nat)
    returns (i: nat, tmp: bv64, page: nat)
    requires start % 64 == 0 && start < 64 * freeMap.Length && start <= pos <= start + 64
    requires 0 < pos <= 64 * freeMap.Length && At(freeMap[..], pos - 1) && Working(freeMap[..], word, start, pos, true)
    ensures page <= 64 * freeMap.Length && pos <= page && At(freeMap[..], page - 1)
    ensures forall j :: pos <= j < page ==> At(freeMap[..], j)
    ensures page < 64 * freeMap.Length ==>
      !At(freeMap[..], page) && Working(freeMap[..], tmp, i, page, false) && i % 64 == 0 && i <= page < i + 64
  {
    hide *;
    i, tmp := start, word;
    ghost var next := pos;
    while tmp == ALL_ONES
      invariant i % 64 == 0 && i < 64 * freeMap.Length && i <= next <= i + 64 && pos <= next
        && At(freeMap[..], next - 1)
      invariant Working(freeMap[..], tmp, i, next, true)
      invariant forall j :: pos <= j < next ==> At(freeMap[..], j)
      decreases 64 * freeMap.Length - i
    {
      AllUsed(freeMap[..], i, next);
      i := i + 64;
      next := i;
      if i == 64 * freeMap.Length {
        return i, tmp, i;
      }
      tmp := freeMap[i / 64];
      Loaded(freeMap[..], i, next, true);
    }
    FirstFree(freeMap[..], tmp, i, next);
    page := i + TrailingOnes(tmp);
    tmp := DropOnes(tmp);
  }

  // Skip free pages: to the allocated page that ends the free run at page, or up to the tail.
  method SkipFree(freeMap: array<bv64>, freeTail: nat, word: bv64, start: nat, page: nat)
    returns (i: nat, tmp: bv64, q: nat)
    requires start % 64 == 0 && start <= page < start + 64 && page < 64 * freeMap.Length
      && Straddles(freeMap[..], freeTail)
    requires Working(freeMap[..], word, start, page, false) && !At(freeMap[..], page)
    ensures page < q <= 64 * freeMap.Length
    ensures q == 64 * freeMap.Length ==> FreeFrom(freeMap[..], page)
    ensures q < 64 * freeMap.Length ==>
      && At(freeMap[..], q) && (forall j :: page <= j < q ==> !At(freeMap[..], j))
      && Working(freeMap[..], tmp, i, q, true) && i % 64 == 0 && i <= q < i + 64
  {
    hide *;
    i, tmp := start, word;
    while tmp == 0
      invariant i % 64 == 0 && i < 64 * freeMap.Length && page < i + 64
      invariant forall j :: page <= j < i ==> !At(freeMap[..], j)
      invariant Working(freeMap[..], tmp, i, page, false)
      decreases 64 * freeMap.Length - i
    {
      AllFree(freeMap[..], i, page);
      i := i + 64;
      if i >= freeTail || i == 64 * freeMap.Length {
        FreeToEnd(freeMap[..], freeTail, page, i);
        return i, tmp, 64 * freeMap.Length;
      }
      tmp := freeMap[i / 64];
      Loaded(freeMap[..], i, page, false);
    }
    FirstUsed(freeMap[..], tmp, i, page);
    q := i + TrailingZeros(tmp);
    tmp := FillZeros(tmp);
  }

  /** The best-fit search: found if and only if some free run holds count pages, and then at the leftmost of the
      shortest maximal ones, although the scan stops at the tail. Also the new tail. */
  method Search(freeMap: array<bv64>, freeTail: nat, count: nat) returns (found: bool, page: nat, tail: nat)
    requires 0 < count && 0 < freeMap.Length
    requires At(freeMap[..], 0) && Straddles(freeMap[..], freeTail)
    ensures found ==> BestFitAt(freeMap[..], count, page) && 0 < page < tail
    ensures !found ==> NoFit(freeMap[..], count)
    ensures tail == freeTail || (1 <= tail <= 64 * freeMap.Length && FreeFrom(freeMap[..], tail))
    ensures tail != freeTail ==> At(freeMap[..], tail - 1) || (found && tail == page + count)
    ensures !found && !At(freeMap[..], 64 * freeMap.Length - 1) ==>
      1 <= tail && At(freeMap[..], tail - 1) && FreeFrom(freeMap[..], tail)
  {
    hide *;
    var pages := 64 * freeMap.Length;
    ghost var words := freeMap[..];
    var best: int, bestLen: nat := -1, pages;
    var i: nat := 0;
    var tmp := freeMap[0];
    ghost var pos := 1;
    NothingBefore(words, count);
    while true
      invariant i % 64 == 0 && i < pos <= i + 64 && pos <= pages && At(words, pos - 1)
      invariant i < pages && Working(words, tmp, i, pos, true)
      invariant BestBefore(words, count, best, bestLen, pos)
      invariant best >= 0 ==> 0 < best < freeTail
      decreases pages - pos
    {
      i, tmp, page := SkipUsed(freeMap, tmp, i, pos);
      PassUsed(words, count, best, bestLen, pos, page);
      if page == pages {
        ConcludeUsed(words, count, best, bestLen);
        return best > 0, if best > 0 then best else 0, freeTail;
      }
      var q;
      i, tmp, q := SkipFree(freeMap, freeTail, tmp, i, page);
      var len := q - page;
      if q == pages {
        ConcludeFree(words, count, best, bestLen, page);
        if len >= count && len < bestLen {
          return true, page, page + count;
        } else {
          // set accurate value
          return best > 0, if best > 0 then best else 0, page;
        }
      }
      InFront(words, freeTail, page, q);
      if len >= count {
        if len == count {
          ConcludeExact(words, count, best, bestLen, page);
          return true, page, freeTail;
        }
        NextRun(words, count, best, bestLen, page, q);
        if len < bestLen {
          bestLen, best := len, page;
        }
      } else {
        NextRun(words, count, best, bestLen, page, q);
      }
      WorkingNext(words, tmp, i, q);
      pos := q + 1;
    }
  }

  // ---- what the answers mean ----

  lemma {:induction false} ExtendLeft(words: seq<bv64>, p: nat, len: nat) returns (q: nat)
    requires Free(words, p, len)
    ensures q <= p && Free(words, q, p + len - q) && (q == 0 || At(words, q - 1))
    decreases p
  {
    hide At;
    if p == 0 || At(words, p - 1) {
      q := p;
    } else {
      q := ExtendLeft(words, p - 1, len + 1);
    }
  }

  lemma {:induction false} ExtendRight(words: seq<bv64>, p: nat, len: nat) returns (m: nat)
    requires Free(words, p, len)
    ensures len <= m && Free(words, p, m) && (p + m == 64 * |words| || At(words, p + m))
    decreases 64 * |words| - p - len
  {
    hide At;
    if p + len == 64 * |words| || At(words, p + len) {
      m := len;
    } else {
      m := ExtendRight(words, p, len + 1);
    }
  }

  // Free pages in a row belong to a maximal run.
  lemma InMaximalRun(words: seq<bv64>, p: nat, len: nat) returns (q: nat, m: nat)
    requires Free(words, p, len) && 0 < len
    ensures MaximalRun(words, q, m) && len <= m
  {
    hide At;
    q := ExtendLeft(words, p, len);
    m := ExtendRight(words, q, p + len - q);
  }

  /** The search fails exactly when no place has count free pages in a row. */
  lemma NoFitMeansNone(words: seq<bv64>, count: nat)
    requires 0 < count
    ensures NoFit(words, count) <==> forall p: nat :: !Free(words, p, count)
  {
    hide At;
    if NoFit(words, count) {
      forall p: nat ensures !Free(words, p, count) {
        if Free(words, p, count) { var q, m := InMaximalRun(words, p, count); }
      }
    } else {
      var q: nat, m: nat :| MaximalRun(words, q, m) && count <= m;
      assert Free(words, q, count);
    }
  }

  /** There is one best fit, and it has room. */
  lemma BestFitUnique(words: seq<bv64>, count: nat, p: nat, q: nat)
    requires BestFitAt(words, count, p) && BestFitAt(words, count, q)
    ensures p == q && Free(words, p, count) && !NoFit(words, count)
  {
    hide At;
    var m: nat :| BestRun(words, count, p, m);
    var n: nat :| BestRun(words, count, q, n);
  }
}
