/** The page bitmap as an array of machine words, updated in place, against the set of page numbers it stands for. */
module Bitset {
  import opened Words

  ghost predicate At(words: seq<bv64>, i: nat)
    requires i < 64 * |words|
  {
    Bit(words[i / 64], i % 64)
  }

  // The numbers whose bit is set.
  ghost function Members(words: seq<bv64>): (s: set<nat>)
    ensures forall i: nat :: i in s <==> i < 64 * |words| && At(words, i)
  {
    set i: nat | 0 <= i < 64 * |words| && At(words, i)
  }

  function Interval(start: nat, len: nat): (s: set<nat>)
    ensures forall i: nat :: i in s <==> start <= i < start + len
    ensures |s| == len
  {
    if len == 0 then {} else Interval(start, len - 1) + {start + len - 1}
  }

  // Word p, was w and is now v: its bits in the range start .. start+len-1 were raised (lowered), the others kept.
  ghost predicate Raised(w: bv64, v: bv64, p: nat, start: nat, len: nat)
  {
    forall k :: 0 <= k < 64 ==> Bit(v, k) == (Bit(w, k) || start <= 64 * p + k < start + len)
  }

  ghost predicate Lowered(w: bv64, v: bv64, p: nat, start: nat, len: nat)
  {
    forall k :: 0 <= k < 64 ==> Bit(v, k) == (Bit(w, k) && !(start <= 64 * p + k < start + len))
  }

  lemma RaisedMembers(before: seq<bv64>, after: seq<bv64>, start: nat, len: nat)
    requires |before| == |after| && start + len <= 64 * |after|
    requires forall p :: 0 <= p < |after| ==> Raised(before[p], after[p], p, start, len)
    ensures Members(after) == Members(before) + Interval(start, len)
  {
    hide Bit;
    forall i: nat ensures i in Members(after) <==> i in Members(before) + Interval(start, len) {
      if i < 64 * |after| {
        assert Raised(before[i / 64], after[i / 64], i / 64, start, len);
        assert i == 64 * (i / 64) + i % 64;
      }
    }
  }

  lemma LoweredMembers(before: seq<bv64>, after: seq<bv64>, start: nat, len: nat)
    requires |before| == |after| && start + len <= 64 * |after|
    requires forall p :: 0 <= p < |after| ==> Lowered(before[p], after[p], p, start, len)
    ensures Members(after) == Members(before) - Interval(start, len)
  {
    hide Bit;
    forall i: nat ensures i in Members(after) <==> i in Members(before) - Interval(start, len) {
      if i < 64 * |after| {
        assert Lowered(before[i / 64], after[i / 64], i / 64, start, len);
        assert i == 64 * (i / 64) + i % 64;
      }
    }
  }

  // A mask with exactly the bits lo..hi set, raised into or cut out of a word.
  ghost predicate MaskOf(mask: bv64, lo: nat, hi: nat)
  {
    forall k :: 0 <= k < 64 ==> Bit(mask, k) == (lo <= k <= hi)
  }

  lemma RaiseByMask(w: bv64, mask: bv64, lo: nat, hi: nat)
    requires MaskOf(mask, lo, hi)
    ensures forall k :: 0 <= k < 64 ==> Bit(Or(w, mask), k) == (Bit(w, k) || lo <= k <= hi)
  {
    hide Bit, Or;
    forall k | 0 <= k < 64 ensures Bit(Or(w, mask), k) == (Bit(w, k) || lo <= k <= hi) { BitOr(w, mask, k); }
  }

  lemma LowerByMask(w: bv64, mask: bv64, lo: nat, hi: nat)
    requires MaskOf(mask, lo, hi)
    ensures forall k :: 0 <= k < 64 ==> Bit(And(w, Not(mask)), k) == (Bit(w, k) && !(lo <= k <= hi))
  {
    hide Bit, And, Not;
    forall k | 0 <= k < 64 ensures Bit(And(w, Not(mask)), k) == (Bit(w, k) && !(lo <= k <= hi)) {
      BitNot(mask, k);
      BitAnd(w, Not(mask), k);
    }
  }

  lemma TestByMask(w: bv64, mask: bv64, lo: nat, hi: nat)
    requires MaskOf(mask, lo, hi)
    ensures And(w, mask) == 0 <==> forall k :: 0 <= k < 64 && lo <= k <= hi ==> !Bit(w, k)
  {
    hide Bit, And, TrailingZeros;
    var common := And(w, mask);
    forall k | 0 <= k < 64 ensures Bit(common, k) == (Bit(w, k) && lo <= k <= hi) { BitAnd(w, mask, k); }
    TrailingZerosCounts(common);
    if common == 0 {
      forall k | 0 <= k < 64 && lo <= k <= hi ensures !Bit(w, k) { BitExtremes(k); assert !Bit(common, k); }
      assert forall k :: 0 <= k < 64 && lo <= k <= hi ==> !Bit(w, k);
    } else {
      var k := TrailingZeros(common);
      assert Bit(common, k);
      assert 0 <= k < 64 && lo <= k <= hi && Bit(w, k);
      assert !forall k :: 0 <= k < 64 && lo <= k <= hi ==> !Bit(w, k);
    }
  }

  lemma Masks(lo: nat, hi: nat)
    requires lo <= hi < 64
    ensures MaskOf(OnesFrom(lo), lo, 63)
    ensures MaskOf(OnesTo(hi), 0, hi)
    ensures MaskOf(One(lo), lo, lo)
    ensures MaskOf(!(One(lo) - 1), lo, 63)
  {
    hide Bit, OnesFrom, OnesTo, One;
    forall k | 0 <= k < 64
      ensures Bit(OnesFrom(lo), k) == (lo <= k)
      ensures Bit(OnesTo(hi), k) == (k <= hi)
      ensures Bit(One(lo), k) == (k == lo)
    {
      BitOnesFrom(lo, k);
      BitOnesTo(hi, k);
      BitOne(lo, k);
    }
    FromOne(lo);
  }

  lemma MaskBoth(x: bv64, y: bv64, lo: nat, hi: nat)
    requires MaskOf(x, lo, 63) && MaskOf(y, 0, hi)
    ensures MaskOf(And(x, y), lo, hi)
  {
    hide Bit, And;
    forall k | 0 <= k < 64 ensures Bit(And(x, y), k) == (lo <= k <= hi) { BitAnd(x, y, k); }
  }

  lemma FromOne(n: nat)
    requires n < 64
    ensures !(One(n) - 1) == OnesFrom(n)
  {
    AmountOrder(n, 63);
    FromOneAt(Amount(n));
  }

  lemma FromOneAt(n: bv7)
    requires n < 64
    ensures !((1 << n) - 1) == ALL_ONES << n
  {}

  // The bits of word p that the range start .. start+len-1 covers are lo .. hi.
  ghost predicate Covers(start: nat, len: nat, p: nat, lo: int, hi: int)
  {
    forall k {:trigger Position(p, k)} :: 0 <= k < 64 ==> (start <= Position(p, k) < start + len <==> lo <= k <= hi)
  }

  function Position(p: nat, k: nat): nat { 64 * p + k }

  lemma RangeInWord(start: nat, len: nat, p: nat)
    requires len > 0
    ensures var first, last := start / 64, (start + len - 1) / 64;
      Covers(start, len, p, if p == first then start % 64 else if p < first then 64 else 0,
                            if p == last then (start + len - 1) % 64 else if p < last then 63 else -1)
  {}

  lemma WordSet(w: bv64, v: bv64, p: nat, start: nat, len: nat, lo: nat, hi: int)
    requires Covers(start, len, p, lo, hi)
    requires forall k :: 0 <= k < 64 ==> Bit(v, k) == (Bit(w, k) || lo <= k <= hi)
    ensures Raised(w, v, p, start, len)
  {
    hide Bit;
    forall k | 0 <= k < 64 ensures Bit(v, k) == (Bit(w, k) || start <= 64 * p + k < start + len) {
      assert Position(p, k) == 64 * p + k;
    }
  }

  lemma WordReset(w: bv64, v: bv64, p: nat, start: nat, len: nat, lo: nat, hi: int)
    requires Covers(start, len, p, lo, hi)
    requires forall k :: 0 <= k < 64 ==> Bit(v, k) == (Bit(w, k) && !(lo <= k <= hi))
    ensures Lowered(w, v, p, start, len)
  {
    hide Bit;
    forall k | 0 <= k < 64 ensures Bit(v, k) == (Bit(w, k) && !(start <= 64 * p + k < start + len)) {
      assert Position(p, k) == 64 * p + k;
    }
  }

  lemma Untouched(w: bv64, start: nat, len: nat, p: nat)
    requires 0 < len && (p < start / 64 || (start + len - 1) / 64 < p)
    ensures Raised(w, w, p, start, len) && Lowered(w, w, p, start, len)
  {
    hide Bit, Covers;
    RangeInWord(start, len, p);
    var lo, hi := if p < start / 64 then 64 else 0, if (start + len - 1) / 64 < p then -1 else 63;
    assert Covers(start, len, p, lo, hi);
    WordSet(w, w, p, start, len, lo, hi);
    WordReset(w, w, p, start, len, lo, hi);
  }

  // The bits of w that fall in the range are all clear.
  ghost predicate Clear(w: bv64, p: nat, start: nat, len: nat)
  {
    forall k {:trigger Position(p, k)} :: 0 <= k < 64 && start <= Position(p, k) < start + len ==> !Bit(w, k)
  }

  // ~((1 << n) - 1)
  function OnesAbove(n: nat): bv64
    requires n < 64
  {
    !(One(n) - 1)
  }

  // Applying the mask of a range's share of word p raises, lowers or tests exactly that share.
  lemma RaiseShare(w: bv64, mask: bv64, p: nat, start: nat, len: nat, lo: nat, hi: nat)
    requires Covers(start, len, p, lo, hi) && MaskOf(mask, lo, hi)
    ensures Raised(w, Or(w, mask), p, start, len)
  {
    hide Bit, Covers, MaskOf, Raised, Or;
    RaiseByMask(w, mask, lo, hi);
    WordSet(w, Or(w, mask), p, start, len, lo, hi);
  }

  lemma LowerShare(w: bv64, mask: bv64, p: nat, start: nat, len: nat, lo: nat, hi: nat)
    requires Covers(start, len, p, lo, hi) && MaskOf(mask, lo, hi)
    ensures Lowered(w, And(w, Not(mask)), p, start, len)
  {
    hide Bit, Covers, MaskOf, Lowered, And, Not;
    LowerByMask(w, mask, lo, hi);
    WordReset(w, And(w, Not(mask)), p, start, len, lo, hi);
  }

  lemma TestShare(w: bv64, mask: bv64, p: nat, start: nat, len: nat, lo: nat, hi: nat)
    requires Covers(start, len, p, lo, hi) && MaskOf(mask, lo, hi)
    ensures And(w, mask) == 0 <==> Clear(w, p, start, len)
  {
    hide Bit;
    TestByMask(w, mask, lo, hi);
    if w & mask == 0 {
      forall k | 0 <= k < 64 && start <= Position(p, k) < start + len ensures !Bit(w, k) {}
    } else {
      var k :| 0 <= k < 64 && lo <= k <= hi && Bit(w, k);
      assert start <= Position(p, k) < start + len;
    }
  }

  // The masks of the first word, the last word, the one word of a short range, and the one bit.
  lemma FirstMask(start: nat, len: nat)
    requires 0 < len && start / 64 < (start + len - 1) / 64
    ensures Covers(start, len, start / 64, start % 64, 63) && MaskOf(OnesFrom(start % 64), start % 64, 63)
    ensures MaskOf(OnesAbove(start % 64), start % 64, 63)
  {
    hide Bit, Covers, MaskOf, OnesFrom, One;
    RangeInWord(start, len, start / 64);
    Masks(start % 64, start % 64);
  }

  lemma MiddleMask(start: nat, len: nat, p: nat)
    requires 0 < len && start / 64 < p < (start + len - 1) / 64
    ensures Covers(start, len, p, 0, 63) && MaskOf(ALL_ONES, 0, 63)
  {
    hide Bit, Covers;
    RangeInWord(start, len, p);
    forall k | 0 <= k < 64 ensures Bit(ALL_ONES, k) { BitExtremes(k); }
  }

  lemma LastMask(start: nat, len: nat)
    requires 0 < len && start / 64 < (start + len - 1) / 64
    ensures var last := (start + len - 1) % 64;
      Covers(start, len, (start + len - 1) / 64, 0, last) && MaskOf(OnesTo(last), 0, last)
  {
    hide *;
    RangeInWord(start, len, (start + len - 1) / 64);
    Masks((start + len - 1) % 64, (start + len - 1) % 64);
  }

  lemma OnlyMask(start: nat, len: nat)
    requires 0 < len && start / 64 == (start + len - 1) / 64
    ensures var bit, last := start % 64, (start + len - 1) % 64;
      Covers(start, len, start / 64, bit, last) && MaskOf(And(OnesFrom(bit), OnesTo(last)), bit, last)
  {
    hide Bit, Covers, MaskOf, OnesFrom, OnesTo;
    RangeInWord(start, len, start / 64);
    Masks(start % 64, (start + len - 1) % 64);
    MaskBoth(OnesFrom(start % 64), OnesTo((start + len - 1) % 64), start % 64, (start + len - 1) % 64);
  }

  lemma OneMask(start: nat)
    ensures Covers(start, 1, start / 64, start % 64, start % 64) && MaskOf(One(start % 64), start % 64, start % 64)
  {
    hide *;
    RangeInWord(start, 1, start / 64);
    Masks(start % 64, start % 64);
  }

  lemma AllOnes(w: bv64)
    ensures Or(w, ALL_ONES) == ALL_ONES && And(w, Not(ALL_ONES)) == 0 && And(w, ALL_ONES) == w
  {}

  /** zend_mm_bitset_set_range: raises the bits start .. start+len-1 and no other. */
  method SetRange(bitset: array<bv64>, start: nat, len: nat)
    requires 0 < len && start + len <= 64 * bitset.Length
    modifies bitset
    ensures Members(bitset[..]) == old(Members(bitset[..])) + Interval(start, len)
  {
    hide *;
    ghost var before := bitset[..];
    var pos := start / 64;
    var end := (start + len - 1) / 64;
    var bit := start % 64;
    var last := (start + len - 1) % 64;
    if len == 1 {
      OneMask(start);
      RaiseShare(bitset[pos], One(bit), pos, start, len, bit, bit);
      bitset[pos] := Or(bitset[pos], One(bit));
    } else if pos != end {
      FirstMask(start, len);
      RaiseShare(bitset[pos], OnesFrom(bit), pos, start, len, bit, 63);
      bitset[pos] := Or(bitset[pos], OnesFrom(bit));
      pos := pos + 1;
      while pos != end
        invariant start / 64 < pos <= end
        invariant forall p :: start / 64 <= p < pos ==> Raised(before[p], bitset[p], p, start, len)
        invariant forall p :: 0 <= p < start / 64 || pos <= p < bitset.Length ==> bitset[p] == before[p]
      {
        MiddleMask(start, len, pos);
        RaiseShare(bitset[pos], ALL_ONES, pos, start, len, 0, 63);
        AllOnes(bitset[pos]);
        bitset[pos] := ALL_ONES;
        pos := pos + 1;
      }
      LastMask(start, len);
      RaiseShare(bitset[pos], OnesTo(last), pos, start, len, 0, last);
      bitset[pos] := Or(bitset[pos], OnesTo(last));
    } else {
      OnlyMask(start, len);
      RaiseShare(bitset[pos], And(OnesFrom(bit), OnesTo(last)), pos, start, len, bit, last);
      bitset[pos] := Or(bitset[pos], And(OnesFrom(bit), OnesTo(last)));
    }
    forall p | 0 <= p < bitset.Length && !(start / 64 <= p <= end) ensures Raised(before[p], bitset[p], p, start, len) {
      Untouched(bitset[p], start, len, p);
    }
    RaisedMembers(before, bitset[..], start, len);
  }

  /** zend_mm_bitset_reset_range: lowers the bits start .. start+len-1 and no other. */
  method ResetRange(bitset: array<bv64>, start: nat, len: nat)
    requires 0 < len && start + len <= 64 * bitset.Length
    modifies bitset
    ensures Members(bitset[..]) == old(Members(bitset[..])) - Interval(start, len)
  {
    hide *;
    ghost var before := bitset[..];
    var pos := start / 64;
    var end := (start + len - 1) / 64;
    var bit := start % 64;
    var last := (start + len - 1) % 64;
    if len == 1 {
      OneMask(start);
      LowerShare(bitset[pos], One(bit), pos, start, len, bit, bit);
      bitset[pos] := And(bitset[pos], Not(One(bit)));
    } else if pos != end {
      FirstMask(start, len);
      LowerShare(bitset[pos], OnesAbove(bit), pos, start, len, bit, 63);
      bitset[pos] := And(bitset[pos], Not(OnesAbove(bit)));
      pos := pos + 1;
      while pos != end
        invariant start / 64 < pos <= end
        invariant forall p :: start / 64 <= p < pos ==> Lowered(before[p], bitset[p], p, start, len)
        invariant forall p :: 0 <= p < start / 64 || pos <= p < bitset.Length ==> bitset[p] == before[p]
      {
        MiddleMask(start, len, pos);
        LowerShare(bitset[pos], ALL_ONES, pos, start, len, 0, 63);
        AllOnes(bitset[pos]);
        bitset[pos] := 0;
        pos := pos + 1;
      }
      LastMask(start, len);
      LowerShare(bitset[pos], OnesTo(last), pos, start, len, 0, last);
      bitset[pos] := And(bitset[pos], Not(OnesTo(last)));
    } else {
      OnlyMask(start, len);
      LowerShare(bitset[pos], And(OnesFrom(bit), OnesTo(last)), pos, start, len, bit, last);
      bitset[pos] := And(bitset[pos], Not(And(OnesFrom(bit), OnesTo(last))));
    }
    forall p | 0 <= p < bitset.Length && !(start / 64 <= p <= end)
      ensures Lowered(before[p], bitset[p], p, start, len) {
      Untouched(bitset[p], start, len, p);
    }
    LoweredMembers(before, bitset[..], start, len);
  }

  lemma ClearMembers(words: seq<bv64>, start: nat, len: nat)
    requires start + len <= 64 * |words|
    requires forall p :: 0 <= p < |words| && start / 64 <= p <= (start + len - 1) / 64 ==>
      Clear(words[p], p, start, len)
    ensures Members(words) !! Interval(start, len)
  {
    hide Bit;
    forall i: nat | start <= i < start + len ensures !At(words, i) {
      assert Clear(words[i / 64], i / 64, start, len);
      assert i == Position(i / 64, i % 64);
    }
  }

  lemma NotClearMembers(words: seq<bv64>, start: nat, len: nat, p: nat)
    requires start + len <= 64 * |words| && p < |words| && !Clear(words[p], p, start, len)
    ensures Members(words) * Interval(start, len) != {}
  {
    hide Bit;
    var k :| 0 <= k < 64 && start <= Position(p, k) < start + len && Bit(words[p], k);
    assert At(words, Position(p, k));
    assert Position(p, k) in Members(words) * Interval(start, len);
  }

  /** zend_mm_bitset_is_free_range: whether no bit of start .. start+len-1 is set. */
  method IsFreeRange(bitset: array<bv64>, start: nat, len: nat) returns (free: bool)
    requires 0 < len && start + len <= 64 * bitset.Length
    ensures free <==> Members(bitset[..]) !! Interval(start, len)
  {
    hide *;
    var pos := start / 64;
    var end := (start + len - 1) / 64;
    var bit := start % 64;
    var last := (start + len - 1) % 64;
    free := true;
    ghost var at := pos;
    if len == 1 {
      OneMask(start);
      TestShare(bitset[pos], One(bit), pos, start, len, bit, bit);
      free := And(bitset[pos], One(bit)) == 0;
    } else if pos != end {
      FirstMask(start, len);
      TestShare(bitset[pos], OnesFrom(bit), pos, start, len, bit, 63);
      if And(bitset[pos], OnesFrom(bit)) != 0 {
        NotClearMembers(bitset[..], start, len, pos);
        return false;
      }
      pos := pos + 1;
      while pos != end
        invariant start / 64 < pos <= end
        invariant forall p :: start / 64 <= p < pos ==> Clear(bitset[p], p, start, len)
      {
        MiddleMask(start, len, pos);
        TestShare(bitset[pos], ALL_ONES, pos, start, len, 0, 63);
        AllOnes(bitset[pos]);
        if bitset[pos] != 0 {
          NotClearMembers(bitset[..], start, len, pos);
          return false;
        }
        pos := pos + 1;
      }
      LastMask(start, len);
      TestShare(bitset[pos], OnesTo(last), pos, start, len, 0, last);
      free := And(bitset[pos], OnesTo(last)) == 0;
    } else {
      OnlyMask(start, len);
      TestShare(bitset[pos], And(OnesFrom(bit), OnesTo(last)), pos, start, len, bit, last);
      free := And(bitset[pos], And(OnesFrom(bit), OnesTo(last))) == 0;
    }
    if free { ClearMembers(bitset[..], start, len); } else { NotClearMembers(bitset[..], start, len, pos); }
  }

  /** zend_mm_bitset_is_set */
  method IsSet(bitset: array<bv64>, bit: nat) returns (r: bool)
    requires bit < 64 * bitset.Length
    ensures r <==> bit in Members(bitset[..])
  {
    hide *;
    r := And(bitset[bit / 64], One(bit % 64)) != 0;
    TestBit(bitset[..], bit);
  }

  lemma TestBit(words: seq<bv64>, bit: nat)
    requires bit < 64 * |words|
    ensures bit / 64 < |words| && (And(words[bit / 64], One(bit % 64)) != 0 <==> bit in Members(words))
  {
    hide Bit, And, One;
    OneBit(words[bit / 64], bit % 64);
    assert At(words, bit) <==> Bit(words[bit / 64], bit % 64);
  }

  lemma OneBit(w: bv64, k: nat)
    requires k < 64
    ensures And(w, One(k)) != 0 <==> Bit(w, k)
  {
    hide Bit, And, One;
    var one := One(k);
    Masks(k, k);
    TestByMask(w, one, k, k);
    var common := And(w, one);
    if common == 0 {
      assert !Bit(w, k);
    } else {
      var j :| 0 <= j < 64 && k <= j <= k && Bit(w, j);
      assert j == k;
    }
  }
}
