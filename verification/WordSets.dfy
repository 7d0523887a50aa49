/** The optimizer's bit sets: arrays of words, against the sets of numbers they stand for. */
module WordSets {
  import opened Words
  import opened Bitset

  lemma MembersAt(words: seq<bv64>, p: nat, k: nat)
    requires p < |words| && k < 64
    ensures 64 * p + k in Members(words) <==> Bit(words[p], k)
  {
    var i := 64 * p + k;
    assert i / 64 == p && i % 64 == k;
  }

  lemma MemberWord(words: seq<bv64>, i: nat)
    requires i in Members(words)
    ensures i / 64 < |words| && Bit(words[i / 64], i % 64) && words[i / 64] != 0
  {
    BitExtremes(i % 64);
  }

  lemma NoMembers(words: seq<bv64>)
    requires forall p :: 0 <= p < |words| ==> words[p] == 0
    ensures Members(words) == {}
  {
    hide Bit;
    forall i | i in Members(words) ensures false {
      MemberWord(words, i);
    }
  }

  // ---------------------------------------------------------------- the first and the last member

  /** zend_bitset_first: the least member, or -1 for the empty set. */
  method First(bits: array<bv64>, len: nat) returns (r: int)
    requires len <= bits.Length
    ensures r == -1 <==> Members(bits[..len]) == {}
    ensures r != -1 ==> r in Members(bits[..len]) && forall i :: i in Members(bits[..len]) ==> r <= i
  {
    hide *;
    var i := 0;
    while i < len
      invariant i <= len && forall p :: 0 <= p < i ==> bits[..len][p] == 0
    {
      if bits[i] != 0 {
        r := 64 * i + TrailingZeros(bits[i]);
        FirstFound(bits[..len], i);
        return;
      }
      i := i + 1;
    }
    NoMembers(bits[..len]);
    return -1;
  }

  lemma FirstFound(words: seq<bv64>, p: nat)
    requires p < |words| && words[p] != 0 && forall q :: 0 <= q < p ==> words[q] == 0
    ensures var r := 64 * p + TrailingZeros(words[p]);
      r in Members(words) && r >= 0 && forall i :: i in Members(words) ==> r <= i
  {
    hide Bit, TrailingZeros;
    TrailingZerosCounts(words[p]);
    var k := TrailingZeros(words[p]);
    MembersAt(words, p, k);
    forall i | i in Members(words) ensures 64 * p + k <= i {
      MemberWord(words, i);
      assert i == 64 * (i / 64) + i % 64;
    }
  }

  // x is what is left of w after m shifts to the right.
  ghost predicate ShiftedBy(w: bv64, x: bv64, m: nat)
  {
    && m <= 64
    && (forall j :: m <= j < 64 ==> Bit(w, j) == Bit(x, j - m))
    && (forall k :: 64 - m <= k < 64 ==> !Bit(x, k))
  }

  lemma ShiftedOnce(w: bv64, x: bv64, m: nat)
    requires ShiftedBy(w, x, m) && m < 64
    ensures ShiftedBy(w, x >> 1, m + 1)
  {
    TopGone(x);
    var y := x >> 1;
    forall j | m + 1 <= j < 64 ensures Bit(w, j) == Bit(y, j - (m + 1)) {
      assert Bit(x, j - m) == Bit(y, j - m - 1);
    }
    forall k | 64 - (m + 1) <= k < 63 ensures !Bit(y, k) {
      assert Bit(x, k + 1) == Bit(y, k);
    }
  }

  lemma TopGone(x: bv64)
    ensures !Bit(x >> 1, 63)
  {
    hide Bit;
    BitIsAt(x >> 1, 63);
    assert Amount(63) == 63;
  }

  lemma NothingLeft(w: bv64, x: bv64)
    requires ShiftedBy(w, x, 64)
    ensures x == 0
  {
    hide Bit;
    TrailingZerosCounts(x);
  }

  lemma ShiftedNone(w: bv64)
    ensures ShiftedBy(w, w, 0)
  {
  }

  lemma Halves(x: bv64)
    requires x != 0
    ensures x >> 1 < x && (x >> 1 == 0 ==> x == 1)
  {
  }

  lemma HighestBit(w: bv64, m: nat)
    requires 0 < m && ShiftedBy(w, 1, m - 1) && ShiftedBy(w, 0, m)
    ensures Bit(w, m - 1) && forall k :: m <= k < 64 ==> !Bit(w, k)
  {
    assert Bit(1, 0);
    assert Bit(w, m - 1) == Bit(1, m - 1 - (m - 1));
    forall k | m <= k < 64 ensures !Bit(w, k) {
      BitExtremes(k - m);
    }
  }

  // The position of the highest bit of a word, found by shifting the word away.
  method Highest(w: bv64, first: int) returns (j: int)
    requires w != 0
    ensures first <= j < first + 64 && Bit(w, j - first) && forall k :: j - first < k < 64 ==> !Bit(w, k)
  {
    hide Bit, ShiftedBy;
    j := first - 1;
    var x := w;
    ghost var last := w;
    ShiftedNone(w);
    while x != 0
      invariant first - 1 <= j < first + 64 && ShiftedBy(w, x, j + 1 - first)
      invariant x == 0 ==> j >= first && last == 1 && ShiftedBy(w, last, j - first)
      decreases x
    {
      Halves(x);
      if j + 1 - first == 64 { NothingLeft(w, x); }
      ShiftedOnce(w, x, j + 1 - first);
      last := x;
      x := x >> 1;
      j := j + 1;
    }
    HighestBit(w, j + 1 - first);
  }

  /** zend_bitset_last: the greatest member, or -1 for the empty set. */
  method Last(bits: array<bv64>, len: nat) returns (r: int)
    requires len <= bits.Length
    ensures r == -1 <==> Members(bits[..len]) == {}
    ensures r != -1 ==> r in Members(bits[..len]) && forall i :: i in Members(bits[..len]) ==> i <= r
  {
    hide *;
    var i: nat := len;
    while i > 0
      invariant 0 <= i <= len && forall p :: i <= p < len ==> bits[..len][p] == 0
    {
      i := i - 1;
      if bits[i] != 0 {
        r := Highest(bits[i], 64 * i);
        LastFound(bits[..len], i, r - 64 * i);
        return;
      }
    }
    NoMembers(bits[..len]);
    return -1;
  }

  lemma LastFound(words: seq<bv64>, p: nat, k: nat)
    requires p < |words| && forall q :: p < q < |words| ==> words[q] == 0
    requires k < 64 && Bit(words[p], k) && forall j :: k < j < 64 ==> !Bit(words[p], j)
    ensures 64 * p + k in Members(words) && forall i :: i in Members(words) ==> i <= 64 * p + k
  {
    hide Bit;
    MembersAt(words, p, k);
    forall i | i in Members(words) ensures i <= 64 * p + k {
      MemberWord(words, i);
      assert i == 64 * (i / 64) + i % 64;
    }
  }

  // ---------------------------------------------------------------- taking members out, and combining sets

  // Word p has lost its bit k (and nothing else has changed).
  lemma Excluded(before: seq<bv64>, after: seq<bv64>, i: nat)
    requires i < 64 * |before| && i / 64 < |before|
    requires after == before[i / 64 := And(before[i / 64], Not(One(i % 64)))]
    ensures Members(after) == Members(before) - {i}
  {
    hide *;
    forall j: nat ensures j in Members(after) <==> j in Members(before) - {i} {
      ExcludedAt(before, after, i, j);
    }
  }

  lemma ExcludedAt(before: seq<bv64>, after: seq<bv64>, i: nat, j: nat)
    requires i < 64 * |before| && i / 64 < |before|
    requires after == before[i / 64 := And(before[i / 64], Not(One(i % 64)))]
    ensures j in Members(after) <==> j in Members(before) && j != i
  {
    hide *;
    if j < 64 * |after| {
      Masks(i % 64, i % 64);
      LowerByMask(before[i / 64], One(i % 64), i % 64, i % 64);
      Parts(i);
      Parts(j);
      MembersAt(before, j / 64, j % 64);
      MembersAt(after, j / 64, j % 64);
    }
  }

  lemma Parts(j: nat)
    ensures j == 64 * (j / 64) + j % 64
  {}

  /** zend_bitset_pop_first: takes the least member out. */
  method PopFirst(bits: array<bv64>, len: nat) returns (r: int)
    requires len <= bits.Length
    modifies bits
    ensures r == -1 <==> Members(old(bits[..len])) == {}
    ensures r != -1 ==> r in Members(old(bits[..len])) && forall i :: i in Members(old(bits[..len])) ==> r <= i
    ensures Members(bits[..len]) == Members(old(bits[..len])) - {r}
    ensures bits[len..] == old(bits[len..])
  {
    hide *;
    ghost var was := bits[..len];
    r := First(bits, len);
    if r >= 0 {
      MemberWord(was, r);
      bits[r / 64] := And(bits[r / 64], Not(One(r % 64)));
      assert bits[..len] == was[r / 64 := And(was[r / 64], Not(One(r % 64)))];
      Below(was, r);
      Excluded(was, bits[..len], r);
    }
  }

  lemma Below(words: seq<bv64>, i: nat)
    requires i in Members(words)
    ensures i < 64 * |words|
  {
  }

  lemma UnionMembers(a: seq<bv64>, b: seq<bv64>, c: seq<bv64>)
    requires |a| == |b| == |c| && forall p :: 0 <= p < |c| ==> c[p] == Or(a[p], b[p])
    ensures Members(c) == Members(a) + Members(b)
  {
    hide Bit, Or;
    forall i: nat ensures i in Members(c) <==> i in Members(a) + Members(b) {
      if i < 64 * |c| {
        assert i == 64 * (i / 64) + i % 64;
        BitOr(a[i / 64], b[i / 64], i % 64);
      }
    }
  }

  lemma IntersectionMembers(a: seq<bv64>, b: seq<bv64>, c: seq<bv64>)
    requires |a| == |b| == |c| && forall p :: 0 <= p < |c| ==> c[p] == And(a[p], b[p])
    ensures Members(c) == Members(a) * Members(b)
  {
    hide Bit, And;
    forall i: nat ensures i in Members(c) <==> i in Members(a) * Members(b) {
      if i < 64 * |c| {
        assert i == 64 * (i / 64) + i % 64;
        BitAnd(a[i / 64], b[i / 64], i % 64);
      }
    }
  }

  lemma DifferenceMembers(a: seq<bv64>, b: seq<bv64>, c: seq<bv64>)
    requires |a| == |b| == |c| && forall p :: 0 <= p < |c| ==> c[p] == And(a[p], Not(b[p]))
    ensures Members(c) == Members(a) - Members(b)
  {
    hide Bit, And, Not;
    forall i: nat ensures i in Members(c) <==> i in Members(a) - Members(b) {
      if i < 64 * |c| {
        assert i == 64 * (i / 64) + i % 64;
        BitNot(b[i / 64], i % 64);
        BitAnd(a[i / 64], Not(b[i / 64]), i % 64);
      }
    }
  }

  // zend_bitset_union; the two sets may be the same array.
  method Union(a: array<bv64>, b: array<bv64>, len: nat)
    requires len <= a.Length && len <= b.Length
    modifies a
    ensures Members(a[..len]) == old(Members(a[..len]) + Members(b[..len])) && a[len..] == old(a[len..])
  {
    hide *;
    for i := 0 to len
      invariant forall p :: 0 <= p < i ==> a[p] == Or(old(a[p]), old(b[p]))
      invariant forall p :: i <= p < a.Length ==> a[p] == old(a[p])
      invariant a != b ==> b[..] == old(b[..])
      invariant a == b ==> forall p :: i <= p < b.Length ==> b[p] == old(b[p])
    {
      a[i] := Or(a[i], b[i]);
    }
    UnionMembers(old(a[..len]), old(b[..len]), a[..len]);
  }

  // zend_bitset_intersection
  method Intersection(a: array<bv64>, b: array<bv64>, len: nat)
    requires len <= a.Length && len <= b.Length
    modifies a
    ensures Members(a[..len]) == old(Members(a[..len]) * Members(b[..len])) && a[len..] == old(a[len..])
  {
    hide *;
    for i := 0 to len
      invariant forall p :: 0 <= p < i ==> a[p] == And(old(a[p]), old(b[p]))
      invariant forall p :: i <= p < a.Length ==> a[p] == old(a[p])
      invariant a != b ==> b[..] == old(b[..])
      invariant a == b ==> forall p :: i <= p < b.Length ==> b[p] == old(b[p])
    {
      a[i] := And(a[i], b[i]);
    }
    IntersectionMembers(old(a[..len]), old(b[..len]), a[..len]);
  }

  // zend_bitset_difference
  method Difference(a: array<bv64>, b: array<bv64>, len: nat)
    requires len <= a.Length && len <= b.Length
    modifies a
    ensures Members(a[..len]) == old(Members(a[..len]) - Members(b[..len])) && a[len..] == old(a[len..])
  {
    hide *;
    for i := 0 to len
      invariant forall p :: 0 <= p < i ==> a[p] == And(old(a[p]), Not(old(b[p])))
      invariant forall p :: i <= p < a.Length ==> a[p] == old(a[p])
      invariant a != b ==> b[..] == old(b[..])
      invariant a == b ==> forall p :: i <= p < b.Length ==> b[p] == old(b[p])
    {
      a[i] := And(a[i], Not(b[i]));
    }
    DifferenceMembers(old(a[..len]), old(b[..len]), a[..len]);
  }

  lemma WordsOfSubset(a: seq<bv64>, b: seq<bv64>, c: seq<bv64>)
    requires |a| == |b| == |c| && forall p :: 0 <= p < |c| ==> c[p] == And(a[p], Not(b[p]))
    ensures (forall p :: 0 <= p < |c| ==> c[p] == 0) <==> Members(a) <= Members(b)
  {
    hide Bit, And, Not;
    DifferenceMembers(a, b, c);
    if forall p :: 0 <= p < |c| ==> c[p] == 0 {
      NoMembers(c);
      assert forall i :: i in Members(a) ==> i !in Members(a) - Members(b);
    } else {
      var p :| 0 <= p < |c| && c[p] != 0;
      TrailingZerosCounts(c[p]);
      MembersAt(c, p, TrailingZeros(c[p]));
      assert 64 * p + TrailingZeros(c[p]) in Members(a) - Members(b);
    }
  }

  // zend_bitset_subset
  method Subset(a: array<bv64>, b: array<bv64>, len: nat) returns (r: bool)
    requires len <= a.Length && len <= b.Length
    ensures r <==> Members(a[..len]) <= Members(b[..len])
  {
    hide *;
    ghost var rest := seq(len, p requires 0 <= p < len reads a, b => And(a[p], Not(b[p])));
    WordsOfSubset(a[..len], b[..len], rest);
    for i := 0 to len
      invariant forall p :: 0 <= p < i ==> rest[p] == 0
    {
      if And(a[i], Not(b[i])) != 0 {
        assert rest[i] != 0;
        return false;
      }
    }
    return true;
  }
}
