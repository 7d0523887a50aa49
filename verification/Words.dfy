/** Bits of one 64-bit machine word: what the shifts, masks and trailing-bit scans of the page bitmap mean. */
module Words {
  const ALL_ONES: bv64 := 0xFFFF_FFFF_FFFF_FFFF

  // The number k as the narrow vector that Dafny's shifts take.
  function Amount(k: nat): bv7
    requires k < 64
  {
    if k == 0 then 0 else if k % 2 == 0 then Amount(k / 2) << 1 else (Amount(k / 2) << 1) + 1
  }

  lemma {:induction false} AmountNext(k: nat)
    requires k < 63
    ensures Amount(k + 1) == Amount(k) + 1
  {
    if k % 2 == 1 { AmountNext(k / 2); }
  }

  lemma {:induction false} AmountBound(k: nat, limit: nat, mask: bv7)
    requires k <= limit
    requires (limit == 0 && mask == 0) || (limit == 1 && mask == 1) || (limit == 3 && mask == 3)
      || (limit == 7 && mask == 7) || (limit == 15 && mask == 15) || (limit == 31 && mask == 31)
      || (limit == 63 && mask == 63)
    ensures Amount(k) <= mask
  {
    if k > 0 { AmountBound(k / 2, limit / 2, mask >> 1); }
  }

  lemma {:induction false} AmountSum(a: nat, b: nat)
    requires a + b < 64
    ensures Amount(a + b) == Amount(a) + Amount(b)
    decreases b
  {
    if b > 0 { AmountSum(a, b - 1); AmountNext(a + b - 1); AmountNext(b - 1); }
  }

  lemma {:induction false} AmountOrder(k: nat, n: nat)
    requires k <= n < 64
    ensures Amount(k) <= Amount(n) <= 63
    ensures k < n ==> Amount(k) < Amount(n)
    ensures Amount(n - k) == Amount(n) - Amount(k)
  {
    AmountBound(n, 63, 63);
    AmountBound(k, 63, 63);
    AmountSum(k, n - k);
    AmountBound(n - k, 63, 63);
    if n - k > 0 { AmountNext(n - k - 1);     AmountBound(n - k - 1, 63, 63); }
  }

  // The bit of w that (w >> k) & 1 reads.
  predicate BitAt(w: bv64, k: bv7)
    requires k < 64
  {
    (w >> k) & 1 == 1
  }

  // Bit k of w, counted from the least significant one.
  predicate Bit(w: bv64, k: nat)
    requires k < 64
  {
    if k == 0 then w & 1 == 1 else Bit(w >> 1, k - 1)
  }

  lemma {:induction false} BitIsAt(w: bv64, k: nat)
    requires k < 64
    ensures Amount(k) <= 63 && Bit(w, k) == BitAt(w, Amount(k))
  {
    AmountOrder(k, 63);
    if k == 0 {
      assert BitAt(w, 0) == (w & 1 == 1);
    } else {
      AmountOrder(k - 1, k);
      BitIsAt(w >> 1, k - 1);
      AmountNext(k - 1);
      NextAt(w, Amount(k - 1));
    }
  }

  lemma NextAt(w: bv64, k: bv7)
    requires k < 63
    ensures BitAt(w, k + 1) == BitAt(w >> 1, k)
  {}

  // ---- masks and boolean operations, bit by bit ----

  // The boolean operations, named, so that a proof about a loop need not look inside them.
  function Or(x: bv64, y: bv64): bv64 { x | y }

  function And(x: bv64, y: bv64): bv64 { x & y }

  function Not(x: bv64): bv64 { !x }

  lemma BitOr(x: bv64, y: bv64, k: nat)
    requires k < 64
    ensures Bit(Or(x, y), k) == (Bit(x, k) || Bit(y, k))
  {
    hide BitAt, Bit;
    BitIsAt(x, k);
    BitIsAt(y, k);
    BitIsAt(Or(x, y), k);
    BooleanAt(x, y, Amount(k));
  }

  lemma BitAnd(x: bv64, y: bv64, k: nat)
    requires k < 64
    ensures Bit(And(x, y), k) == (Bit(x, k) && Bit(y, k))
  {
    hide BitAt, Bit;
    BitIsAt(x, k);
    BitIsAt(y, k);
    BitIsAt(And(x, y), k);
    BooleanAt(x, y, Amount(k));
  }

  lemma BitNot(x: bv64, k: nat)
    requires k < 64
    ensures Bit(Not(x), k) == !Bit(x, k)
  {
    hide BitAt, Bit;
    BitIsAt(x, k);
    BitIsAt(Not(x), k);
    BooleanAt(x, x, Amount(k));
  }

  lemma BooleanAt(x: bv64, y: bv64, k: bv7)
    requires k < 64
    ensures BitAt(x & y, k) == (BitAt(x, k) && BitAt(y, k))
    ensures BitAt(x | y, k) == (BitAt(x, k) || BitAt(y, k))
    ensures BitAt(!x, k) == !BitAt(x, k)
  {}

  lemma BitExtremes(k: nat)
    requires k < 64
    ensures !Bit(0, k) && Bit(ALL_ONES, k)
  {
    BitIsAt(0, k);
    BitIsAt(ALL_ONES, k);
    ExtremesAt(Amount(k));
  }

  lemma ExtremesAt(k: bv7)
    requires k < 64
    ensures !BitAt(0, k) && BitAt(ALL_ONES, k)
  {}

  // 1 << n
  function One(n: nat): bv64
    requires n < 64
  {
    AmountOrder(n, 63);
    1 << Amount(n)
  }

  // (zend_mm_bitset)-1 << n
  function OnesFrom(n: nat): bv64
    requires n < 64
  {
    AmountOrder(n, 63);
    ALL_ONES << Amount(n)
  }

  // (zend_mm_bitset)-1 >> (63 - n)
  function OnesTo(n: nat): bv64
    requires n < 64
  {
    AmountOrder(63 - n, 63);
    ALL_ONES >> Amount(63 - n)
  }

  lemma BitOne(n: nat, k: nat)
    requires n < 64 && k < 64
    ensures Bit(One(n), k) == (k == n)
  {
    hide BitAt;
    BitIsAt(One(n), k);
    AmountOrder(n, 63);
    AmountOrder(k, 63);
    if k < n { AmountOrder(k, n); }
    if n < k { AmountOrder(n, k); }
    OneAt(Amount(n), Amount(k));
  }

  lemma OneAt(n: bv7, k: bv7)
    requires n < 64 && k < 64
    ensures BitAt(1 << n, k) == (k == n)
  {}

  lemma BitOnesFrom(n: nat, k: nat)
    requires n < 64 && k < 64
    ensures Bit(OnesFrom(n), k) == (n <= k)
  {
    hide BitAt, Bit;
    BitIsAt(OnesFrom(n), k);
    AmountOrder(n, 63);
    AmountOrder(k, 63);
    if k < n { AmountOrder(k, n); } else { AmountOrder(n, k); }
    OnesFromAt(Amount(n), Amount(k));
  }

  lemma OnesFromAt(n: bv7, k: bv7)
    requires n < 64 && k < 64
    ensures BitAt(ALL_ONES << n, k) == (n <= k)
  {}

  lemma BitOnesTo(n: nat, k: nat)
    requires n < 64 && k < 64
    ensures Bit(OnesTo(n), k) == (k <= n)
  {
    hide BitAt, Bit;
    BitIsAt(OnesTo(n), k);
    AmountOrder(n, 63);
    AmountOrder(k, 63);
    if k <= n { AmountOrder(k, n); } else { AmountOrder(n, k); }
    OnesToAt(Amount(n), Amount(k));
  }

  lemma OnesToAt(n: bv7, k: bv7)
    requires n < 64 && k < 64
    ensures BitAt(ALL_ONES >> (63 - n), k) == (k <= n)
  {}

  // ---- trailing scans ----

  // The number a narrow vector holds.
  function Index(x: bv7): nat
  {
    if x == 0 then 0 else 2 * Index(x >> 1) + if x & 1 == 1 then 1 else 0
  }

  lemma {:induction false} AmountIndex(x: bv7, limit: nat, mask: bv7)
    requires x <= mask
    requires (limit == 0 && mask == 0) || (limit == 1 && mask == 1) || (limit == 3 && mask == 3)
      || (limit == 7 && mask == 7) || (limit == 15 && mask == 15) || (limit == 31 && mask == 31)
      || (limit == 63 && mask == 63)
    ensures Index(x) <= limit && Amount(Index(x)) == x
  {
    if x != 0 {
      AmountIndex(x >> 1, limit / 2, mask >> 1);
      hide Amount;
      AmountTwice(Index(x >> 1));
      Halves(x);
    }
  }

  lemma AmountTwice(i: nat)
    requires 2 * i + 1 < 64
    ensures Amount(2 * i) == Amount(i) << 1 && Amount(2 * i + 1) == (Amount(i) << 1) + 1
  {}

  lemma Halves(x: bv7)
    ensures x & 1 == 1 ==> x == ((x >> 1) << 1) + 1
    ensures x & 1 != 1 ==> x == (x >> 1) << 1
  {}

  // zend_ulong_ntz: number of trailing zero bits
  function ScanZeros(num: bv64): bv7
  {
    var (n, v) := if num & 0xFFFF_FFFF == 0 then (33, num >> 32) else (1, num);
    var (n, v) := if v & 0xFFFF == 0 then (n + 16, v >> 16) else (n, v);
    var (n, v) := if v & 0xFF == 0 then (n + 8, v >> 8) else (n, v);
    var (n, v) := if v & 0xF == 0 then (n + 4, v >> 4) else (n, v);
    var (n, v) := if v & 0x3 == 0 then (n + 2, v >> 2) else (n, v);
    n - if v & 1 == 1 then 1 else 0
  }

  // zend_mm_bitset_nts: number of trailing set bits
  function ScanOnes(word: bv64): bv7
  {
    var (n, v) := if word & 0xFFFF_FFFF == 0xFFFF_FFFF then (32, word >> 32) else (0, word);
    var (n, v) := if v & 0xFFFF == 0xFFFF then (n + 16, v >> 16) else (n, v);
    var (n, v) := if v & 0xFF == 0xFF then (n + 8, v >> 8) else (n, v);
    var (n, v) := if v & 0xF == 0xF then (n + 4, v >> 4) else (n, v);
    var (n, v) := if v & 0x3 == 0x3 then (n + 2, v >> 2) else (n, v);
    n + if v & 1 == 1 then 1 else 0
  }

  // The bits of w below n are clear.
  predicate ZerosBelow(w: bv64, n: bv7)
    requires n < 64
  {
    w & ((1 << n) - 1) == 0
  }

  lemma ScanZerosStops(num: bv64)
    requires num != 0
    ensures ScanZeros(num) < 64
    ensures BitAt(num, ScanZeros(num))
  {}

  lemma ScanZerosSkips(num: bv64)
    requires num != 0
    ensures ScanZeros(num) < 64
    ensures ZerosBelow(num, ScanZeros(num))
  {}

  lemma ScanOnesStops(word: bv64)
    requires word != ALL_ONES
    ensures ScanOnes(word) < 64
    ensures !BitAt(word, ScanOnes(word))
  {}

  lemma ScanOnesSkips(word: bv64)
    requires word != ALL_ONES
    ensures ScanOnes(word) < 64
    ensures ZerosBelow(!word, ScanOnes(word))
  {}

  lemma BelowAt(w: bv64, n: bv7, k: bv7)
    requires k < n < 64 && ZerosBelow(w, n)
    ensures !BitAt(w, k)
  {}

  lemma NoneBelow(w: bv64, n: nat, k: nat)
    requires k < n < 64 && Amount(n) < 64 && ZerosBelow(w, Amount(n))
    ensures !Bit(w, k)
  {
    hide BitAt, ZerosBelow, Amount;
    AmountOrder(k, n);
    BitIsAt(w, k);
    BelowAt(w, Amount(n), Amount(k));
  }

  function TrailingZeros(num: bv64): nat
  {
    if num == 0 then 64 else Index(ScanZeros(num))
  }

  function TrailingOnes(word: bv64): nat
  {
    if word == ALL_ONES then 64 else Index(ScanOnes(word))
  }

  lemma TrailingZerosCounts(num: bv64)
    ensures TrailingZeros(num) <= 64
    ensures forall j :: 0 <= j < TrailingZeros(num) ==> !Bit(num, j)
    ensures TrailingZeros(num) < 64 ==> Bit(num, TrailingZeros(num))
    ensures TrailingZeros(num) == 64 <==> num == 0
  {
    hide BitAt, ScanZeros, ZerosBelow, Amount;
    if num == 0 {
      forall j | 0 <= j < 64 ensures !Bit(num, j) { BitExtremes(j); }
    } else {
      ScanZerosStops(num);
      ScanZerosSkips(num);
      var n := TrailingZeros(num);
      AmountIndex(ScanZeros(num), 63, 63);
      BitIsAt(num, n);
      forall j | 0 <= j < n ensures !Bit(num, j) { NoneBelow(num, n, j); }
    }
  }

  lemma TrailingOnesCounts(word: bv64)
    ensures TrailingOnes(word) <= 64
    ensures forall j :: 0 <= j < TrailingOnes(word) ==> Bit(word, j)
    ensures TrailingOnes(word) < 64 ==> !Bit(word, TrailingOnes(word))
    ensures TrailingOnes(word) == 64 <==> word == ALL_ONES
  {
    hide BitAt, ScanOnes, ZerosBelow, Amount;
    if word == ALL_ONES {
      forall j | 0 <= j < 64 ensures Bit(word, j) { BitExtremes(j); }
    } else {
      ScanOnesStops(word);
      ScanOnesSkips(word);
      var n := TrailingOnes(word);
      AmountIndex(ScanOnes(word), 63, 63);
      BitIsAt(word, n);
      forall j | 0 <= j < n ensures Bit(word, j) { NoneBelow(Not(word), n, j); BitNot(word, j); }
    }
  }

  // tmp & (tmp + 1)
  function DropOnes(tmp: bv64): bv64 { tmp & (tmp + 1) }

  // tmp | (tmp - 1)
  function FillZeros(tmp: bv64): bv64 { tmp | (tmp - 1) }

  /** tmp &= tmp + 1 clears exactly the trailing set bits. */
  lemma ClearTrailingOnes(w: bv64, k: nat)
    requires k < 64
    ensures Bit(DropOnes(w), k) == (TrailingOnes(w) <= k && Bit(w, k))
  {
    hide BitAt, ScanOnes, Bit, ZerosBelow;
    if w == ALL_ONES {
      assert w & (w + 1) == 0;
      BitExtremes(k);
    } else {
      ScanOnesStops(w);
      ScanOnesSkips(w);
      AmountIndex(ScanOnes(w), 63, 63);
      ClearBelow(w, TrailingOnes(w), k);
    }
  }

  lemma ClearBelow(w: bv64, n: nat, k: nat)
    requires n < 64 && k < 64 && Amount(n) < 64
    requires !BitAt(w, Amount(n)) && ZerosBelow(!w, Amount(n))
    ensures Bit(DropOnes(w), k) == (n <= k && Bit(w, k))
  {
    hide BitAt, Bit, Amount, ZerosBelow, DropOnes;
    BitIsAt(DropOnes(w), k);
    BitIsAt(w, k);
    if k < n { AmountOrder(k, n); } else { AmountOrder(n, k); }
    ClearAt(w, Amount(n), Amount(k));
  }

  /** tmp |= tmp - 1 sets exactly the trailing zero bits of a nonempty word. */
  lemma FillTrailingZeros(w: bv64, k: nat)
    requires k < 64 && w != 0
    ensures Bit(FillZeros(w), k) == (k < TrailingZeros(w) || Bit(w, k))
  {
    hide BitAt, ScanZeros, Bit, Amount, Index, ZerosBelow, FillZeros;
    ScanZerosStops(w);
    ScanZerosSkips(w);
    AmountIndex(ScanZeros(w), 63, 63);
    FillBelow(w, TrailingZeros(w), k);
  }

  lemma FillBelow(w: bv64, n: nat, k: nat)
    requires n < 64 && k < 64 && Amount(n) < 64
    requires BitAt(w, Amount(n)) && ZerosBelow(w, Amount(n))
    ensures Bit(FillZeros(w), k) == (k < n || Bit(w, k))
  {
    hide BitAt, Bit, Amount, ZerosBelow, FillZeros;
    BitIsAt(FillZeros(w), k);
    BitIsAt(w, k);
    if k < n { AmountOrder(k, n); } else { AmountOrder(n, k); }
    FillAt(w, Amount(n), Amount(k));
  }

  lemma ClearAt(w: bv64, n: bv7, k: bv7)
    requires n < 64 && k < 64 && !BitAt(w, n) && ZerosBelow(!w, n)
    ensures BitAt(DropOnes(w), k) == (n <= k && BitAt(w, k))
  {
    hide *;
    ClearsLow(w, n);
    LowAt(n, k);
    BooleanAt(w, !LowMask(n), k);
    BooleanAt(LowMask(n), 0, k);
  }

  lemma FillAt(w: bv64, n: bv7, k: bv7)
    requires n < 64 && k < 64 && BitAt(w, n) && ZerosBelow(w, n)
    ensures BitAt(FillZeros(w), k) == (k < n || BitAt(w, k))
  {
    hide *;
    FillsLow(w, n);
    LowAt(n, k);
    BooleanAt(w, LowMask(n), k);
  }

  // The bits below n.
  function LowMask(n: bv7): bv64
    requires n < 64
  {
    !(ALL_ONES << n)
  }

  lemma LowAt(n: bv7, k: bv7)
    requires n < 64 && k < 64
    ensures BitAt(LowMask(n), k) == (k < n)
  {
    hide BitAt;
    OnesFromAt(n, k);
    BooleanAt(ALL_ONES << n, 0, k);
  }

  lemma ClearsLow(w: bv64, n: bv7)
    requires n < 64 && !BitAt(w, n) && ZerosBelow(!w, n)
    ensures DropOnes(w) == w & !LowMask(n)
  {
    hide *;
    BitIsMask(w, n);
    ZerosHere(!w, n);
    ClearHere(w, n);
    ClearLow(w, n);
  }

  lemma FillsLow(w: bv64, n: bv7)
    requires n < 64 && BitAt(w, n) && ZerosBelow(w, n)
    ensures FillZeros(w) == w | LowMask(n)
  {
    hide *;
    BitHere(w, n);
    ZerosHere(w, n);
    FillHere(w, n);
    FillLow(w, n);
  }

  lemma BitHere(w: bv64, n: bv7)
    requires n < 64 && BitAt(w, n)
    ensures w & OneMask(n) != 0
  {
    hide *;
    BitIsMask(w, n);
  }

  lemma ZerosHere(w: bv64, n: bv7)
    requires n < 64 && ZerosBelow(w, n)
    ensures w & (OneMask(n) - 1) == 0
  {
    hide *;
    ZerosIsMask(w, n);
  }

  lemma ClearHere(w: bv64, n: bv7)
    requires n < 64 && w & OneMask(n) == 0 && !w & (OneMask(n) - 1) == 0
    ensures DropOnes(w) == w & !(OneMask(n) - 1)
  {
    hide *;
    OneBit(n);
    ClearMask(w, OneMask(n));
  }

  lemma FillHere(w: bv64, n: bv7)
    requires n < 64 && w & OneMask(n) != 0 && w & (OneMask(n) - 1) == 0
    ensures FillZeros(w) == w | (OneMask(n) - 1)
  {
    hide *;
    OneBit(n);
    FillMask(w, OneMask(n));
  }

  lemma ClearLow(w: bv64, n: bv7)
    requires n < 64 && DropOnes(w) == w & !(OneMask(n) - 1)
    ensures DropOnes(w) == w & !LowMask(n)
  {
    hide *;
    LowIs(n);
  }

  lemma FillLow(w: bv64, n: bv7)
    requires n < 64 && FillZeros(w) == w | (OneMask(n) - 1)
    ensures FillZeros(w) == w | LowMask(n)
  {
    hide *;
    LowIs(n);
  }

  // Bit n alone.
  function OneMask(n: bv7): bv64
    requires n < 64
  {
    1 << n
  }

  lemma OneBit(n: bv7)
    requires n < 64
    ensures OneMask(n) & (OneMask(n) - 1) == 0 && OneMask(n) != 0
  {}

  lemma BitIsMask(w: bv64, n: bv7)
    requires n < 64
    ensures BitAt(w, n) <==> w & OneMask(n) != 0
  {}

  lemma ZerosIsMask(w: bv64, n: bv7)
    requires n < 64
    ensures ZerosBelow(w, n) <==> w & (OneMask(n) - 1) == 0
  {}

  lemma LowIs(n: bv7)
    requires n < 64
    ensures LowMask(n) == OneMask(n) - 1
  {}

  lemma ClearMask(w: bv64, m: bv64)
    requires m & (m - 1) == 0 && m != 0 && w & m == 0 && !w & (m - 1) == 0
    ensures DropOnes(w) == w & !(m - 1)
  {}

  lemma FillMask(w: bv64, m: bv64)
    requires m & (m - 1) == 0 && m != 0 && w & m != 0 && w & (m - 1) == 0
    ensures FillZeros(w) == w | (m - 1)
  {}
}
