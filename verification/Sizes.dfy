/** The size-class table of the small runs and the two ways the allocator maps a size to a class. */
module Sizes {
  const PAGE: nat := 4096
  const CHUNK: nat := 2097152
  const PAGES: nat := 512
  const BINS: nat := 30
  const MAX_SMALL: nat := 3072
  const MAX_LARGE: nat := CHUNK - PAGE

  const BIN_SIZES: seq<nat> := [
    8, 16, 24, 32, 40, 48, 56, 64, 80, 96, 112, 128, 160, 192, 224,
    256, 320, 384, 448, 512, 640, 768, 896, 1024, 1280, 1536, 1792, 2048, 2560, 3072]

  const BIN_ELEMENTS: seq<nat> := [
    512, 256, 170, 128, 102, 85, 73, 64, 51, 42, 36, 32, 25, 21, 18,
    16, 64, 32, 9, 8, 32, 16, 9, 8, 16, 8, 16, 8, 8, 4]

  const BIN_PAGES: seq<nat> := [
    1, 1, 1, 1, 1, 1, 1, 1, 1, 1, 1, 1, 1, 1, 1,
    1, 5, 3, 1, 1, 5, 3, 2, 2, 5, 3, 7, 4, 5, 3]

  function BinSize(b: nat): nat
    requires b < BINS
  {
    BIN_SIZES[b]
  }

  function Elements(b: nat): nat
    requires b < BINS
  {
    BIN_ELEMENTS[b]
  }

  function BinPages(b: nat): nat
    requires b < BINS
  {
    BIN_PAGES[b]
  }

  /** Every class has as many elements as fit into its pages, which waste less than one page, and only class 0 has more
      elements than the 9-bit counter of a page entry can hold. */
  lemma BinFacts(b: nat)
    requires b < BINS
    ensures 8 <= BinSize(b) <= MAX_SMALL && BinSize(b) % 8 == 0
    ensures 4 <= Elements(b) <= 512 && (Elements(b) == 512 <==> b == 0)
    ensures 1 <= BinPages(b) <= 7
    ensures BinPages(b) * PAGE - PAGE < Elements(b) * BinSize(b) <= BinPages(b) * PAGE
    ensures Elements(b) == BinPages(b) * PAGE / BinSize(b)
  {
    assert b == 0 || b == 1 || b == 2 || b == 3 || b == 4 || b == 5 || b == 6 || b == 7 || b == 8 || b == 9
      || b == 10 || b == 11 || b == 12 || b == 13 || b == 14 || b == 15 || b == 16 || b == 17 || b == 18 || b == 19
      || b == 20 || b == 21 || b == 22 || b == 23 || b == 24 || b == 25 || b == 26 || b == 27 || b == 28 || b == 29;
  }

  lemma BinSizesIncrease(b: nat)
    requires 0 < b < BINS
    ensures BinSize(b - 1) < BinSize(b)
  {
    assert b == 1 || b == 2 || b == 3 || b == 4 || b == 5 || b == 6 || b == 7 || b == 8 || b == 9
      || b == 10 || b == 11 || b == 12 || b == 13 || b == 14 || b == 15 || b == 16 || b == 17 || b == 18 || b == 19
      || b == 20 || b == 21 || b == 22 || b == 23 || b == 24 || b == 25 || b == 26 || b == 27 || b == 28 || b == 29;
  }

  // zend_mm_small_size_to_bit, by halving steps: the number of the highest set bit, counted from 1
  function HighBit(size: nat): nat
    requires size <= 0xFFFF
  {
    var (n, size) := if size <= 0x00FF then (8, size * 0x100) else (16, size);
    var (n, size) := if size <= 0x0FFF then (n - 4, size * 0x10) else (n, size);
    var (n, size) := if size <= 0x3FFF then (n - 2, size * 4) else (n, size);
    if size <= 0x7FFF then n - 1 else n
  }

  function Pow2(n: nat): (p: nat)
    ensures p > 0
  {
    if n == 0 then 1 else 2 * Pow2(n - 1)
  }

  lemma HighBitBounds(size: nat)
    requires 1 <= size <= 0xFFFF
    ensures 1 <= HighBit(size) <= 16
    ensures Pow2(HighBit(size) - 1) <= size < Pow2(HighBit(size))
  {
    assert Pow2(1) == 2; assert Pow2(2) == 4; assert Pow2(3) == 8; assert Pow2(4) == 16; assert Pow2(5) == 32;
    assert Pow2(6) == 64; assert Pow2(7) == 128; assert Pow2(8) == 256; assert Pow2(9) == 512; assert Pow2(10) == 1024;
    assert Pow2(11) == 2048; assert Pow2(12) == 4096; assert Pow2(13) == 8192; assert Pow2(14) == 16384;
    assert Pow2(15) == 32768; assert Pow2(16) == 65536;
  }

  // The bit length of n; what __builtin_clz computes and HighBit reproduces on 16 bits.
  function BitLength(n: nat): nat
  {
    if n == 0 then 0 else 1 + BitLength(n / 2)
  }

  lemma {:induction false} BitLengthAtLeast(n: nat, bits: nat)
    requires Pow2(bits) <= n
    ensures bits + 1 <= BitLength(n)
  {
    if bits > 0 { BitLengthAtLeast(n / 2, bits - 1); }
  }

  lemma BitLengthLarge(n: nat)
    requires n >= 64
    ensures 7 <= BitLength(n)
  {
    assert Pow2(6) == 64;
    BitLengthAtLeast(n, 6);
  }

  lemma {:induction false} BitLengthBounds(n: nat)
    requires n > 0
    ensures BitLength(n) > 0 && Pow2(BitLength(n) - 1) <= n < Pow2(BitLength(n))
  {
    if n > 1 { BitLengthBounds(n / 2); } else { assert Pow2(1) == 2 && BitLength(1) == 1; }
  }

  lemma {:induction false} Pow2Increases(m: nat, n: nat)
    requires m < n
    ensures 2 * Pow2(m) <= Pow2(n) && 0 < Pow2(m)
    decreases n
  {
    if m + 1 < n { Pow2Increases(m, n - 1); } else if m > 0 { Pow2Increases(m - 1, m); }
  }

  /** The halving steps compute the bit length. */
  lemma HighBitIsBitLength(size: nat)
    requires 1 <= size <= 0xFFFF
    ensures HighBit(size) == BitLength(size)
  {
    HighBitBounds(size);
    BitLengthBounds(size);
    SameBits(size, HighBit(size), BitLength(size));
  }

  lemma SameBits(size: nat, h: nat, l: nat)
    requires 0 < h && Pow2(h - 1) <= size < Pow2(h)
    requires 0 < l && Pow2(l - 1) <= size < Pow2(l)
    ensures h == l
  {
    hide *;
    if h < l - 1 { Pow2Increases(h, l - 1); }
    if l < h - 1 { Pow2Increases(l, h - 1); }
  }

  function ShiftRight(x: nat, n: nat): nat
  {
    if n == 0 then x else ShiftRight(x / 2, n - 1)
  }

  // zend_mm_small_size_to_bin
  function SizeToBin(size: nat): nat
  {
    if size <= 64 then
      (size - if size == 0 then 0 else 1) / 8
    else
      BitLengthLarge(size - 1);
      var t2 := BitLength(size - 1) - 3;
      ShiftRight(size - 1, t2) + (t2 - 3) * 4
  }

  // Eight classes of step 8, then four classes for every doubling.
  function ClassSize(b: nat): nat
  {
    if b < 8 then 8 * (b + 1) else (5 + (b - 8) % 4) * Pow2(4 + (b - 8) / 4)
  }

  lemma TableIsClassSizes(b: nat)
    requires b < BINS
    ensures BinSize(b) == ClassSize(b)
  {
    if b < 8 {
      FirstRows(b);
    } else {
      var k, j := (b - 8) / 4, (b - 8) % 4;
      assert b == 8 + 4 * k + j;
      Row(k, j);
    }
  }

  lemma FirstRows(b: nat)
    requires b < 8
    ensures BinSize(b) == 8 * (b + 1)
  {
    assert b == 0 || b == 1 || b == 2 || b == 3 || b == 4 || b == 5 || b == 6 || b == 7;
  }

  // Row j of the four with the same step.
  lemma Row(k: nat, j: nat)
    requires j < 4 && 8 + 4 * k + j < BINS
    ensures BinSize(8 + 4 * k + j) == (5 + j) * Pow2(4 + k)
  {
    Powers();
    assert j == 0 || j == 1 || j == 2 || j == 3;
    assert k == 0 || k == 1 || k == 2 || k == 3 || k == 4 || k == 5;
    hide Pow2;
  }

  lemma Powers()
    ensures Pow2(4) == 16 && Pow2(5) == 32 && Pow2(6) == 64 && Pow2(7) == 128 && Pow2(8) == 256 && Pow2(9) == 512
  {
    assert Pow2(4) == 16;
    assert Pow2(5) == 32;
    assert Pow2(6) == 64;
    assert Pow2(7) == 128;
    assert Pow2(8) == 256;
  }

  lemma {:induction false} ShiftedBits(x: nat, n: nat)
    requires BitLength(x) == n + 3
    ensures 4 <= ShiftRight(x, n) <= 7
    ensures ShiftRight(x, n) * Pow2(n) <= x < (ShiftRight(x, n) + 1) * Pow2(n)
  {
    if n > 0 {
      ShiftedBits(x / 2, n - 1);
      var q, p := ShiftRight(x, n), Pow2(n - 1);
      Doubled(q, p);
    } else {
      BitLengthBounds(x);
      assert Pow2(2) == 4 && Pow2(3) == 8;
    }
  }

  lemma Doubled(q: nat, p: nat)
    ensures q * (2 * p) == 2 * (q * p) && (q + 1) * (2 * p) == 2 * ((q + 1) * p)
  {}

  // The shift keeps the three leading bits q = 4 .. 7 of size-1.
  lemma LeadingBits(size: nat)
    requires size > 64
    ensures BitLength(size - 1) >= 7
    ensures var t2 := BitLength(size - 1) - 3; var q := ShiftRight(size - 1, t2);
      && 4 <= q <= 7 && q * Pow2(t2) < size <= (q + 1) * Pow2(t2)
      && SizeToBin(size) == q + (t2 - 3) * 4
  {
    BitLengthLarge(size - 1);
    ShiftedBits(size - 1, BitLength(size - 1) - 3);
  }

  lemma ClassAt(m: nat, d: nat)
    requires m < 4
    ensures ClassSize(8 + 4 * d + m) == (5 + m) * Pow2(4 + d)
  {
    var b := 8 + 4 * d + m;
    assert (b - 8) % 4 == m && (b - 8) / 4 == d;
  }

  // The class that the leading bits q of a doubling pick, and the one below it.
  lemma ClassOfBits(q: nat, t2: nat)
    requires 4 <= q <= 7 && t2 >= 4
    ensures var b := q + (t2 - 3) * 4; b >= 8 && ClassSize(b) == (q + 1) * Pow2(t2) && ClassSize(b - 1) == q * Pow2(t2)
  {
    hide ClassSize;
    ClassAt(q - 4, t2 - 4);
    if q > 4 {
      ClassAt(q - 5, t2 - 4);
    } else if t2 > 4 {
      ClassAt(3, t2 - 5);
    } else {
      assert ClassSize(7) == 64 && Pow2(4) == 16 by { SmallClasses(); }
    }
  }

  lemma SmallClasses()
    ensures ClassSize(7) == 64 && Pow2(4) == 16
  {}

  /** The shift formula picks the least class that holds size, for every size. */
  lemma LeastClass(size: nat)
    ensures size <= ClassSize(SizeToBin(size))
    ensures SizeToBin(size) > 0 ==> ClassSize(SizeToBin(size) - 1) < size
  {
    if size > 64 {
      LeadingBits(size);
      var t2 := BitLength(size - 1) - 3;
      ClassOfBits(ShiftRight(size - 1, t2), t2);
    }
  }

  // ZEND_ALLOCATOR: the chain of size <= class tests over the table, from class b on.
  function FirstMatch(size: nat, b: nat): (r: nat)
    requires b < BINS
    decreases BINS - b
  {
    if size <= BinSize(b) || b == BINS - 1 then b else FirstMatch(size, b + 1)
  }

  lemma {:induction false} FirstMatchIsLeast(size: nat, b: nat)
    requires size <= MAX_SMALL && b < BINS
    requires b > 0 ==> BinSize(b - 1) < size
    ensures FirstMatch(size, b) < BINS && size <= BinSize(FirstMatch(size, b))
    ensures FirstMatch(size, b) > 0 ==> BinSize(FirstMatch(size, b) - 1) < size
    decreases BINS - b
  {
    LastClass();
    hide BinSize;
    if size > BinSize(b) && b < BINS - 1 { FirstMatchIsLeast(size, b + 1); }
  }

  lemma {:induction false} ClassSizesIncrease(a: nat, b: nat)
    requires a < b < BINS
    ensures BinSize(a) < BinSize(b)
    decreases b
  {
    BinSizesIncrease(b);
    if a < b - 1 { ClassSizesIncrease(a, b - 1); }
  }

  /** The two definitions of the size-to-class choice agree on every small size. */
  lemma FormulaIsFirstMatch(size: nat)
    requires size <= MAX_SMALL
    ensures SizeToBin(size) < BINS && SizeToBin(size) == FirstMatch(size, 0)
  {
    LeastClass(size);
    FirstMatchIsLeast(size, 0);
    LastClass();
    SameClass(size, SizeToBin(size), FirstMatch(size, 0));
  }

  lemma LastClass()
    ensures BinSize(BINS - 1) == MAX_SMALL
  {}

  // A least class is unique.
  lemma SameClass(size: nat, b: nat, r: nat)
    requires size <= ClassSize(b) && (b > 0 ==> ClassSize(b - 1) < size)
    requires r < BINS && size <= BinSize(r) && (r > 0 ==> BinSize(r - 1) < size)
    requires size <= BinSize(BINS - 1)
    ensures b == r
  {
    hide BinSize, ClassSize;
    TableIsClassSizes(BINS - 1);
    if b >= BINS { ClassesGrow(BINS - 1, b - 1); }
    TableIsClassSizes(r);
    TableIsClassSizes(b);
    if b > 0 { TableIsClassSizes(b - 1); }
    if r < b - 1 { ClassSizesIncrease(r, b - 1); }
    if b < r - 1 { ClassSizesIncrease(b, r - 1); }
  }

  lemma {:induction false} ClassesGrow(a: nat, b: nat)
    requires 8 <= a <= b
    ensures ClassSize(a) <= ClassSize(b)
    decreases b
  {
    if a < b {
      hide *;
      ClassesGrow(a, b - 1);
      ClassGrows(b);
    }
  }

  lemma ClassGrows(b: nat)
    requires 8 < b
    ensures ClassSize(b - 1) <= ClassSize(b)
  {
    var m, d := (b - 9) % 4, (b - 9) / 4;
    assert Pow2(5 + d) == 2 * Pow2(4 + d);
    hide Pow2;
    if m < 3 {
      assert (b - 8) % 4 == m + 1 && (b - 8) / 4 == d;
      OneMoreStep(5 + m, Pow2(4 + d));
    } else {
      assert (b - 8) % 4 == 0 && (b - 8) / 4 == d + 1;
    }
  }

  lemma OneMoreStep(m: nat, step: nat)
    ensures m * step <= (m + 1) * step
  {}

  /** A small block wastes less than a step of its class: less than a quarter of the size asked for, and 8 bytes at most
      up to 64. */
  lemma WasteBounded(size: nat)
    ensures 64 < size ==> 4 * (ClassSize(SizeToBin(size)) - size) < size
    ensures 0 < size <= 64 ==> ClassSize(SizeToBin(size)) - size < 8
  {
    if size > 64 {
      LeadingBits(size);
      var t2 := BitLength(size - 1) - 3;
      WasteStep(size, ShiftRight(size - 1, t2), t2);
    }
  }

  lemma WasteStep(size: nat, q: nat, t2: nat)
    requires 4 <= q <= 7 && t2 >= 4 && q * Pow2(t2) < size && SizeToBin(size) == q + (t2 - 3) * 4
    ensures 4 * (ClassSize(SizeToBin(size)) - size) < size
  {
    hide *;
    ClassOfBits(q, t2);
    var p := Pow2(t2);
    assert (q + 1) * p == q * p + p;
    assert 4 * p <= q * p;
  }
}
