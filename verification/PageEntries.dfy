/** The 32-bit page entries of a chunk: which kind of run a page belongs to, and a class, counter or offset. */
module PageEntries {
  import Chunks

  const IS_LRUN: bv32 := 0x4000_0000
  const IS_SRUN: bv32 := 0x8000_0000
  const LRUN_PAGES_MASK: bv32 := 0x0000_03ff
  const SRUN_BIN_NUM_MASK: bv32 := 0x0000_001f
  const SRUN_FREE_COUNTER_MASK: bv32 := 0x01ff_0000
  const NRUN_OFFSET_MASK: bv32 := 0x01ff_0000

  function Lrun(count: bv32): bv32 { IS_LRUN | count }

  function Srun(bin: bv32): bv32 { IS_SRUN | bin }

  function SrunEx(bin: bv32, counter: bv32): bv32 { IS_SRUN | (bin | (counter << 16)) }

  function Nrun(bin: bv32, offset: bv32): bv32 { IS_SRUN | IS_LRUN | (bin | (offset << 16)) }

  predicate IsSmall(entry: bv32) { entry & IS_SRUN != 0 }

  predicate IsLarge(entry: bv32) { entry & IS_LRUN != 0 }

  function LrunPages(entry: bv32): bv32 { entry & LRUN_PAGES_MASK }

  function BinNum(entry: bv32): bv32 { entry & SRUN_BIN_NUM_MASK }

  function FreeCounter(entry: bv32): bv32 { (entry & SRUN_FREE_COUNTER_MASK) >> 16 }

  function NrunOffset(entry: bv32): bv32 { (entry & NRUN_OFFSET_MASK) >> 16 }

  /** A large entry reads back its page count, and is no small one. */
  lemma LrunReads(count: bv32)
    requires count <= 1023
    ensures LrunPages(Lrun(count)) == count && IsLarge(Lrun(count)) && !IsSmall(Lrun(count))
  {}

  /** A small entry reads back its class, and the counter modulo 512: a counter of 512 reads as 0. */
  lemma SrunReads(bin: bv32, counter: bv32)
    requires bin <= 31 && counter <= 512
    ensures IsSmall(SrunEx(bin, counter)) && !IsLarge(SrunEx(bin, counter)) && BinNum(SrunEx(bin, counter)) == bin
    ensures FreeCounter(SrunEx(bin, counter)) == if counter == 512 then 0 else counter
    ensures Srun(bin) == SrunEx(bin, 0)
  {
    assert FreeCounter(SrunEx(bin, counter)) == counter & 0x1ff;
    assert counter < 512 ==> counter & 0x1ff == counter;
  }

  /** The entry of a later page reads back its class and how far it is from the first page. */
  lemma NrunReads(bin: bv32, offset: bv32)
    requires bin <= 31 && offset < 512
    ensures IsSmall(Nrun(bin, offset)) && IsLarge(Nrun(bin, offset))
    ensures BinNum(Nrun(bin, offset)) == bin && NrunOffset(Nrun(bin, offset)) == offset
  {}

  // ---- the entries of a chunk ----

  // The number a field holds, and the field for a number.
  function Value(x: bv32): (n: nat)
  {
    if x == 0 then 0 else 2 * Value(x >> 1) + if x & 1 == 1 then 1 else 0
  }

  function Field(n: nat): bv32
  {
    if n == 0 then 0 else (Field(n / 2) << 1) | if n % 2 == 1 then 1 else 0
  }

  predicate Width(limit: nat, mask: bv32)
  {
    || (limit == 0 && mask == 0) || (limit == 1 && mask == 1) || (limit == 3 && mask == 3) || (limit == 7 && mask == 7)
    || (limit == 15 && mask == 15) || (limit == 31 && mask == 31) || (limit == 63 && mask == 63)
    || (limit == 127 && mask == 127) || (limit == 255 && mask == 255) || (limit == 511 && mask == 511)
    || (limit == 1023 && mask == 1023)
  }

  lemma {:induction false} FieldHolds(n: nat, limit: nat, mask: bv32)
    requires n <= limit && Width(limit, mask)
    ensures Field(n) <= mask && Value(Field(n)) == n
  {
    hide *;
    if n == 0 {
      FieldOfNone();
    } else {
      WidthHalf(limit, mask);
      FieldHolds(n / 2, limit / 2, mask >> 1);
      Appended(Field(n / 2), mask, n % 2);
      FieldUnfolds(n);
      ValueUnfolds(Field(n));
    }
  }

  lemma FieldOfNone()
    ensures Field(0) == 0 && Value(0) == 0
  {}

  lemma FieldUnfolds(n: nat)
    requires n > 0
    ensures Field(n) == (Field(n / 2) << 1) | if n % 2 == 1 then 1 else 0
  {}

  lemma ValueUnfolds(x: bv32)
    ensures Value(x) == 2 * Value(x >> 1) + if x & 1 == 1 then 1 else 0
  {
    if x == 0 { assert x >> 1 == 0; }
  }

  lemma WidthHalf(limit: nat, mask: bv32)
    requires Width(limit, mask) && 0 < limit
    ensures Width(limit / 2, mask >> 1) && mask <= 1023 && mask & 1 == 1
  {}

  lemma Appended(x: bv32, mask: bv32, bit: nat)
    requires bit < 2 && mask <= 1023 && mask & 1 == 1 && x <= mask >> 1
    ensures var y := (x << 1) | if bit == 1 then 1 else 0;
      y <= mask && y >> 1 == x && y & 1 == if bit == 1 then 1 else 0
  {}

  lemma {:induction false} ValueNext(x: bv32, mask: bv32)
    requires x < mask <= 1023
    ensures Value(x + 1) == Value(x) + 1
    decreases mask
  {
    if x & 1 == 1 {
      Carried(x, mask);
      ValueNext(x >> 1, mask >> 1);
    } else {
      assert (x + 1) >> 1 == x >> 1 && (x + 1) & 1 == 1;
    }
  }

  lemma Carried(x: bv32, mask: bv32)
    requires x < mask <= 1023 && x & 1 == 1
    ensures (x + 1) >> 1 == (x >> 1) + 1 && (x + 1) & 1 == 0 && x >> 1 < mask >> 1 && mask >> 1 < mask
  {}

  /** The entry that the source writes for what the model keeps of a page. */
  function Encode(info: Chunks.PageInfo): bv32
  {
    match info
    case Frun => 0
    case Lrun(count) => Lrun(Field(count))
    case Srun(bin, counter) => SrunEx(Field(bin), Field(counter))
    case Nrun(bin, offset) => Nrun(Field(bin), Field(offset))
  }

  /** What the source reads off an entry. */
  predicate Reads(entry: bv32, info: Chunks.PageInfo)
  {
    match info
    case Frun => !IsSmall(entry) && !IsLarge(entry)
    case Lrun(count) => !IsSmall(entry) && IsLarge(entry) && Value(LrunPages(entry)) == count
    case Srun(bin, counter) =>
      IsSmall(entry) && !IsLarge(entry) && Value(BinNum(entry)) == bin && Value(FreeCounter(entry)) == counter
    case Nrun(bin, offset) =>
      IsSmall(entry) && IsLarge(entry) && Value(BinNum(entry)) == bin && Value(NrunOffset(entry)) == offset
  }

  /** Every entry that describes a page of a run reads back as what the model keeps, and as nothing else. */
  lemma EntryReads(info: seq<Chunks.PageInfo>, s: nat, r: Chunks.Run, page: nat, other: Chunks.PageInfo)
    requires Chunks.Described(info, s, r) && s + Chunks.Length(r) <= 512
    requires page == s || (r.Small? && s < page < s + Chunks.Length(r))
    requires info[page].Srun? ==> info[page].counter < 512
    ensures Reads(Encode(info[page]), other) <==> other == info[page]
  {
    hide Width;
    hide Encode;
    var i := page - s;
    if r.Small? && 0 < i { assert info[s + i] == Chunks.Nrun(r.bin, i); }
    InfoReads(info[page]);
  }

  lemma InfoReads(info: Chunks.PageInfo)
    requires info.Lrun? ==> info.count <= 512
    requires info.Srun? ==> info.counter < 512
    requires info.Nrun? ==> info.offset < 512
    ensures Reads(Encode(info), info)
  {
    hide Width, Field, Value;
    match info {
      case Frun =>
      case Lrun(count) =>
        FieldIs(count, 1023, 1023);
        LrunReads(Field(count));
      case Srun(bin, counter) =>
        FieldIs(bin, 31, 31);
        FieldIs(counter, 511, 511);
        SrunReads(Field(bin), Field(counter));
      case Nrun(bin, offset) =>
        FieldIs(bin, 31, 31);
        FieldIs(offset, 511, 511);
        NrunReads(Field(bin), Field(offset));
    }
  }

  lemma FieldIs(n: nat, limit: nat, mask: bv32)
    requires n <= limit
    requires (limit == 31 && mask == 31) || (limit == 511 && mask == 511) || (limit == 1023 && mask == 1023)
    ensures Field(n) <= mask && Value(Field(n)) == n
  {
    FieldHolds(n, limit, mask);
  }

  /** The counting pass raises the counter in place: the entry then reads as the class with the counter modulo 512. */
  lemma CounterWraps(entry: bv32, bin: Chunks.Bin, counter: nat)
    requires Reads(entry, Chunks.Srun(bin, counter))
    ensures Reads(SrunEx(BinNum(entry), FreeCounter(entry) + 1), Chunks.Srun(bin, (counter + 1) % 512))
  {
    hide Value, SrunEx, FreeCounter, BinNum, IsSmall, IsLarge;
    FieldsFit(entry);
    SrunReads(BinNum(entry), FreeCounter(entry) + 1);
    Successor(FreeCounter(entry));
  }

  lemma Successor(x: bv32)
    requires x <= 511
    ensures x + 1 <= 512 && Value(if x + 1 == 512 then 0 else x + 1) == (Value(x) + 1) % 512
  {
    hide Value;
    if x == 511 {
      Full();
    } else {
      ValueNext(x, 511);
      ValueBelow(x + 1, 511, 511);
    }
  }

  lemma FieldsFit(entry: bv32)
    ensures FreeCounter(entry) <= 511 && BinNum(entry) <= 31
  {}

  lemma Full()
    ensures Value(511) == 511 && Value(0) == 0
  {
    assert Value(1) == 1 && Value(3) == 3 && Value(7) == 7;
    assert Value(15) == 15 && Value(31) == 31 && Value(63) == 63;
    assert Value(127) == 127 && Value(255) == 255;
  }

  lemma {:induction false} ValueBelow(x: bv32, limit: nat, mask: bv32)
    requires x <= mask && Width(limit, mask)
    ensures Value(x) <= limit
  {
    if x != 0 { ValueBelow(x >> 1, limit / 2, mask >> 1); }
  }
}
