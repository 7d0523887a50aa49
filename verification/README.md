# A verified model of PHP 7.3 internals

The project models the parts of PHP 7.3 whose correctness rests on redundant state or on agreement between two pieces
of code, and proves that they keep what they promise. All of it is proved for every input, every size and every run;
nothing is bounded.

**The memory manager** (`Zend/zend_alloc.c`). Memory is handed out at three levels: huge blocks in a list, runs of
pages in 2 MB chunks, and slots of small runs on free lists. The heap keeps what is in use several times over: in a
bitmap per chunk, in page entries, in page counts, in `free_tail`, on free lists, in the chunk ring and cache, and in
two byte counts. The model is a class with these fields, changed in place by the source's own steps. A ghost value
beside it says what the heap means: which runs exist, which slots they have, and which blocks are live with which
bytes.

- `Words`, `Bitset`, `BestFit`: the bit tricks, the range operations over words, and the search over a bitmap of any
  number of words.
- `Sizes`, `PageEntries`: the size classes and the 32-bit page entries.
- `Spans`, `Chunks`: one chunk, with the invariant that the source's early stop at `free_tail` needs.
- `HeapState`: the meaning of a heap and its invariant, with one lemma for each kind of change.
- `HeapShape`, `HeapSteps`, `Collecting`: how objects implement that meaning, what operations do to it, and the passes
  of the collector.
- `Heap` (module `Heaps`): the heap itself. `Sessions`: arbitrary runs of client calls, from start-up on.
  `HeapInputs`: an input for each thing below that the heap does not do.

**Syntax trees** (`Zend/zend_ast.c`). `AstExport` and `AstWriter` hold the exporter of expressions and a parser that
undoes it, with the operator groups of the language's own grammar (`Precedence`, from `Zend/zend_language_parser.y`);
`AstStrings` the escapes of string literals and the literals' own rules; `AstCopy` the size pass, the copy into one
block and the release of references.

**Modules and arguments** (`Zend/zend_API.c`). `ModuleSort`: the ordering by swap and retry, and the start-up in that
order. `ParseArgs`: the specification string of a function's parameters, counted in one pass and walked in another.

**Thread-safe resources** (`TSRM/TSRM.c`). `Tsrm`: the table of per-thread storage arrays under one mutex, with the
fast path past it, as atomic steps that may come in any order.

**Smaller parts.** `Arenas` (`Zend/zend_arena.h`): bump allocation with checkpoints. `WordSets`
(`Zend/zend_bitset.h`): the optimizer's bit sets. `LineDiff` (`run-tests.php`): the line differ. `Heapsort`
(`Zend/bench.php`): the in-place sort.

`Wrappers` holds an option type.

## What the proofs brought to light

- The comment on `free_tail` (`Zend/zend_alloc.c:207`) does not describe it. What holds is that every used page from
  `free_tail` on belongs to the one run that also holds the page before it. In-place growth relies on this, since it
  does not move `free_tail`, and so does the search, which stops there.
- A small allocation that fails leaves its size charged to `heap->size` (`Zend/zend_alloc.c:1277-1290`), and so does
  the list entry of a huge block when the operating system refuses memory for it. So `size` is not the sum of the live
  blocks from start to end: as long as the operating system refuses nothing, a request takes the two apart exactly if
  it is a small one and stuck (`HeapInputs.AllocDrift`; `HeapInputs.LeftCharged` is an input). Stuck means, before the
  call: no slot is listed, no run fits, no chunk is cached, another does not fit under the limit, and a collection
  would make no way for one. It makes way if it empties two chunks behind the main one, or one, which then goes to the
  cache or whose charge brings the heap back under the limit (`Heaps.Heap.Alloc`). Every operation that allocates
  states what it adds, and `Sessions.Run` adds this up over whole runs.
- After a collection the source takes up the request for a chunk again, but not the search for pages
  (`Zend/zend_alloc.c:982-986`). So a request can be refused although a chunk now has room; made again, it is served
  (`HeapInputs.TryTwice` says exactly when, `HeapInputs.RefusedOnce` is an input).
- Nothing in the code keeps an emptied main chunk from being deleted: the deletion test holds for it exactly if no run
  lies in it (`Heaps.MainUnprotected`). Only a start-up with storage handlers (`zend_mm_startup_ex`) puts a first
  block there. The default start-up (`alloc_globals_ctor`) and a shutdown leave a main chunk that meets the test
  already, so a collection before the first allocation would delete it (`Heaps.BlankDeletable`). Giving back a run
  meets the test exactly if it was the only one there (`Heaps.Heap.ReleaseRun`), a sweep exactly if all runs there
  were garbage (`Heaps.Heap.SweepChunk`). The heap is safe as long as some block stays in the main chunk; any block
  there will do (`Heaps.Heap.Repin`), and in `Sessions` it changes as the client gives up its blocks.
- The counter of a page entry has nine bits and class 0 has 512 elements, so a free run of class 0 reads back as
  having no free slot and is never collected (`PageEntries.SrunReads`, `Collecting.CounterDecides`;
  `HeapInputs.IdleStays` is an input).
- `real_size` may exceed the limit by one chunk, because a huge block is checked against the limit before the small
  block for its list entry is allocated, and charged after it. `Heaps.Heap.AllocHuge` says exactly when, and
  `HeapInputs.OverTheLimit` gives the input. It is never more than a chunk: every operation keeps this
  (`Heaps.Heap.Valid`).
- After a shutdown that is not full, the chunks left in the cache are not charged to `real_size`. The model counts
  them in a ghost field, `uncharged`, and shows that the average number of chunks always outweighs them
  (`HeapInputs.LeftUncharged` is an input).
- Exporting a negative literal pays no regard to the priority around it, so the negative of five squared and the
  square of minus five print alike (`AstExport.NegativeLiteralsCollide`). These, invalid names and the spaceship below
  are all that does not come back.
- The exporter prints the spaceship as if it were a comparison, but in the grammar it is an equality, and those do not
  associate. So an equality with a spaceship as its operand is printed without the parentheses it needs, and PHP
  refuses the text (`AstExport.SpaceshipRefused`); this is the only place where parentheses are missing
  (`AstExport.Parenthesised`), and `AstExport.RoundTrip` holds exactly without it.
- `zend_sort_modules` does not end if modules wait for each other in a circle, be it by optional dependencies
  (`ModuleSort.EndsIff`).
- `ts_free_thread` calls the destructor of an id that is done on null, where `ts_free_id` and `tsrm_shutdown` do not.
  A ghost counter tells how often (`Tsrm.Manager.FreeThread`), and `Tsrm.NullDestructor` shows it in four steps.
- In a parameter specification, a bar right behind a variable-arguments marker makes the parser refuse arguments of
  the right number and types, exactly when the marker gets nothing and something follows it (`ParseArgs.ParseVaArgs`).
  And if no argument reaches the marker, its two outputs are not written at all (`ParseArgs.Shares`).
- `heapsort_r` comes to an end exactly for two elements or more (`Heapsort.ReturnsIff`).
- A small block is not moved to the next smaller class when it is reallocated to exactly the size of that class
  (`Heaps.Heap.ReallocFromSmall`).

## Model

| member | source | states |
|---|---|---|
| Words.TrailingZerosCounts | php-7.3.0/Zend/zend_bitset.h:41-76 | the halving steps count the trailing zero bits: every bit below the answer is clear and the bit at it is set; 64 exactly for the word 0 |
| Words.TrailingOnesCounts | php-7.3.0/Zend/zend_alloc.c:508-541 | the halving steps count the trailing set bits: every bit below the answer is set and the bit at it is clear; 64 exactly for the full word |
| Words.ClearTrailingOnes | php-7.3.0/Zend/zend_alloc.c:936-937 | `tmp & (tmp + 1)` clears the trailing ones of a word and keeps every other bit |
| Words.FillTrailingZeros | php-7.3.0/Zend/zend_alloc.c:969-970 | or-ing a word with the word less one sets its trailing zeros and keeps every other bit |
| Bitset.SetRange | php-7.3.0/Zend/zend_alloc.c:605-635 | in place over any number of words: the set of set bits becomes the old set with the interval added |
| Bitset.ResetRange | php-7.3.0/Zend/zend_alloc.c:637-667 | in place: the set of set bits becomes the old set without the interval |
| Bitset.IsFreeRange | php-7.3.0/Zend/zend_alloc.c:669-703 | true exactly if the interval and the set of set bits have no member in common |
| Bitset.IsSet | php-7.3.0/Zend/zend_alloc.c:590-593 | true exactly if the bit is a member of the set of set bits |
| WordSets.First | php-7.3.0/Zend/zend_bitset.h:188-198 | the least member of the set, or -1 exactly for the empty set |
| WordSets.Last | php-7.3.0/Zend/zend_bitset.h:200-217 | the greatest member of the set, found by shifting a word away, or -1 exactly for the empty set |
| WordSets.HighestBit | php-7.3.0/Zend/zend_bitset.h:205-214 | when the last shift has emptied the word, the bit counted last is its highest |
| WordSets.PopFirst | php-7.3.0/Zend/zend_bitset.h:246-252 | answers the least member and takes exactly it out of the set |
| WordSets.Union | php-7.3.0/Zend/zend_bitset.h:140-147 | the set becomes the union, also if both sets are one array |
| WordSets.Intersection | php-7.3.0/Zend/zend_bitset.h:131-138 | the set becomes the intersection |
| WordSets.Difference | php-7.3.0/Zend/zend_bitset.h:149-156 | the set becomes the difference |
| WordSets.Subset | php-7.3.0/Zend/zend_bitset.h:176-186 | true exactly if every member of the first set is one of the second |
| BestFit.Search | php-7.3.0/Zend/zend_alloc.c:911-972 | the word-at-a-time search finds a run exactly if some maximal free run holds `pages_count` pages, and then the leftmost of the shortest of those; it may stop at `free_tail` because every used page from there on is joined to the page before it |
| BestFit.NoFitMeansNone | php-7.3.0/Zend/zend_alloc.c:911-972 | the search fails exactly when no place at all has `pages_count` free pages in a row |
| BestFit.BestFitUnique | php-7.3.0/Zend/zend_alloc.c:959-968 | there is one best fit, and the pages it names are free |
| BestFit.ConcludeFree | php-7.3.0/Zend/zend_alloc.c:939-956 | past `free_tail` nothing has to be looked at: the free run that reaches the end is maximal, and the best of it and the runs before is the best of all |
| Sizes.BinFacts | php-7.3.0/Zend/zend_alloc_sizes.h:32-62 | every class has as many elements as fit into its pages, with less than a page to spare; only class 0 has more elements than nine bits can count |
| Sizes.HighBitIsBitLength | php-7.3.0/Zend/zend_alloc.c:1157-1183 | the halving steps of the size-to-bit function compute the bit length |
| Sizes.LeastClass | php-7.3.0/Zend/zend_alloc.c:1188-1213 | the shift formula gives the least class that holds a size, for every size, under the closed form of the table (four classes per doubling) |
| Sizes.TableIsClassSizes | php-7.3.0/Zend/zend_alloc_sizes.h:32-62 | the table is the closed form on all its 30 rows |
| Sizes.FormulaIsFirstMatch | php-7.3.0/Zend/zend_alloc.h:99-107 | the selector chain and the shift formula choose the same class for every small size |
| Sizes.WasteBounded | php-7.3.0/Zend/zend_alloc.c:1188-1213 | a block is larger than asked by less than a quarter of the request, and by less than 8 bytes up to 64 |
| PageEntries.LrunReads | php-7.3.0/Zend/zend_alloc.c:160-181 | the entry of a large run reads back its page count and is no small one |
| PageEntries.SrunReads | php-7.3.0/Zend/zend_alloc.c:161-183 | the entry of a small run reads back its class and its counter modulo 512, so 512 reads as 0 |
| PageEntries.NrunReads | php-7.3.0/Zend/zend_alloc.c:172-184 | the entry of a later page of a small run reads back its class and its distance from the first page |
| PageEntries.EntryReads | php-7.3.0/Zend/zend_alloc.c:160-184 | the entry that the source writes for what the model keeps of a page of a run reads back as that, and as nothing else |
| PageEntries.CounterWraps | php-7.3.0/Zend/zend_alloc.c:1962-1966 | adding one to the counter in an entry makes it read as the same class with the counter modulo 512: what the model writes when it counts |
| Chunks.Chunk.Find | php-7.3.0/Zend/zend_alloc.c:861-972 | the best fit of one chunk by its bitmap; the pages found begin before `free_tail` and overlap no run |
| Chunks.Chunk.Take | php-7.3.0/Zend/zend_alloc.c:1049-1056 | the pages become a run: bitmap, entries, `free_pages` and `free_tail` still describe exactly the runs |
| Chunks.Chunk.Release | php-7.3.0/Zend/zend_alloc.c:1125-1133 | the run is gone and bitmap, entries, `free_pages` and `free_tail` describe exactly the remaining runs |
| Chunks.Chunk.Shrink | php-7.3.0/Zend/zend_alloc.c:1642-1661 | a run is cut back in place; the pages behind are free again |
| Chunks.Chunk.Grow | php-7.3.0/Zend/zend_alloc.c:1662-1689 | a run grows in place exactly if the pages behind it exist and are free; `free_tail` is not touched and still straddles |
| Chunks.Chunk.MakeSmall | php-7.3.0/Zend/zend_alloc.c:1237-1245 | the entries of a fresh run become those of a small run of the class |
| Chunks.Chunk.Sweep | php-7.3.0/Zend/zend_alloc.c:2004-2027 | one pass over the entries frees exactly the runs whose counter is full and resets the counters of the others; the result is the number of pages of those runs |
| Chunks.TailStraddles | php-7.3.0/Zend/zend_alloc.c:939-956 | used pages from `free_tail` on all belong to the run that also holds page `free_tail` - 1: what the search needs |
| Chunks.ReleaseKeeps | php-7.3.0/Zend/zend_alloc.c:1127-1133 | releasing a run keeps the agreement of bitmap, entries, counters and runs, with `free_tail` lowered only if the run ended at it |
| Chunks.GrowKeeps | php-7.3.0/Zend/zend_alloc.c:1672-1681 | growing a run in place keeps the agreement without moving `free_tail` |
| Chunks.EmptyChunk | php-7.3.0/Zend/zend_alloc.c:1134-1136 | all pages but the header are free exactly when the chunk holds no run |
| HeapState.AddLargeInv | php-7.3.0/Zend/zend_alloc.c:1039-1056 | pages on free space become a live block and the whole invariant is kept |
| HeapState.CarveInv | php-7.3.0/Zend/zend_alloc.c:1237-1271 | a fresh run is carved into the slots of a class: one live, all others listed once, invariant kept |
| HeapState.PopInv | php-7.3.0/Zend/zend_alloc.c:1285-1288 | the head of a free list becomes live; it was no live block, and the invariant is kept |
| HeapState.PushInv | php-7.3.0/Zend/zend_alloc.c:1294-1312 | a live slot becomes the head of its free list; the invariant is kept |
| HeapState.AddHugeInv | php-7.3.0/Zend/zend_alloc.c:1707-1725 | a huge block and its list entry enter an address range that nothing uses; the invariant is kept |
| HeapState.RemoveHugeInv | php-7.3.0/Zend/zend_alloc.c:1726-1748 | a huge block leaves the list; the invariant is kept and its entry block is free to go |
| HeapState.DropChunkInv | php-7.3.0/Zend/zend_alloc.c:1090-1123 | a chunk without runs may be cached, replace a cached chunk or be unmapped; the invariant is kept |
| HeapState.CollectInv | php-7.3.0/Zend/zend_alloc.c:1927-2039 | removing runs none of whose slots is live keeps every live block and the invariant |
| HeapState.GarbageGone | php-7.3.0/Zend/zend_alloc.c:1927-2039 | after a collection there is nothing to collect |
| HeapState.CountFull | php-7.3.0/Zend/zend_alloc.c:1947-1968 | the number of free slots counted for a run reaches the number of its elements exactly when the free list holds them all |
| HeapState.IdleListed | php-7.3.0/Zend/zend_alloc.c:1962-1966 | a run has no live slot exactly when its free list holds all its elements |
| HeapState.LiveBlocksApart | php-7.3.0/Zend/zend_alloc.c:853-1056 | any two live blocks of a heap that satisfies the invariant are disjoint ranges of bytes |
| Collecting.CounterDecides | php-7.3.0/Zend/zend_alloc.c:1962-2016 | the 9-bit counter of a run reads its number of elements exactly if the run is garbage, and never does for class 0 |
| Heaps.Heap.CountFree | php-7.3.0/Zend/zend_alloc.c:1944-1968 | the free slots of a class are counted into the entries of their runs, and the answer tells of a full counter |
| Heaps.Heap.WithoutFull | php-7.3.0/Zend/zend_alloc.c:1974-1999 | the free list without exactly the slots of the runs that are garbage, in the same order |
| Heaps.Heap.Gc | php-7.3.0/Zend/zend_alloc.c:1927-2039 | no live block changes; exactly the runs of classes 1 to 29 without a live slot go, with their slots taken off the lists; the result is the size in bytes of their pages, and there are none afterwards; of the chunks behind the main one exactly those that had a run left stay in the ring, in their order |
| Collecting.SweptBusy | php-7.3.0/Zend/zend_alloc.c:2004-2036 | after a collection every chunk behind the main one holds a run |
| Heaps.Heap.SweepChunk | php-7.3.0/Zend/zend_alloc.c:2000-2036 | after a chunk is swept, the test that deletes a chunk holds exactly if all its runs were garbage; this needs no pinned block and covers the main chunk |
| Heaps.Heap.constructor | php-7.3.0/Zend/zend_alloc.c:1873-1925 | a heap without blocks, one chunk charged |
| Heaps.Heap.Pin | php-7.3.0/Zend/zend_alloc.c:2817-2890 | the first block of a blank heap lies in the main chunk and protects it |
| Heaps.MainUnprotected | php-7.3.0/Zend/zend_alloc.c:1134-1136 | the test that deletes a chunk holds for the main chunk exactly when no run lies in it: nothing but a pinned block protects it |
| Heaps.BlankDeletable | php-7.3.0/Zend/zend_alloc.c:1134-1136 | a heap just initialized or just shut down meets the deletion test for its main chunk already |
| Heaps.Heap.ReleaseRun | php-7.3.0/Zend/zend_alloc.c:1125-1136 | after a run is given back, the deletion test holds for the main chunk exactly if that was its only run; this needs no pinned block |
| Heaps.Heap.DeleteChunk | php-7.3.0/Zend/zend_alloc.c:1090-1123 | a chunk without runs leaves the ring: cached and still charged if fewer chunks than average would be left or chunks keep coming and going at this number, else one chunk less is charged and the younger of it and the head of the cache is unmapped; when the cache is empty, the number of chunks is remembered or counted once more |
| Heaps.Heap.MakeRoom | php-7.3.0/Zend/zend_alloc.c:976-995 | the retry after a collection ends; as called, it refuses exactly if none is cached, another chunk exceeds the limit and a collection would make no way; the heap then has nothing to collect and is still cornered; it collects only if none is cached and another does not fit |
| Heaps.Heap.MapNew | php-7.3.0/Zend/zend_alloc.c:996-1020 | a chunk from the operating system, which is asked again exactly if it refused at first and a collection then freed something; the memory charged rises by a chunk, less exactly what that collection gave back |
| Heaps.Heap.AskTwice | php-7.3.0/Zend/zend_alloc.c:996-1008 | memory is had exactly if the operating system grants it at once, or refuses it, a collection frees something, and it grants it then |
| Heaps.Heap.GetChunk | php-7.3.0/Zend/zend_alloc.c:976-1032 | the head of the cache, or a blank chunk within the limit, at the end of what is left of the ring; none exactly if `MakeRoom` must refuse, unless the operating system refuses |
| Heaps.Heap.AllocPages | php-7.3.0/Zend/zend_alloc.c:853-1056 | the best fit of the first chunk of the ring that has one, else page 1 of another chunk; the runs, the cache and the order of the ring afterwards are exact: the chunk moves behind the main one exactly if more than two hops led to it and fewer than 8 pages are asked for; the limit refuses it exactly if no chunk has room and none can be had |
| Heaps.Heap.AllocInNew | php-7.3.0/Zend/zend_alloc.c:974-1032 | the first pages of another chunk, which moves behind the main one by the hops of the search before it was had; refused exactly as the chunk is |
| Heaps.Heap.AllocSmall | php-7.3.0/Zend/zend_alloc.c:1274-1292 | the head of the free list if there is one, else the first element of a new run with the others listed in order; a failure leaves exactly the size of the class charged |
| Heaps.Heap.AllocSmallSlow | php-7.3.0/Zend/zend_alloc.c:1218-1272 | a new run for a class whose free list is empty: the answer is its first element, and the list is its other elements in order |
| Heaps.Heap.AllocLarge | php-7.3.0/Zend/zend_alloc.c:1059-1088 | whole pages, charged when they are there |
| Heaps.Heap.AllocHuge | php-7.3.0/Zend/zend_alloc.c:1786-1852 | a region of its own and a small block for the list entry; `real_size` ends up above the limit exactly if, once the limit was checked and the region granted, no slot for the entry was listed, no chunk cached, no page free, and another chunk (less what collections give back) did not fit; the heap at that moment is the one before the call, if there was no garbage, or what a collection made of it; once the region is granted only the operating system can refuse the entry, and that leaves the entry charged; without garbage the limit refuses exactly what does not fit beside the charge before the call |
| Heaps.Heap.GrantHuge | php-7.3.0/Zend/zend_alloc.c:1786-1838 | the region is granted only within the limit, after a collection if need be, and refused only by the limit or the operating system; the heap is as before or as a collection leaves it, and a chunk less is charged for each that left |
| Heaps.Heap.EnterHuge | php-7.3.0/Zend/zend_alloc.c:1707-1725 | the exact change of `real_size` when the entry of a granted region is allocated; only the operating system can refuse it, and then it stays charged |
| Heaps.PagesFit | php-7.3.0/Zend/zend_alloc.c:861-972 | the bitmaps of the chunks have room for a page exactly if the runs leave one |
| Heaps.Heap.Alloc | php-7.3.0/Zend/zend_alloc.c:1342-1385 | the client gains a block of the size its request is rounded up to and everything else is as before; a request served from a chunk takes the head of its list and no pages, or a run where the search says, with the ring, the cache and the runs exact; it is refused by the limit exactly if it is stuck: no slot is listed, no run fits, none is cached, another chunk does not fit, and a collection would make no way; a huge one, without garbage, exactly if its region does not fit; a success charges exactly the block, a refused small request stays charged with its class, a huge one with its entry if that is what failed |
| Heaps.Heap.Free | php-7.3.0/Zend/zend_alloc.c:1387-1410 | the client loses the block and nothing else changes for it; null is ignored |
| Heaps.Heap.FreePages | php-7.3.0/Zend/zend_alloc.c:1125-1142 | the run is given back; its chunk stays in the ring exactly if it holds another run, else it is retired and the ring is as before without it |
| Heaps.Heap.FreeHuge | php-7.3.0/Zend/zend_alloc.c:1854-1866 | the huge block and the block that holds its list entry are both gone, and the charges follow |
| Heaps.Heap.Size | php-7.3.0/Zend/zend_alloc.c:1412-1438 | the size of the block |
| Heaps.Heap.Realloc | php-7.3.0/Zend/zend_alloc.c:1547-1700 | where the block is afterwards, from the heap before: a small one stays exactly if it fits its class and is not below the next smaller one, and then nothing changes; a large one exactly if it stays large and needs no more pages or those behind it are free; a huge one if it stays huge and needs no more; none of these is refused. On every path the block has exactly the size its class, pages or region give, begins with its old bytes up to the copy size, with all that fit if it stays, and no other block changes; a failure changes no block; what is charged follows as for an allocation; any copy size that the source does not write past the new block with |
| Heaps.Heap.ReallocSlow | php-7.3.0/Zend/zend_alloc.c:1440-1458 | a new block, as many bytes copied as the copy size says, the old block gone; any copy size that both blocks have room for |
| Heaps.Heap.ReallocHuge | php-7.3.0/Zend/zend_alloc.c:1460-1545 | a huge block that stays huge and needs no more is cut in place, whatever the copy size; a larger one is extended in place if the limit and the operating system allow, else moved; a block that may not grow within the limit stays as it is |
| Heaps.Heap.ReallocFromSmall | php-7.3.0/Zend/zend_alloc.c:1575-1625 | kept in place exactly if the new size fits its class and is not below the size of the next smaller class (a size equal to that one keeps the larger class), else moved or refused |
| Heaps.Heap.ReallocFromLarge | php-7.3.0/Zend/zend_alloc.c:1626-1699 | a large block stays in place exactly if it stays large and needs no more pages or the pages behind it are free; else it is moved or refused |
| Heaps.NewSizeEnough | php-7.3.0/Zend/zend_alloc.c:1547-1700 | the size of a block after a reallocation is never below what was asked for |
| Heaps.Heap.ReallocLarge | php-7.3.0/Zend/zend_alloc.c:1627-1691 | kept, cut or grown in place exactly if it does not need more pages or the pages behind it are free |
| Heaps.Heap.Shutdown | php-7.3.0/Zend/zend_alloc.c:2231-2330 | no block is left, the main chunk is blank and charged as one chunk; the cache keeps exactly as many chunks as there were, or as many as the new average allows if that is fewer, and they are not charged |
| HeapSteps.HugeByOffset | php-7.3.0/Zend/zend_alloc.c:1387-1396 | a live block begins at a chunk boundary exactly if it is huge |
| HeapSteps.BlockSizeEnough | php-7.3.0/Zend/zend_alloc.c:1342-1385 | a block is never smaller than asked for, and the next smaller class would be |
| Sessions.Perform | php-7.3.0/Zend/zend_alloc.c:2337-2355 | one client call: its event answers it (a request is served with a new block or refused, a release takes exactly its block, a reallocation leaves a block in place whenever its size alone says so and else may move it, with its first bytes and exactly its new size), a refusal is the operating system's or the request did not fit under the limit, for an allocation from a chunk exactly if it was stuck before the call, and the heap then holds exactly what the event leaves the client, byte for byte |
| Sessions.Run | php-7.3.0/Zend/zend_alloc.c:853-2330 | over every run of calls from start-up on: each event answers its call; no request is refused by the limit that would have fitted under it beside a chunk and the region for each block handed out before; refusals of the operating system are counted; the blocks and bytes of the client are what replaying the events gives; live blocks are disjoint; `size` is the bytes of the live blocks and what refusals since the last restart left charged, so exactly the live bytes if nothing was refused; `real_size` is between one chunk and the limit plus one chunk |
| Sessions.NothingUnpaid | php-7.3.0/Zend/zend_alloc.c:1274-1292 | a run without a refusal leaves nothing charged |
| HeapInputs.AllocDrift | php-7.3.0/Zend/zend_alloc.c:1274-1292 | a request takes `size` away from the sum of the live blocks exactly if it is small and stuck before the call, as long as the operating system refuses nothing |
| HeapInputs.LeftCharged | php-7.3.0/Zend/zend_alloc.c:1274-1292 | an input: with a full main chunk and a limit of one chunk, 8 bytes are refused and stay charged |
| HeapInputs.TryTwice | php-7.3.0/Zend/zend_alloc.c:976-995 | a stuck request is refused, and served when it is made again exactly if the collection that came with the refusal has freed a run for it: after collecting, the source does not search again |
| HeapInputs.RefusedOnce | php-7.3.0/Zend/zend_alloc.c:976-995 | an input: a large block and an idle run fill the main chunk; 8 bytes are refused at first and served at the second attempt |
| HeapInputs.OverTheLimit | php-7.3.0/Zend/zend_alloc.c:1786-1852 | an input that ends at the limit plus one chunk: a block that fills the main chunk, then a huge block that just fits under the limit |
| HeapInputs.IdleStays | php-7.3.0/Zend/zend_alloc.c:1962-2016 | an input: an idle run of class 0 that a collection leaves |
| HeapInputs.LeftUncharged | php-7.3.0/Zend/zend_alloc.c:2231-2330 | an input: after three chunks were in use, a shutdown leaves a chunk in the cache that is not charged |
| Precedence.InGroups | php-7.3.0/Zend/zend_language_parser.y:57-79 | every operator is in the group of the grammar that its rank names, the loosest first, and associates as that group does |
| AstExport.RoundTrip | php-7.3.0/Zend/zend_ast.c:1286-1951 | reading the exported text with a parser that takes binding and associativity from the precedence declarations of the grammar gives the expression back exactly if it holds no negative literal, every variable name is one, and no operand of an equality is a spaceship |
| AstExport.ReadBack | php-7.3.0/Zend/zend_ast.c:1938-1951 | the text of an expression printed at any priority is read up to its end by a parser for any looser operators, whatever follows it that no operator of the expression takes in; what may not follow is barred |
| AstExport.Parenthesised | php-7.3.0/Zend/zend_ast.c:1480-1700 | for every operator and every place of an operand, parentheses are printed exactly if the groups of the grammar want them, except around a spaceship under an equality, where they are missing, and in three kinds of places where they are spare |
| AstExport.LevelRank | php-7.3.0/Zend/zend_language_parser.y:57-79 | the priorities are those of the groups of the grammar, in their order and with their associativity, except that the spaceship is printed with the comparisons |
| AstExport.SpaceshipRefused | php-7.3.0/Zend/zend_ast.c:1643-1649 | an input: a spaceship as the left operand of an equality is printed without parentheses, and the grammar refuses the text |
| AstExport.NegativeLiteralsCollide | php-7.3.0/Zend/zend_ast.c:1186-1189 | two different expressions with a negative literal have the same text |
| AstWriter.ExportEx | php-7.3.0/Zend/zend_ast.c:1286-1951 | appends exactly the text of the expression at the given priority, which `AstExport.RoundTrip` and `AstExport.Parenthesised` are about |
| AstWriter.ExportPrefix | php-7.3.0/Zend/zend_ast.c:1946-1951 | appends the operator and its operand, in parentheses exactly if the priority asks for them |
| AstWriter.ExportBinary | php-7.3.0/Zend/zend_ast.c:1938-1944 | appends the operands around the operator, in parentheses exactly if the priority asks for them |
| AstWriter.ExportConditional | php-7.3.0/Zend/zend_ast.c:1848-1860 | appends the conditional, long or short |
| AstWriter.ExportIndex | php-7.3.0/Zend/zend_ast.c:1580-1587 | appends the base and the index, which may be empty |
| AstWriter.ExportVar | php-7.3.0/Zend/zend_ast.c:998-1014 | appends a valid name as it is and any other in braces |
| AstStrings.ExportStr | php-7.3.0/Zend/zend_ast.c:860-873 | appends the string with quotes and backslashes escaped |
| AstStrings.ExportQstr | php-7.3.0/Zend/zend_ast.c:875-918 | appends the string with control characters, the quote, backslash and dollar sign escaped |
| AstStrings.SingleQuotesRoundTrip | php-7.3.0/Zend/zend_ast.c:860-873 | reading a printed single-quoted literal gives the original string and what follows its closing quote |
| AstStrings.DoubleQuotesRoundTrip | php-7.3.0/Zend/zend_ast.c:875-918 | reading a literal printed between interpolating quotes gives the original string, octal escapes included |
| AstStrings.ShortestEscape | php-7.3.0/Zend/zend_ast.c:875-918 | no escape that reads as the same character whatever follows it is shorter than the one printed |
| AstCopy.MeasureTree | php-7.3.0/Zend/zend_ast.c:664-691 | the size of a tree, node by node |
| AstCopy.RecordSizes | php-7.3.0/Zend/zend_ast.c:669-681 | the sizes that are added up are those of the records, field by field |
| AstCopy.Memory.TreeCopy | php-7.3.0/Zend/zend_ast.c:693-739 | the end of the copy is its start plus the measured size; memory changes by exactly its records; one reference is taken for each occurrence of a counted value |
| AstCopy.PackedTiles | php-7.3.0/Zend/zend_ast.c:693-739 | the records of a copy fill exactly the measured bytes, one behind the other, without gap or overlap |
| AstCopy.CopyRepresents | php-7.3.0/Zend/zend_ast.c:693-739 | reading the copy back gives the tree that was copied |
| AstCopy.ReadUnique | php-7.3.0/Zend/zend_ast.c:693-739 | memory holds at most one tree at an address |
| AstCopy.Memory.Destroy | php-7.3.0/Zend/zend_ast.c:755-800 | releases exactly the references of the tree |
| AstCopy.CopyAndDestroy | php-7.3.0/Zend/zend_ast.c:741-753 | measure, copy, destroy: the copy reads back as the tree and all reference counts are as before |
| ModuleSort.SortModules | php-7.3.0/Zend/zend_API.c:1897-1929 | swap and retry ends for acyclic dependencies, permutes the modules, and leaves no unstarted module before one it requires or optionally depends on; the result is the one that the exchanges lead to, each at the first place not settled, with the module that `LaterDependency` finds |
| ModuleSort.LaterDependency | php-7.3.0/Zend/zend_API.c:1907-1924 | finds the nearest module behind that the first dependency with any behind names, in the order of the dependencies |
| ModuleSort.OneEnd | php-7.3.0/Zend/zend_API.c:1897-1929 | the exchanges lead to one result only |
| ModuleSort.OrderedStays | php-7.3.0/Zend/zend_API.c:1897-1929 | modules that are in order already stay as they are |
| ModuleSort.EndsIff | php-7.3.0/Zend/zend_API.c:1897-1929 | the exchanges come to an end exactly if no modules wait for each other in a circle |
| ModuleSort.RankFalls | php-7.3.0/Zend/zend_API.c:1905-1921 | each swap brings a module of lower rank to the place at hand |
| ModuleSort.OrderedIsRanked | php-7.3.0/Zend/zend_API.c:1897-1929 | such an order exists only if no modules wait for each other in a circle |
| ModuleSort.StartupModule | php-7.3.0/Zend/zend_API.c:1831-1888 | fails exactly if a required module is not registered, is not started, or the module does not start up; it counts as started afterwards unless a requirement is not met |
| ModuleSort.StartupModules | php-7.3.0/Zend/zend_API.c:2001-2007 | the modules left in the registry are, in the sorted order, exactly those that load: started before, or starting up with all they require loaded |
| ModuleSort.NoneDropped | php-7.3.0/Zend/zend_API.c:1831-1895 | if all that is required is registered and starts up, every module loads |
| ParseArgs.CountArgs | php-7.3.0/Zend/zend_API.c:882-937 | accepts exactly the texts of legal characters with at most one marker, and finds the fewest and the most arguments and the parameters behind the marker |
| ParseArgs.NeedsOf | php-7.3.0/Zend/zend_API.c:882-937 | for a well-formed specification these are: the parameters before the bar, all parameters, those behind the marker, a plus counting as one |
| ParseArgs.Walk | php-7.3.0/Zend/zend_API.c:963-1002 | a walk that succeeds hands out every argument number once and in order, never reading past the text; for a well-formed specification it hands them out one item at a time |
| ParseArgs.HandedIsShares | php-7.3.0/Zend/zend_API.c:963-1000 | handing out one item at a time gives the prefix first, then the variable arguments that the suffix can spare, then the suffix |
| ParseArgs.StopsIsStuck | php-7.3.0/Zend/zend_API.c:965-991 | the walk stops in a well-formed specification exactly if a bar stands right behind a marker that gets nothing |
| ParseArgs.ParseVaArgs | php-7.3.0/Zend/zend_API.c:869-1002 | succeeds for a well-formed specification exactly if the count fits, the arguments were passed, each passes its own check and the walk is not stuck; then every argument has gone where the specification says; a refusal names the first argument refused |
| ParseArgs.ParseArg | php-7.3.0/Zend/zend_API.c:562-590 | reads one letter and all its modifiers |
| ParseArgs.StuckExample | php-7.3.0/Zend/zend_API.c:965-991 | a star, a bar and an `s`, called with one argument: the count fits and the walk gets stuck |
| Tsrm.Manager.constructor | php-7.3.0/TSRM/TSRM.c:127-170 | an empty table |
| Tsrm.Manager.AllocateId | php-7.3.0/TSRM/TSRM.c:233-287 | a new id; every thread's array gets a block for it and nothing else changes; the blocks added to the record are exactly those that come into use; the mutex is free again |
| Tsrm.Manager.Resource | php-7.3.0/TSRM/TSRM.c:331-390 | the fast path answers what the locked lookup would; a thread without an entry first gets one, and other threads may run before the lookup is repeated; blocks made and destructors called stay on record |
| Tsrm.Manager.AllocateNewResource | php-7.3.0/TSRM/TSRM.c:290-328 | the thread gets its one entry, with a block for every id that is not done, and the mutex is free again |
| Tsrm.Manager.FreeThread | php-7.3.0/TSRM/TSRM.c:453-491 | the thread's entry and blocks go, no other thread's; destructors are called on null exactly as often as there are ids that are done and have one, if the thread has an entry, and else not at all |
| Tsrm.Manager.FreeId | php-7.3.0/TSRM/TSRM.c:541-571 | the blocks of all threads for the id go, their cells are null and the id is done; no other cell changes and no destructor is called on null |
| Tsrm.Manager.Shutdown | php-7.3.0/TSRM/TSRM.c:172-207 | every block still in use is destroyed once if its type has a destructor; no destructor is called on null |
| Tsrm.NullsIff | php-7.3.0/TSRM/TSRM.c:467-471 | a thread that is given up has destructors called on null exactly if some id is done and has one |
| Tsrm.NullDestructor | php-7.3.0/TSRM/TSRM.c:453-491 | allocate an id with a destructor, use it, free it, give the thread up: a destructor is called on null |
| Tsrm.DropEntry | php-7.3.0/TSRM/TSRM.c:465-484 | taking out an entry and destroying its blocks keeps the account of blocks made, in use and destroyed |
| Tsrm.Manager.Search | php-7.3.0/TSRM/TSRM.c:361-383 | the walk through a thread's bucket ends at the entry that its thread-local storage points to, and past the last entry exactly if the thread has none |
| Tsrm.TableShrinks | php-7.3.0/TSRM/TSRM.c:476-482 | unlinking an entry keeps one entry per thread, each in its own bucket |
| Tsrm.Session | php-7.3.0/TSRM/TSRM.c:172-571 | over any interleaving of steps of any threads and then the shutdown: no block is destroyed twice, and each block whose type has a destructor exactly once |
| Arenas.Pool.constructor | php-7.3.0/Zend/zend_arena.h:32-40 | an arena without blocks |
| Arenas.HeaderSize | php-7.3.0/Zend/zend_arena.h:26-30 | the header is as large as its fields |
| Arenas.Pool.Alloc | php-7.3.0/Zend/zend_arena.h:53-77 | an 8-aligned block inside the arena in use, disjoint from all others; a new arena is chained exactly if the block does not fit, as large as the last one or as the block and a header need |
| Arenas.BumpedInv | php-7.3.0/Zend/zend_arena.h:60-61 | moving the bump pointer keeps all blocks inside their arenas and disjoint |
| Arenas.ChainedInv | php-7.3.0/Zend/zend_arena.h:62-74 | a new arena in free address space keeps all blocks inside their arenas and disjoint |
| Arenas.CheckpointFindsArena | php-7.3.0/Zend/zend_arena.h:103-108 | of the arena of a checkpoint and all made since, the release test lets stand exactly that one, also when the checkpoint is its end and another arena starts there |
| Arenas.Pool.Release | php-7.3.0/Zend/zend_arena.h:99-111 | arenas, bump pointer and blocks are as at the checkpoint; exactly the arenas made since are freed, newest first |
| Arenas.Pool.Within | php-7.3.0/Zend/zend_arena.h:94-111 | whatever is done between a checkpoint and its release, nested checkpoints included, all is as before |
| Arenas.Pool.Run | php-7.3.0/Zend/zend_arena.h:53-111 | whatever is allocated, with stretches taken back at their end: what was there before is still there, and what is left has exactly the sizes asked for outside of the stretches, rounded up |
| Arenas.Pool.Destroy | php-7.3.0/Zend/zend_arena.h:42-49 | every arena is freed, and no arena twice over the life of the pool |
| LineDiff.CountDiff | php-7.3.0/run-tests.php:2251-2291 | the score of going on at two lines: what matches at once, and the best score after leaving out lines of one text, within the budget |
| LineDiff.ScoreIsChain | php-7.3.0/run-tests.php:2251-2291 | the score is the length of some chain of matching lines that grows on both sides, so at most the lines left on either side, and at least the number of lines that match at once |
| LineDiff.GenerateDiff | php-7.3.0/run-tests.php:2293-2356 | what is reported follows the scores; the wanted lines not reported removed and the output lines not reported added match one to one in order; each reported line is listed once, in the order of its side; nothing is reported exactly if all lines match |
| LineDiff.OneAdded | php-7.3.0/run-tests.php:2293-2356 | for all texts: a line more in the output, unlike the wanted line at its place, is reported as that line alone |
| LineDiff.OneRemoved | php-7.3.0/run-tests.php:2293-2356 | for all texts: a line missing in the output is reported as that line alone |
| LineDiff.Merge | php-7.3.0/run-tests.php:2323-2346 | the merged list holds the removed lines and the added lines, each side complete and in order, with a run carried on before another is begun, and the lower number first |
| LineDiff.RunsTogether | php-7.3.0/run-tests.php:2323-2346 | consecutive lines of one side are listed one right behind the other |
| LineDiff.AppliedGivesOutput | php-7.3.0/run-tests.php:2293-2356 | when lines are compared as they are, removing and inserting what is reported turns the wanted text into the output |
| Heapsort.Sort | php-7.3.0/Zend/bench.php:218-248 | for two elements or more: ends after n/2 + n - 1 passes with the elements at 1 to n in order, a permutation of what was there, and touches nothing else |
| Heapsort.ReturnsIff | php-7.3.0/Zend/bench.php:218-233 | the sort comes to an end exactly for two elements or more |
| Heapsort.NeverReturns | php-7.3.0/Zend/bench.php:218-233 | with fewer than two elements no number of passes reaches the end, and no element is ever sifted |
| Heapsort.Sift | php-7.3.0/Zend/bench.php:234-247 | fills the hole so that the range is a heap again, with the same elements |
| Heapsort.RootIsLargest | php-7.3.0/Zend/bench.php:226-228 | the root of a heap is its largest element |
| Heapsort.Picked | php-7.3.0/Zend/bench.php:225-233 | moving the root behind the heap and sifting in the displaced element keeps heap, order behind it and elements |

## Left out

- Heaps.Heap.Shutdown: full shutdown, which only gives everything back to the operating system, is not modelled.
- Heaps.Heap.ReallocHuge: whether the operating system extends a region in place is an arbitrary choice.
- Heaps.Heap.Realloc: a block that leaves the large or huge blocks for a smaller kind must fit the new block as far as the copy size says (`Spills`); the source would write past the block.
- Heaps.Heap.AllocHuge: where a granted region lies is settled when it enters the list, and a region whose list entry cannot be allocated is not tracked, since the source does not return from there.
- Heaps.Heap.Pin: the first block of a blank heap is a small or large one; a huge block as the very first, whose list entry alone would then hold the main chunk, and start-up with storage handlers are not modelled.
- Sessions.Perform: a call that gives up the client's last block in the main chunk, names a block the client does not hold, or has bytes copied past the new block is ignored.
- AstExport.RoundTrip: what may stand left of an assignment or before an index is not restricted to what the grammar allows; the parser reads signs one by one; in PHP source text two minus signs in a row would be a decrement.
- AstCopy.Memory.TreeCopy: line numbers are not modelled.
- ModuleSort.StartupModule: a start-up function that fails ends the process in the source; here the module leaves the registry.
- ParseArgs.ParseArg: what a letter accepts and converts is a parameter; resetting the variable-arguments output after a refusal is not modelled.
- ParseArgs.ParseVaArgs: the errors it raises are told apart, their texts are not modelled.
- Tsrm.Manager.Resource: another thread's id as argument and the interpreter contexts are not modelled.
- LineDiff.GenerateDiff: the padding of line numbers is left to a datatype; keys are compared only among themselves, so their base does not matter.
- Arenas.Pool.Alloc: `emalloc` is any address apart from the arenas in use.
- Heapsort.Sort: fewer than two elements, for which the source does not end (`Heapsort.ReturnsIff`); what it writes before is not modelled.
- `mmap`, `munmap` and their alignment: address space lies anywhere outside the heap; what the operating system answers to each request is an arbitrary sequence, and refusals are counted.
- `zend_mm_safe_error` and the bailout behind it: a failing call returns no block.
- Peak counters, debug builds, leak reports, custom heaps, storage handlers and Windows.
- A limit or overflow flag that changes while the heap is in use: both are fixed per heap.
- Machine widths of sizes and pointers: sizes and addresses are natural numbers.
- `zend_ast_list_add`, casts, increments, `clone`, `instanceof`, member access, calls, statements, declarations and doubles in the exporter; constant evaluation.
- `ts_free_worker_threads`, failures of `malloc` inside TSRM, and the thread begin and end handlers.
- `zend_bitset_union_with_intersection` and `zend_bitset_union_with_difference`, which only combine what is here.
- The rest of `zend_API.c`, `run-tests.php` and `bench.php`, and the web pages beside PHP.
