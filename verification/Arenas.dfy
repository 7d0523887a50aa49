/** The bump allocator: a chain of arenas, with checkpoints that take it back to an earlier state. */
module Arenas {
  const HEADER: nat := 24 // sizeof(zend_arena)
  const ALIGNMENT: nat := 8

  function Aligned(size: nat): (r: nat)
    ensures r % ALIGNMENT == 0 && size <= r < size + ALIGNMENT
  {
    (size + ALIGNMENT - 1) / ALIGNMENT * ALIGNMENT
  }

  /** The header holds three pointers, and needs no padding. */
  lemma HeaderSize()
    ensures HEADER == Aligned(8 + 8 + 8) == 8 + 8 + 8
  {}

  // One arena: its header stands at base, the next allocation goes to ptr.
  datatype Region = Region(base: nat, end: nat, ptr: nat)

  datatype Block = Block(start: nat, size: nat)

  // The arenas from the oldest to the one in use, and the blocks handed out.
  datatype State = State(regions: seq<Region>, blocks: seq<Block>)

  ghost predicate Sane(r: Region)
  {
    r.base % ALIGNMENT == 0 && r.ptr % ALIGNMENT == 0 && r.base + HEADER <= r.ptr <= r.end
  }

  ghost predicate Apart(a: Region, b: Region)
  {
    a.end <= b.base || b.end <= a.base
  }

  ghost predicate Inside(b: Block, r: Region)
  {
    r.base + HEADER <= b.start && b.start + b.size <= r.ptr
  }

  ghost predicate Disjoint(a: Block, b: Block)
  {
    a.start + a.size <= b.start || b.start + b.size <= a.start
  }

  ghost predicate Placed(b: Block, regions: seq<Region>)
  {
    b.start % ALIGNMENT == 0 && exists i :: 0 <= i < |regions| && Inside(b, regions[i])
  }

  ghost predicate AllApart(regions: seq<Region>)
  {
    forall i, j :: 0 <= i < j < |regions| ==> Apart(regions[i], regions[j])
  }

  ghost predicate AllDisjoint(blocks: seq<Block>)
  {
    forall i, j :: 0 <= i < j < |blocks| ==> Disjoint(blocks[i], blocks[j])
  }

  ghost predicate Inv(s: State)
  {
    && s.regions != []
    && (forall i :: 0 <= i < |s.regions| ==> Sane(s.regions[i]))
    && AllApart(s.regions)
    && (forall i :: 0 <= i < |s.blocks| ==> Placed(s.blocks[i], s.regions))
    && AllDisjoint(s.blocks)
  }

  // What allocations can have made of an earlier state.
  ghost predicate Extends(was: State, now: State)
  {
    var top := |was.regions| - 1;
    && 0 <= top < |now.regions|
    && (forall i :: 0 <= i < top ==> now.regions[i] == was.regions[i])
    && now.regions[top].base == was.regions[top].base && now.regions[top].end == was.regions[top].end
    && was.regions[top].ptr <= now.regions[top].ptr
    && was.blocks <= now.blocks
  }

  lemma ExtendsTransitive(a: State, b: State, c: State)
    requires Extends(a, b) && Extends(b, c)
    ensures Extends(a, c)
  {
  }

  function Top(s: State): Region
    requires s.regions != []
  {
    s.regions[|s.regions| - 1]
  }

  function Bumped(s: State, size: nat): State
    requires s.regions != []
  {
    var r := Top(s);
    State(s.regions[|s.regions| - 1 := r.(ptr := r.ptr + size)], s.blocks + [Block(r.ptr, size)])
  }

  function Chained(s: State, base: nat, length: nat, size: nat): State
  {
    State(s.regions + [Region(base, base + length, base + HEADER + size)], s.blocks + [Block(base + HEADER, size)])
  }

  // A block that is placed lies in one of the regions, and stays placed when they only grow.
  lemma StillPlaced(b: Block, regions: seq<Region>, now: seq<Region>)
    requires Placed(b, regions) && |regions| <= |now|
    requires forall i :: 0 <= i < |regions| ==> now[i].base == regions[i].base && regions[i].ptr <= now[i].ptr
    ensures Placed(b, now)
  {
    var k :| 0 <= k < |regions| && Inside(b, regions[k]);
    assert Inside(b, now[k]);
  }

  // A new block at or behind everything its region has handed out is apart from all blocks.
  lemma NewDisjoint(b: Block, regions: seq<Region>, added: Block)
    requires Placed(b, regions) && forall i :: 0 <= i < |regions| ==> Sane(regions[i])
    requires forall i :: 0 <= i < |regions| ==>
      regions[i].ptr <= added.start || added.start + added.size <= regions[i].base
    ensures Disjoint(b, added)
  {
    var k :| 0 <= k < |regions| && Inside(b, regions[k]);
  }

  lemma BumpedInv(s: State, size: nat)
    requires Inv(s) && size % ALIGNMENT == 0 && Top(s).ptr + size <= Top(s).end
    ensures Inv(Bumped(s, size)) && Extends(s, Bumped(s, size))
  {
    var n, b := Bumped(s, size), Block(Top(s).ptr, size);
    BumpedRegions(s, size);
    hide *;
    OneMoreBlock(s, n, b, |s.regions| - 1);
  }

  lemma BumpedRegions(s: State, size: nat)
    requires Inv(s) && size % ALIGNMENT == 0 && Top(s).ptr + size <= Top(s).end
    ensures var n, b := Bumped(s, size), Block(Top(s).ptr, size);
      && Grown(s.regions, n.regions) && Behind(s.regions, b) && n.blocks == s.blocks + [b]
      && Inside(b, Top(n)) && b.start % ALIGNMENT == 0 && Extends(s, n)
  {
    var n, top := Bumped(s, size), |s.regions| - 1;
    var r := s.regions[top];
    assert Sane(r);
    BumpedRegion(r, size);
    TopIsBehind(s, size);
    hide Placed, AllDisjoint, Sane, Apart, Inside, Behind;
    assert Top(n) == r.(ptr := r.ptr + size);
  }

  lemma BumpedRegion(r: Region, size: nat)
    requires Sane(r) && size % ALIGNMENT == 0 && r.ptr + size <= r.end
    ensures Sane(r.(ptr := r.ptr + size)) && Inside(Block(r.ptr, size), r.(ptr := r.ptr + size))
    ensures r.ptr % ALIGNMENT == 0
  {}

  lemma TopIsBehind(s: State, size: nat)
    requires Inv(s) && Top(s).ptr + size <= Top(s).end
    ensures Behind(s.regions, Block(Top(s).ptr, size))
    ensures forall i :: 0 <= i < |s.regions| - 1 ==> Apart(s.regions[i], Top(s).(ptr := Top(s).ptr + size))
  {
    hide Placed, AllDisjoint;
    var top := |s.regions| - 1;
    forall i | 0 <= i < top
      ensures Apart(s.regions[i], s.regions[top]) && Sane(s.regions[i]) && Sane(s.regions[top]) {}
  }

  // The regions stay or grow, and are as they should be.
  ghost predicate Grown(regions: seq<Region>, now: seq<Region>)
  {
    && 0 < |regions| <= |now| && AllApart(now)
    && (forall i :: 0 <= i < |now| ==> Sane(now[i]))
    && (forall i :: 0 <= i < |regions| ==> now[i].base == regions[i].base && regions[i].ptr <= now[i].ptr)
  }

  // A block lies outside of what the regions have handed out.
  ghost predicate Behind(regions: seq<Region>, b: Block)
  {
    forall i :: 0 <= i < |regions| ==> regions[i].ptr <= b.start || b.start + b.size <= regions[i].base
  }

  lemma OneMoreBlock(s: State, n: State, b: Block, k: nat)
    requires Inv(s) && Grown(s.regions, n.regions) && Behind(s.regions, b) && n.blocks == s.blocks + [b]
    requires k < |n.regions| && Inside(b, n.regions[k]) && b.start % ALIGNMENT == 0
    ensures Inv(n)
  {
    hide Placed, Sane, Inside, Apart, Disjoint;
    forall i | 0 <= i < |s.blocks| ensures Placed(s.blocks[i], n.regions) && Disjoint(s.blocks[i], b) {
      StillPlaced(s.blocks[i], s.regions, n.regions);
      NewDisjoint(s.blocks[i], s.regions, b);
    }
    PlacedAt(b, n.regions, k);
  }

  lemma PlacedAt(b: Block, regions: seq<Region>, k: nat)
    requires k < |regions| && Inside(b, regions[k]) && b.start % ALIGNMENT == 0
    ensures Placed(b, regions)
  {
  }

  ghost predicate Fresh(s: State, base: nat, length: nat)
  {
    base % ALIGNMENT == 0 && forall i :: 0 <= i < |s.regions| ==> Apart(s.regions[i], Region(base, base + length, base))
  }

  lemma ChainedInv(s: State, base: nat, length: nat, size: nat)
    requires Inv(s) && Fresh(s, base, length) && size % ALIGNMENT == 0 && HEADER + size <= length
    ensures Inv(Chained(s, base, length, size)) && Extends(s, Chained(s, base, length, size))
  {
    var n, b := Chained(s, base, length, size), Block(base + HEADER, size);
    ChainedRegions(s, base, length, size);
    hide *;
    OneMoreBlock(s, n, b, |s.regions|);
  }

  lemma ChainedRegions(s: State, base: nat, length: nat, size: nat)
    requires Inv(s) && Fresh(s, base, length) && size % ALIGNMENT == 0 && HEADER + size <= length
    ensures var n, b := Chained(s, base, length, size), Block(base + HEADER, size);
      && Grown(s.regions, n.regions) && Behind(s.regions, b) && n.blocks == s.blocks + [b]
      && Inside(b, Top(n)) && b.start % ALIGNMENT == 0 && Extends(s, n)
  {
    NewRegion(base, length, size);
    NewIsBehind(s, base, length, size);
    hide Placed, AllDisjoint, Sane, Apart, Inside, Fresh, Behind;
    assert Top(Chained(s, base, length, size)) == Region(base, base + length, base + HEADER + size);
  }

  lemma NewRegion(base: nat, length: nat, size: nat)
    requires base % ALIGNMENT == 0 && size % ALIGNMENT == 0 && HEADER + size <= length
    ensures var r, b := Region(base, base + length, base + HEADER + size), Block(base + HEADER, size);
      Sane(r) && Inside(b, r) && b.start % ALIGNMENT == 0
  {}

  lemma NewIsBehind(s: State, base: nat, length: nat, size: nat)
    requires Inv(s) && Fresh(s, base, length) && HEADER + size <= length
    ensures Behind(s.regions, Block(base + HEADER, size)) && base % ALIGNMENT == 0
    ensures forall i :: 0 <= i < |s.regions| ==>
      Apart(s.regions[i], Region(base, base + length, base + HEADER + size))
  {
    hide Placed, AllDisjoint, AllApart;
    forall i | 0 <= i < |s.regions|
      ensures Apart(s.regions[i], Region(base, base + length, base + HEADER + size)) && Sane(s.regions[i])
    {
      assert Apart(s.regions[i], Region(base, base + length, base));
    }
  }

  // The test that zend_arena_release makes of an arena.
  predicate Outside(checkpoint: nat, base: nat, end: nat)
  {
    checkpoint > end || checkpoint <= base
  }

  /** The arena a checkpoint was taken in is the only one, of it and all made since, that the test lets stand, even when
      the checkpoint is the end of its arena and another one starts there. */
  lemma CheckpointFindsArena(was: State, now: State, i: nat)
    requires Inv(was) && Inv(now) && Extends(was, now) && |was.regions| - 1 <= i < |now.regions|
    ensures Outside(Top(was).ptr, now.regions[i].base, now.regions[i].end) <==> i >= |was.regions|
  {
    var top := |was.regions| - 1;
    assert Sane(was.regions[top]) && Sane(now.regions[i]);
    if i > top { assert Apart(now.regions[top], now.regions[i]); }
  }

  class Arena {
    const base: nat
    const end: nat
    const prev: Arena?
    var ptr: nat

    constructor (base: nat, length: nat, used: nat, prev: Arena?)
      ensures this.base == base && end == base + length && ptr == base + HEADER + used && this.prev == prev
    {
      this.base, end, ptr, this.prev := base, base + length, base + HEADER + used, prev;
    }
  }

  ghost function RegionsOf(chain: seq<Arena>): (r: seq<Region>)
    reads chain
    ensures |r| == |chain|
    ensures forall i :: 0 <= i < |chain| ==> r[i] == Region(chain[i].base, chain[i].end, chain[i].ptr)
  {
    seq(|chain|, i requires 0 <= i < |chain| reads chain => Region(chain[i].base, chain[i].end, chain[i].ptr))
  }

  ghost predicate Linked(chain: seq<Arena>)
  {
    && chain != []
    && chain[0].prev == null
    && (forall i :: 0 < i < |chain| ==> chain[i].prev == chain[i - 1])
  }

  ghost predicate Distinct(s: seq<Arena>)
  {
    forall i, j :: 0 <= i < j < |s| ==> s[i] != s[j]
  }

  ghost function Reversed(s: seq<Arena>): seq<Arena>
  {
    if s == [] then [] else [s[|s| - 1]] + Reversed(s[..|s| - 1])
  }

  /** The variable that holds the arena in use, with the history that the proofs speak of. */
  class Pool {
    var arena: Arena
    ghost var chain: seq<Arena>
    ghost var blocks: seq<Block>
    ghost var released: seq<Arena>

    ghost function Now(): State
      reads this, chain
    {
      State(RegionsOf(chain), blocks)
    }

    ghost predicate Valid()
      reads this, chain
    {
      && Linked(chain) && arena == chain[|chain| - 1]
      && Distinct(released + chain)
      && Inv(Now())
    }

    // zend_arena_create; where the memory is comes from the memory manager.
    constructor (size: nat, base: nat)
      requires HEADER <= size && base % ALIGNMENT == 0
      ensures Valid() && blocks == [] && released == [] && fresh(chain[0]) && |chain| == 1 && arena.end == base + size
    {
      arena := new Arena(base, size, 0, null);
      new;
      chain, blocks, released := [arena], [], [];
    }

    lemma TopIs()
      requires Valid()
      ensures chain != [] && Top(Now()) == Region(arena.base, arena.end, arena.ptr) && Sane(Top(Now()))
      ensures arena.ptr <= arena.end && arena in chain && Now().regions != []
    {
      hide AllApart, AllDisjoint, Placed, Distinct;
    }

    // emalloc, which hands out memory apart from all that is in use.
    method Emalloc(length: nat) returns (base: nat)
      requires Valid()
      ensures Fresh(Now(), base, length)
    {
      hide Inv, Distinct;
      base := arena.end;
      var a := arena.prev;
      ghost var k := |chain| - 1;
      if k > 0 { PrevIs(chain, k); }
      while a != null
        invariant 0 <= k < |chain| && a == chain[k].prev && (a == null ==> k == 0)
        invariant forall i :: k <= i < |chain| ==> chain[i].end <= base
        decreases k
      {
        if base < a.end { base := a.end; }
        k := k - 1;
        a := a.prev;
        if k > 0 { PrevIs(chain, k); }
      }
      base := Aligned(base);
    }

    method Bump(wanted: nat)
      requires Valid() && wanted % ALIGNMENT == 0 && wanted <= arena.end - arena.ptr
      modifies `blocks, arena`ptr
      ensures Valid() && Now() == Bumped(old(Now()), wanted) && Extends(old(Now()), Now())
      ensures blocks == old(blocks) + [Block(old(arena.ptr), wanted)] && old(arena.ptr) % ALIGNMENT == 0
      ensures Inside(Block(old(arena.ptr), wanted), Top(Now()))
    {
      hide Inv, Distinct, Extends, Linked;
      ghost var was := Now();
      TopIs();
      BumpedInv(was, wanted);
      BumpedRegions(was, wanted);
      LastOnly(released, chain);
      blocks := blocks + [Block(arena.ptr, wanted)];
      arena.ptr := arena.ptr + wanted;
      assert RegionsOf(chain) == was.regions[|chain| - 1 := Region(arena.base, arena.end, arena.ptr)];
    }

    method Front(wanted: nat)
      requires Valid() && wanted % ALIGNMENT == 0
      modifies this
      ensures Valid() && fresh(arena) && chain == old(chain) + [arena] && released == old(released)
      ensures Now() == Chained(old(Now()), arena.base, Demand(old(arena.base), old(arena.end), wanted), wanted)
      ensures Extends(old(Now()), Now()) && arena.end - arena.base == Demand(old(arena.base), old(arena.end), wanted)
      ensures blocks == old(blocks) + [Block(arena.base + HEADER, wanted)] && (arena.base + HEADER) % ALIGNMENT == 0
      ensures Inside(Block(arena.base + HEADER, wanted), Top(Now()))
    {
      hide Inv, Distinct, Extends, Fresh, Linked, RegionsOf, Inside, Demand;
      ghost var was := Now();
      TopIs();
      var length := Demand(arena.base, arena.end, wanted);
      var base := Emalloc(length);
      ChainedInv(was, base, length, wanted);
      ChainedRegions(was, base, length, wanted);
      var front := new Arena(base, length, wanted, arena);
      NewInFront(released, chain, front);
      LinkedMore(chain, front);
      RegionsMore(chain, front);
      arena, chain, blocks := front, chain + [front], blocks + [Block(base + HEADER, wanted)];
    }

    /** zend_arena_alloc: the block lies in the arena in use, aligned, apart from every other; an arena is put in front
        only when the one in use has no room left. */
    method Alloc(size: nat) returns (p: nat)
      requires Valid()
      modifies this, arena
      ensures Valid() && Extends(old(Now()), Now()) && old(chain) <= chain && released == old(released)
      ensures blocks == old(blocks) + [Block(p, Aligned(size))] && p % ALIGNMENT == 0
      ensures Inside(Block(p, Aligned(size)), Top(Now()))
      ensures forall i :: 0 <= i < |chain| ==> chain[i] in old(chain) || fresh(chain[i])
      ensures chain != old(chain) ==> chain == old(chain) + [arena]
      ensures chain != old(chain) ==>
        arena.end - arena.base == if Aligned(size) + HEADER > old(arena.end - arena.base) then Aligned(size) + HEADER
                                  else old(arena.end - arena.base)
      ensures chain == old(chain) <==> old(arena.ptr) + Aligned(size) <= old(arena.end)
    {
      hide *;
      var wanted := Aligned(size);
      TopIs();
      if wanted <= arena.end - arena.ptr {
        p := arena.ptr;
        Bump(wanted);
      } else {
        DemandIs(arena.base, arena.end, wanted);
        Front(wanted);
        p := arena.base + HEADER;
      }
    }

    // zend_arena_checkpoint
    method Checkpoint() returns (c: nat)
      requires Valid()
      ensures c == Top(Now()).ptr
    {
      c := arena.ptr;
    }

    // The loop of zend_arena_release.
    method FreeSince(checkpoint: nat, ghost was: State)
      requires Valid() && Inv(was) && Extends(was, Now()) && checkpoint == Top(was).ptr
      modifies this
      ensures |was.regions| <= |old(chain)| && chain == old(chain)[..|was.regions|]
      ensures Linked(chain) && arena == chain[|chain| - 1] && Distinct(released + chain)
      ensures released == old(released) + Reversed(old(chain)[|was.regions|..])
    {
      hide Inv, Extends, Outside, Distinct, Reversed, Linked, BackTo;
      ghost var whole, full, n := Now(), chain, |chain|;
      TopIs();
      NoneBack(full, released);
      LinkedFront(full, n);
      ExtendsTops(was, whole);
      while Outside(checkpoint, arena.base, arena.end)
        invariant |was.regions| <= n <= |full| && chain == full[..n] && arena == full[n - 1]
        invariant Linked(chain) && BackTo(full, n, old(released), released)
        decreases n
      {
        var prev := arena.prev;
        CheckpointFindsArena(was, whole, n - 1);
        PrevIs(full, n - 1);
        LinkedFront(full, n - 1);
        BackOne(full, n, old(released), released);
        released, chain, arena, n := released + [arena], full[..n - 1], prev, n - 1;
      }
      CheckpointFindsArena(was, whole, n - 1);
      BackIs(full, n, old(released), released);
    }

    /** zend_arena_release: what has happened since the checkpoint is undone, and exactly the arenas made since are
        given back, the newest first. */
    method Release(checkpoint: nat, ghost was: State, ghost upTo: seq<Arena>)
      requires Valid() && Inv(was) && Extends(was, Now()) && upTo <= chain && |upTo| == |was.regions|
      requires checkpoint == Top(was).ptr
      modifies this, chain
      ensures Valid() && Now() == was && chain == upTo
      ensures released == old(released) + Reversed(old(chain)[|upTo|..])
    {
      hide Inv, Extends, Outside, Distinct, Reversed;
      ghost var whole := Now();
      ExtendsTops(was, whole);
      FreeSince(checkpoint, was);
      LastOnly(released, chain);
      arena.ptr := checkpoint;
      blocks := was.blocks;
      assert RegionsOf(chain) == was.regions;
    }

    // zend_arena_destroy
    method Destroy()
      requires Valid()
      modifies this
      ensures released == old(released) + Reversed(old(chain)) && Distinct(released) && chain == []
    {
      hide Inv, Distinct, Reversed, Linked, BackTo;
      ghost var full, n := chain, |chain|;
      var a: Arena? := arena;
      TopIs();
      NoneBack(full, released);
      while a != null
        invariant 0 <= n <= |full| && chain == full[..n] && a == if n == 0 then null else full[n - 1]
        invariant BackTo(full, n, old(released), released)
        decreases n
      {
        PrevIs(full, n - 1);
        BackOne(full, n, old(released), released);
        released, chain, a, n := released + [a], full[..n - 1], a.prev, n - 1;
      }
      BackIs(full, 0, old(released), released);
      assert full[0..] == full && released + [] == released;
    }

    /** Any allocations, with stretches taken back at their end: what was there before is still there. */
    method Run(jobs: seq<Job>)
      requires Valid()
      modifies this, chain
      ensures Valid() && Extends(old(Now()), Now()) && old(chain) <= chain && old(released) <= released
      ensures Sizes(blocks) == old(Sizes(blocks)) + Taken(jobs)
      ensures forall i :: 0 <= i < |chain| ==> chain[i] in old(chain) || fresh(chain[i])
      decreases jobs, 0
    {
      hide *;
      TopIs();
      ExtendsSelf(Now());
      TakenIs(jobs);
      SizesJoin(Sizes(blocks), if jobs != [] && jobs[0].Take? then [Aligned(jobs[0].size)] else [],
        if jobs == [] then [] else Taken(jobs[1..]));
      if jobs == [] { return; }
      ghost var was, blocks0 := Now(), blocks;
      match jobs[0] {
        case Take(size) =>
          var p := Alloc(size);
          SizesMore(blocks0, Block(p, Aligned(size)));
        case Scope(inner) => Within(inner);
      }
      ghost var mid := Now();
      Run(jobs[1..]);
      ExtendsTransitive(was, mid, Now());
    }

    /** Whatever is done between a checkpoint and its release, all is as it was: the arenas, the bump pointer, the
        blocks. */
    method Within(jobs: seq<Job>)
      requires Valid()
      modifies this, chain
      ensures Valid() && Now() == old(Now()) && blocks == old(blocks) && chain == old(chain)
      ensures old(released) <= released
      decreases jobs, 1
    {
      hide Inv, Extends, Distinct, Linked, Reversed;
      ghost var was, upTo := Now(), chain;
      var c := Checkpoint();
      Run(jobs);
      Release(c, was, upTo);
    }
  }

  // A stretch of work: an allocation, or a stretch between a checkpoint and its release.
  datatype Job = Take(size: nat) | Scope(jobs: seq<Job>)

  // The sizes of what a stretch of work leaves allocated.
  function Taken(jobs: seq<Job>): seq<nat>
  {
    if jobs == [] then []
    else (if jobs[0].Take? then [Aligned(jobs[0].size)] else []) + Taken(jobs[1..])
  }

  function Sizes(blocks: seq<Block>): seq<nat>
  {
    seq(|blocks|, i requires 0 <= i < |blocks| => blocks[i].size)
  }

  lemma TakenIs(jobs: seq<Job>)
    ensures Taken(jobs) ==
      if jobs == [] then [] else (if jobs[0].Take? then [Aligned(jobs[0].size)] else []) + Taken(jobs[1..])
  {
    hide Aligned;
  }

  lemma SizesJoin(a: seq<nat>, b: seq<nat>, c: seq<nat>)
    ensures a + b + c == a + (b + c) && (b == [] ==> a + b == a) && (b + c == [] ==> a + (b + c) == a)
  {}

  lemma SizesMore(blocks: seq<Block>, b: Block)
    ensures Sizes(blocks + [b]) == Sizes(blocks) + [b.size]
  {}

  lemma ExtendsSelf(s: State)
    requires s.regions != []
    ensures Extends(s, s)
  {
  }

  lemma ExtendsTops(was: State, now: State)
    requires Extends(was, now)
    ensures 0 < |was.regions| <= |now.regions|
    ensures forall i :: 0 <= i < |was.regions| - 1 ==> now.regions[i] == was.regions[i]
    ensures var top := |was.regions| - 1;
      now.regions[top].base == was.regions[top].base && now.regions[top].end == was.regions[top].end
  {
  }

  // All but the first n arenas have been given back, the newest first.
  ghost predicate BackTo(full: seq<Arena>, n: nat, before: seq<Arena>, released: seq<Arena>)
  {
    n <= |full| && released == before + Reversed(full[n..]) && Distinct(released + full[..n])
  }

  lemma BackIs(full: seq<Arena>, n: nat, before: seq<Arena>, released: seq<Arena>)
    ensures BackTo(full, n, before, released) <==>
      n <= |full| && released == before + Reversed(full[n..]) && Distinct(released + full[..n])
  {
    hide Reversed, Distinct;
  }

  lemma NoneBack(full: seq<Arena>, released: seq<Arena>)
    requires Distinct(released + full)
    ensures full[..|full|] == full && BackTo(full, |full|, released, released)
  {
    hide Distinct;
    assert full[|full|..] == [] && full[..|full|] == full && released + [] == released;
  }

  lemma BackOne(full: seq<Arena>, n: nat, before: seq<Arena>, released: seq<Arena>)
    requires BackTo(full, n, before, released) && 0 < n
    ensures n <= |full| && BackTo(full, n - 1, before, released + [full[n - 1]])
  {
    hide Reversed, Distinct;
    OneMore(full, n - 1);
    MovedOver(released, full[..n]);
    assert full[..n][..n - 1] == full[..n - 1];
    assert before + (Reversed(full[n..]) + [full[n - 1]]) == before + Reversed(full[n..]) + [full[n - 1]];
  }

  lemma PrevIs(chain: seq<Arena>, k: nat)
    requires Linked(chain) && k < |chain|
    ensures chain[k].prev == if k == 0 then null else chain[k - 1]
  {}

  lemma LinkedFront(chain: seq<Arena>, n: nat)
    requires Linked(chain) && 0 < n <= |chain|
    ensures Linked(chain[..n])
  {}

  lemma OneMore(full: seq<Arena>, k: nat)
    requires k < |full|
    ensures Reversed(full[k..]) == Reversed(full[k + 1..]) + [full[k]]
  {
    ReversedCons(full[k], full[k + 1..]);
    assert full[k..] == [full[k]] + full[k + 1..];
  }

  lemma {:induction false} ReversedCons(a: Arena, s: seq<Arena>)
    ensures Reversed([a] + s) == Reversed(s) + [a]
  {
    if s == [] {
      assert [a] + s == [a];
      assert [a][..0] == [];
    } else {
      ReversedCons(a, s[..|s| - 1]);
      assert ([a] + s)[..|s|] == [a] + s[..|s| - 1];
    }
  }

  // Giving back the newest arena leaves all arenas, given back or not, distinct.
  lemma MovedOver(released: seq<Arena>, chain: seq<Arena>)
    requires Distinct(released + chain) && chain != []
    ensures Distinct(released + [chain[|chain| - 1]] + chain[..|chain| - 1])
  {
    var s, r, c := released + chain, |released|, |chain|;
    var t := released + [chain[c - 1]] + chain[..c - 1];
    forall i, j | 0 <= i < j < |t| ensures t[i] != t[j] {
      var i' := if i < r then i else if i == r then r + c - 1 else i - 1;
      var j' := if j < r then j else if j == r then r + c - 1 else j - 1;
      assert t[i] == s[i'] && t[j] == s[j'] && i' != j';
    }
  }

  lemma LastOnly(released: seq<Arena>, chain: seq<Arena>)
    requires Distinct(released + chain) && chain != []
    ensures forall i :: 0 <= i < |chain| - 1 ==> chain[i] != chain[|chain| - 1]
  {
    var s := released + chain;
    forall i | 0 <= i < |chain| - 1 ensures chain[i] != chain[|chain| - 1] {
      assert s[|released| + i] == chain[i] && s[|released| + |chain| - 1] == chain[|chain| - 1];
    }
  }

  lemma LinkedMore(chain: seq<Arena>, front: Arena)
    requires Linked(chain) && front.prev == chain[|chain| - 1]
    ensures Linked(chain + [front])
  {}

  lemma RegionsMore(chain: seq<Arena>, front: Arena)
    ensures RegionsOf(chain + [front]) == RegionsOf(chain) + [Region(front.base, front.end, front.ptr)]
  {}

  lemma NewInFront(released: seq<Arena>, chain: seq<Arena>, front: Arena)
    requires Distinct(released + chain) && front !in released && front !in chain
    ensures Distinct(released + (chain + [front]))
  {
    assert released + (chain + [front]) == released + chain + [front];
  }

  // The size of the next arena.
  function Demand(base: nat, end: nat, size: nat): (r: nat)
    ensures HEADER + size <= r && end - base <= r
  {
    if size + HEADER > end - base then size + HEADER else end - base
  }

  lemma DemandIs(base: nat, end: nat, size: nat)
    ensures Demand(base, end, size) == if size + HEADER > end - base then size + HEADER else end - base
  {}
}
