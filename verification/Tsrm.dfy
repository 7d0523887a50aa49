/** The thread-safe resource manager: a hash table of per-thread storage arrays under one mutex, with a fast path past
    it. */
module Tsrm {
  import opened Wrappers

  datatype ResourceType = ResourceType(ctor: bool, dtor: bool, done: bool)

  // tsrm_tls_entry; its count is the length of the storage array, whose cells are blocks or null.
  datatype Entry = Entry(thread: nat, storage: seq<Option<nat>>)

  // What a resource lookup returns: the storage array itself, a cell of it, or null.
  datatype Answer = Whole(entry: nat) | Cell(cell: Option<nat>) | OutOfRange

  // Every entry hangs in the bucket of its thread's hash value, no thread has two.
  ghost predicate TableOk(size: nat, table: seq<seq<nat>>, entries: map<nat, Entry>)
  {
    && 0 < size == |table|
    && (forall b, k :: 0 <= b < size && 0 <= k < |table[b]| ==>
      table[b][k] in entries && entries[table[b][k]].thread % size == b)
    && (forall b, j, k :: 0 <= b < size && 0 <= j < k < |table[b]| ==>
      entries[table[b][j]].thread != entries[table[b][k]].thread)
    && (forall p :: p in entries ==> p in table[entries[p].thread % size])
  }

  // Thread-local storage points to the thread's entry, if it has one.
  ghost predicate TlsOk(entries: map<nat, Entry>, tls: map<nat, nat>)
  {
    && (forall t :: t in tls ==> tls[t] in entries && entries[tls[t]].thread == t)
    && (forall p :: p in entries ==> entries[p].thread in tls && tls[entries[p].thread] == p)
  }

  // Every storage array has a cell for every id, null exactly if the id is done.
  ghost predicate StorageOk(entries: map<nat, Entry>, types: seq<ResourceType>)
  {
    && (forall p :: p in entries ==> |entries[p].storage| == |types|)
    && (forall p, j :: p in entries && 0 <= j < |types| ==> (entries[p].storage[j].None? <==> types[j].done))
  }

  // Cell j of entry p points to block c.
  ghost predicate Points(entries: map<nat, Entry>, p: nat, j: nat, c: nat)
  {
    p in entries && j < |entries[p].storage| && entries[p].storage[j] == Some(c)
  }

  // The blocks in use are those the arrays point to, each from one place.
  ghost predicate LiveOk(entries: map<nat, Entry>, live: map<nat, (nat, nat)>)
  {
    && (forall p, j :: p in entries && 0 <= j < |entries[p].storage| && entries[p].storage[j].Some? ==>
         entries[p].storage[j].value in live && live[entries[p].storage[j].value] == (p, j))
    && (forall c :: c in live ==> Points(entries, live[c].0, live[c].1, c))
  }

  // Every block was made for one id. A block in use is not destroyed; one that is not was destroyed once if its type
  // says how, and else never.
  ghost predicate MadeOk(types: seq<ResourceType>, live: map<nat, (nat, nat)>, made: map<nat, nat>,
                         destroyed: multiset<nat>)
  {
    && (forall c :: c in live ==> c in made && made[c] == live[c].1)
    && (forall c :: c in made ==> made[c] < |types|)
    && (forall c :: c in made ==> destroyed[c] == if c !in live && types[made[c]].dtor then 1 else 0)
    && (forall c :: c in destroyed ==> c in made)
  }

  // ---- one entry gives up its blocks ----

  // The blocks that the first n cells point to and that have a destructor.
  ghost function Gone(storage: seq<Option<nat>>, types: seq<ResourceType>, n: nat): multiset<nat>
    requires n <= |storage| && |storage| <= |types|
  {
    if n == 0 then multiset{}
    else if storage[n - 1].Some? && types[n - 1].dtor then Gone(storage, types, n - 1) + multiset{storage[n - 1].value}
    else Gone(storage, types, n - 1)
  }

  // How many of the first n ids are done and have a destructor.
  ghost function Nulls(types: seq<ResourceType>, n: nat): nat
    requires n <= |types|
  {
    if n == 0 then 0 else Nulls(types, n - 1) + if types[n - 1].done && types[n - 1].dtor then 1 else 0
  }

  lemma {:induction false} NullsIff(types: seq<ResourceType>, n: nat)
    requires n <= |types|
    ensures Nulls(types, n) > 0 <==> exists j :: 0 <= j < n && types[j].done && types[j].dtor
  {
    if n > 0 { NullsIff(types, n - 1); }
  }

  // Ids are added and may be done; what their types say stays.
  ghost predicate TypesKept(a: seq<ResourceType>, b: seq<ResourceType>)
  {
    && |a| <= |b|
    && forall j :: 0 <= j < |a| ==> b[j].ctor == a[j].ctor && b[j].dtor == a[j].dtor && (a[j].done ==> b[j].done)
  }

  ghost function Blocks(storage: seq<Option<nat>>): set<nat>
  {
    set j | 0 <= j < |storage| && storage[j].Some? :: storage[j].value
  }

  lemma {:induction false} GoneCounts(storage: seq<Option<nat>>, types: seq<ResourceType>, n: nat, c: nat)
    requires n <= |storage| && |storage| <= |types|
    requires forall i, j :: 0 <= i < j < |storage| && storage[i].Some? && storage[j].Some? ==>
      storage[i].value != storage[j].value
    ensures Gone(storage, types, n)[c] == if exists j :: 0 <= j < n && storage[j] == Some(c) && types[j].dtor then 1
      else 0
  {
    if n > 0 {
      GoneCounts(storage, types, n - 1, c);
    }
  }

  lemma OwnCells(entries: map<nat, Entry>, live: map<nat, (nat, nat)>, p: nat)
    requires LiveOk(entries, live) && p in entries
    ensures var s := entries[p].storage;
      && (forall i, j :: 0 <= i < j < |s| && s[i].Some? && s[j].Some? ==> s[i].value != s[j].value)
      && (forall c :: c in Blocks(s) <==> c in live && live[c].0 == p)
  {
    var s := entries[p].storage;
    forall c ensures c in Blocks(s) <==> c in live && live[c].0 == p {
      if c in live && live[c].0 == p { assert s[live[c].1] == Some(c); }
    }
  }

  /** An entry is taken out and all its blocks are destroyed and freed. */
  lemma DropEntry(entries: map<nat, Entry>, types: seq<ResourceType>, live: map<nat, (nat, nat)>, made: map<nat, nat>,
                  destroyed: multiset<nat>, p: nat)
    requires LiveOk(entries, live) && MadeOk(types, live, made, destroyed) && p in entries
      && |entries[p].storage| <= |types|
    ensures var s := entries[p].storage;
      LiveOk(entries - {p}, live - Blocks(s)) && MadeOk(types, live - Blocks(s), made, destroyed + Gone(s, types, |s|))
  {
    hide Blocks, Gone, MadeOk;
    OwnCells(entries, live, p);
    DropLive(entries, live, p);
    hide LiveOk;
    DropMade(entries, types, live, made, destroyed, p);
  }

  lemma DropLive(entries: map<nat, Entry>, live: map<nat, (nat, nat)>, p: nat)
    requires LiveOk(entries, live) && p in entries
    requires forall c :: c in Blocks(entries[p].storage) <==> c in live && live[c].0 == p
    ensures LiveOk(entries - {p}, live - Blocks(entries[p].storage))
  {
    hide Blocks;
  }

  lemma GoneIs(entries: map<nat, Entry>, types: seq<ResourceType>, live: map<nat, (nat, nat)>, p: nat, c: nat)
    requires LiveOk(entries, live) && p in entries && |entries[p].storage| <= |types|
    ensures var s := entries[p].storage;
      Gone(s, types, |s|)[c] == if c in live && live[c].0 == p && live[c].1 < |types| && types[live[c].1].dtor then 1
        else 0
  {
    var s := entries[p].storage;
    OwnCells(entries, live, p);
    GoneCounts(s, types, |s|, c);
    hide Gone, Blocks;
    if c in live && live[c].0 == p { assert s[live[c].1] == Some(c); }
  }

  lemma DropMade(entries: map<nat, Entry>, types: seq<ResourceType>, live: map<nat, (nat, nat)>, made: map<nat, nat>,
                 destroyed: multiset<nat>, p: nat)
    requires LiveOk(entries, live) && MadeOk(types, live, made, destroyed) && p in entries
      && |entries[p].storage| <= |types|
    requires forall c :: c in Blocks(entries[p].storage) <==> c in live && live[c].0 == p
    ensures var s := entries[p].storage; MadeOk(types, live - Blocks(s), made, destroyed + Gone(s, types, |s|))
  {
    var s := entries[p].storage;
    var gone := Gone(s, types, |s|);
    forall c ensures gone[c] == if c in live && live[c].0 == p && live[c].1 < |types| && types[live[c].1].dtor then 1
      else 0 {
      GoneIs(entries, types, live, p, c);
    }
    hide *;
    MadeWithout(types, live, live - Blocks(s), made, destroyed, gone, p);
  }

  lemma MadeWithout(types: seq<ResourceType>, live: map<nat, (nat, nat)>, left: map<nat, (nat, nat)>,
                    made: map<nat, nat>, destroyed: multiset<nat>, gone: multiset<nat>, p: nat)
    requires MadeOk(types, live, made, destroyed)
    requires forall c :: c in left <==> c in live && live[c].0 != p
    requires forall c :: c in left ==> left[c] == live[c]
    requires forall c ::
      gone[c] == if c in live && live[c].0 == p && live[c].1 < |types| && types[live[c].1].dtor then 1 else 0
    ensures MadeOk(types, left, made, destroyed + gone)
  {
    forall c | c in destroyed + gone ensures c in made { assert c in destroyed || gone[c] > 0; }
  }

  // ---- the other steps ----

  lemma AddCell(entries: map<nat, Entry>, types: seq<ResourceType>, live: map<nat, (nat, nat)>, made: map<nat, nat>,
                destroyed: multiset<nat>, p: nat, c: nat)
    requires LiveOk(entries, live) && MadeOk(types, live, made, destroyed)
    requires p in entries && |entries[p].storage| < |types| && c !in made
    ensures var j := |entries[p].storage|;
      && LiveOk(entries[p := entries[p].(storage := entries[p].storage + [Some(c)])], live[c := (p, j)])
      && MadeOk(types, live[c := (p, j)], made[c := j], destroyed)
  {
    assert c !in live;
    AddMade(types, live, made, destroyed, p, |entries[p].storage|, c);
    hide MadeOk;
  }

  lemma AddMade(types: seq<ResourceType>, live: map<nat, (nat, nat)>, made: map<nat, nat>, destroyed: multiset<nat>,
                p: nat, j: nat, c: nat)
    requires MadeOk(types, live, made, destroyed) && j < |types| && c !in made
    ensures MadeOk(types, live[c := (p, j)], made[c := j], destroyed)
  {
    assert c !in live && c !in destroyed;
  }

  lemma AddNull(entries: map<nat, Entry>, live: map<nat, (nat, nat)>, p: nat)
    requires LiveOk(entries, live) && p in entries
    ensures LiveOk(entries[p := entries[p].(storage := entries[p].storage + [None])], live)
  {}

  lemma AddEntry(entries: map<nat, Entry>, live: map<nat, (nat, nat)>, p: nat, thread: nat)
    requires LiveOk(entries, live) && p !in entries
    ensures LiveOk(entries[p := Entry(thread, [])], live)
  {}

  // Cell j of entry p is destroyed, freed and set to null.
  lemma ClearCell(entries: map<nat, Entry>, types: seq<ResourceType>, live: map<nat, (nat, nat)>, made: map<nat, nat>,
                  destroyed: multiset<nat>, p: nat, j: nat)
    requires LiveOk(entries, live) && MadeOk(types, live, made, destroyed)
    requires p in entries && j < |entries[p].storage| && j < |types| && entries[p].storage[j].Some?
    ensures var c := entries[p].storage[j].value;
      && LiveOk(entries[p := entries[p].(storage := entries[p].storage[j := None])], live - {c})
      && MadeOk(types, live - {c}, made, if types[j].dtor then destroyed + multiset{c} else destroyed)
  {
    hide LiveOk, MadeOk;
    ClearLive(entries, live, p, j);
    ClearMade(entries, types, live, made, destroyed, p, j);
  }

  lemma ClearLive(entries: map<nat, Entry>, live: map<nat, (nat, nat)>, p: nat, j: nat)
    requires LiveOk(entries, live) && p in entries && j < |entries[p].storage| && entries[p].storage[j].Some?
    ensures LiveOk(entries[p := entries[p].(storage := entries[p].storage[j := None])],
      live - {entries[p].storage[j].value})
  {}

  lemma ClearMade(entries: map<nat, Entry>, types: seq<ResourceType>, live: map<nat, (nat, nat)>, made: map<nat, nat>,
                  destroyed: multiset<nat>, p: nat, j: nat)
    requires LiveOk(entries, live) && MadeOk(types, live, made, destroyed)
    requires p in entries && j < |entries[p].storage| && j < |types| && entries[p].storage[j].Some?
    ensures var c := entries[p].storage[j].value;
      MadeOk(types, live - {c}, made, if types[j].dtor then destroyed + multiset{c} else destroyed)
  {
    var c := entries[p].storage[j].value;
    assert c in live && live[c] == (p, j);
    hide LiveOk;
  }

  lemma MoreTypes(types: seq<ResourceType>, t: ResourceType, live: map<nat, (nat, nat)>, made: map<nat, nat>,
                  destroyed: multiset<nat>)
    requires MadeOk(types, live, made, destroyed)
    ensures MadeOk(types + [t], live, made, destroyed)
  {}

  lemma TypeDone(types: seq<ResourceType>, j: nat, live: map<nat, (nat, nat)>, made: map<nat, nat>,
                 destroyed: multiset<nat>)
    requires MadeOk(types, live, made, destroyed) && j < |types|
    ensures MadeOk(types[j := types[j].(done := true)], live, made, destroyed)
  {}

  // Storage changes leave the table and thread-local storage as they are.
  lemma SameThreads(size: nat, table: seq<seq<nat>>, tls: map<nat, nat>, entries: map<nat, Entry>, p: nat,
                    storage: seq<Option<nat>>)
    requires TableOk(size, table, entries) && TlsOk(entries, tls) && p in entries
    ensures var entries' := entries[p := entries[p].(storage := storage)];
      TableOk(size, table, entries') && TlsOk(entries', tls)
  {}

  // ---- walking the table ----

  // The entries in the buckets before b and the first k of bucket b.
  ghost function Reached(table: seq<seq<nat>>, b: nat, k: nat): set<nat>
  {
    (set i, j | 0 <= i < b && i < |table| && 0 <= j < |table[i]| :: table[i][j]) +
    (set j | b < |table| && 0 <= j < k && j < |table[b]| :: table[b][j])
  }

  lemma ReachedStart(table: seq<seq<nat>>)
    ensures Reached(table, 0, 0) == {}
  {}

  lemma ReachedNext(size: nat, table: seq<seq<nat>>, entries: map<nat, Entry>, b: nat, k: nat)
    requires TableOk(size, table, entries) && b < size && k < |table[b]|
    ensures Reached(table, b, k + 1) == Reached(table, b, k) + {table[b][k]}
    ensures table[b][k] in entries && table[b][k] !in Reached(table, b, k)
  {
    var p := table[b][k];
    assert forall i, j :: 0 <= i < b && 0 <= j < |table[i]| ==> entries[table[i][j]].thread % size == i;
    assert entries[p].thread % size == b;
    assert forall j :: 0 <= j < k ==> entries[table[b][j]].thread != entries[p].thread;
  }

  lemma ReachedBucket(table: seq<seq<nat>>, b: nat)
    requires b < |table|
    ensures Reached(table, b, |table[b]|) == Reached(table, b + 1, 0)
  {}

  lemma ReachedAll(size: nat, table: seq<seq<nat>>, entries: map<nat, Entry>)
    requires TableOk(size, table, entries)
    ensures Reached(table, size, 0) == entries.Keys
  {
    forall p | p in entries ensures p in Reached(table, size, 0) {
      var b := entries[p].thread % size;
      var j :| 0 <= j < |table[b]| && table[b][j] == p;
    }
  }

  // While the arrays are enlarged for a new id: those reached have a cell for it.
  ghost predicate Enlarging(entries: map<nat, Entry>, types: seq<ResourceType>, reached: set<nat>)
  {
    && 0 < |types|
    && (forall p :: p in entries ==> |entries[p].storage| == if p in reached then |types| else |types| - 1)
    && (forall p, j :: p in entries && 0 <= j < |entries[p].storage| ==>
      (entries[p].storage[j].None? <==> types[j].done))
  }

  // While id j is freed: those reached have no block for it any more.
  ghost predicate Clearing(entries: map<nat, Entry>, types: seq<ResourceType>, j: nat, reached: set<nat>)
  {
    && (forall p :: p in entries ==> |entries[p].storage| == |types|)
    && (forall p, k :: p in entries && 0 <= k < |types| ==>
         (entries[p].storage[k].None? <==> types[k].done || (k == j && p in reached)))
  }

  lemma Enlarged(entries: map<nat, Entry>, types: seq<ResourceType>, reached: set<nat>, p: nat, c: nat)
    requires Enlarging(entries, types, reached) && p in entries && p !in reached && !types[|types| - 1].done
    ensures Enlarging(entries[p := entries[p].(storage := entries[p].storage + [Some(c)])], types, reached + {p})
  {}

  lemma EnlargingStarts(entries: map<nat, Entry>, types: seq<ResourceType>, t: ResourceType)
    requires StorageOk(entries, types)
    ensures Enlarging(entries, types + [t], {})
  {}

  lemma EnlargingEnds(entries: map<nat, Entry>, types: seq<ResourceType>)
    requires Enlarging(entries, types, entries.Keys)
    ensures StorageOk(entries, types)
  {}

  lemma EnlargingAt(entries: map<nat, Entry>, types: seq<ResourceType>, reached: set<nat>, p: nat)
    requires Enlarging(entries, types, reached) && p in entries && p !in reached
    ensures |entries[p].storage| == |types| - 1
  {}

  lemma Cleared(entries: map<nat, Entry>, types: seq<ResourceType>, j: nat, reached: set<nat>, p: nat)
    requires Clearing(entries, types, j, reached) && p in entries && j < |types|
    ensures Clearing(entries[p := entries[p].(storage := entries[p].storage[j := None])], types, j, reached + {p})
    ensures entries[p].storage[j].None? ==> Clearing(entries, types, j, reached + {p})
  {}

  lemma ClearingStarts(entries: map<nat, Entry>, types: seq<ResourceType>, j: nat)
    requires StorageOk(entries, types)
    ensures Clearing(entries, types, j, {})
  {}

  lemma ClearingEnds(entries: map<nat, Entry>, types: seq<ResourceType>, j: nat)
    requires Clearing(entries, types, j, entries.Keys) && j < |types|
    ensures StorageOk(entries, types[j := types[j].(done := true)])
  {}

  // Arrays may have grown at their ends.
  ghost predicate Grown(a: map<nat, Entry>, b: map<nat, Entry>)
  {
    && a.Keys == b.Keys
    && forall p :: p in a ==> b[p].thread == a[p].thread && a[p].storage <= b[p].storage
  }

  lemma GrownStep(a: map<nat, Entry>, b: map<nat, Entry>, p: nat, c: Option<nat>)
    requires Grown(a, b) && p in b
    ensures Grown(a, b[p := b[p].(storage := b[p].storage + [c])])
  {}

  // Cells for other ids than j are as they were.
  ghost predicate SameBut(a: map<nat, Entry>, b: map<nat, Entry>, j: nat)
  {
    && a.Keys == b.Keys
    && (forall p :: p in a ==> b[p].thread == a[p].thread && |a[p].storage| == |b[p].storage|)
    && (forall p, k :: p in a && 0 <= k < |a[p].storage| && k != j ==> b[p].storage[k] == a[p].storage[k])
  }

  lemma SameButStep(a: map<nat, Entry>, b: map<nat, Entry>, p: nat, j: nat)
    requires SameBut(a, b, j) && p in b && j < |b[p].storage|
    ensures SameBut(a, b[p := b[p].(storage := b[p].storage[j := None])], j)
  {}

  lemma Unchanged(a: map<nat, Entry>, j: nat)
    ensures Grown(a, a) && SameBut(a, a, j)
  {}

  class Manager {
    const size: nat
    var locked: bool
    var types: seq<ResourceType>
    var table: seq<seq<nat>>
    var entries: map<nat, Entry>
    var tls: map<nat, nat>
    var nextEntry: nat // addresses not given out yet
    var nextBlock: nat
    ghost var live: map<nat, (nat, nat)>
    ghost var made: map<nat, nat>
    ghost var destroyed: multiset<nat>
    ghost var nullCalls: nat // destructors called on null

    // What holds all the time a step runs.
    ghost predicate Base()
      reads `types, `table, `entries, `tls, `nextEntry, `nextBlock, `live, `made, `destroyed
    {
      && TableOk(size, table, entries) && TlsOk(entries, tls)
      && LiveOk(entries, live) && MadeOk(types, live, made, destroyed)
      && (forall p :: p in entries ==> p < nextEntry) && (forall c :: c in made ==> c < nextBlock)
    }

    // What holds between steps, when nobody holds the mutex.
    ghost predicate Inv()
      reads this
    {
      Base() && StorageOk(entries, types) && !locked
    }

    /** tsrm_startup */
    constructor (size: nat)
      requires 0 < size
      ensures Inv() && types == [] && entries == map[] && made == map[] && nullCalls == 0
    {
      this.size := size;
      locked, types, table, entries, tls := false, [], seq(size, _ => []), map[], map[];
      nextEntry, nextBlock, live, made, destroyed, nullCalls := 0, 0, map[], map[], multiset{}, 0;
    }

    // A block for the next id of entry p is allocated and constructed.
    method NewCell(p: nat)
      requires locked
      requires Base() && p in entries && |entries[p].storage| < |types|
      modifies `entries, `nextBlock, `live, `made
      ensures Base() && p in old(entries) && Added(old(made), made, old(live), live)
      ensures entries == old(entries[p := entries[p].(storage := entries[p].storage + [Some(nextBlock)])])
    {
      hide *;
      BaseParts(this);
      var c := nextBlock;
      AddCell(entries, types, live, made, destroyed, p, c);
      ghost var s := entries[p].storage + [Some(c)];
      SameThreads(size, table, tls, entries, p, s);
      AddedOne(types, live, made, destroyed, c, p, |entries[p].storage|);
      nextBlock := nextBlock + 1;
      live, made := live[c := (p, |entries[p].storage|)], made[c := |entries[p].storage|];
      entries := entries[p := entries[p].(storage := entries[p].storage + [Some(c)])];
      BaseIs(this);
    }

    // The arrays of the threads in bucket b are enlarged.
    method EnlargeBucket(b: nat, ghost before: map<nat, Entry>)
      requires locked
      requires Grown(before, entries)
      requires Base() && b < |table| && Enlarging(entries, types, Reached(table, b, 0)) && !types[|types| - 1].done
      modifies `entries, `nextBlock, `live, `made
      ensures Base() && Enlarging(entries, types, Reached(table, b + 1, 0)) && Grown(before, entries)
      ensures Added(old(made), made, old(live), live)
    {
      hide *;
      BaseParts(this);
      TableSize(size, table, entries);
      AddedNone(made, live);
      var k := 0;
      while k < |table[b]|
        invariant k <= |table[b]| && Base() && Enlarging(entries, types, Reached(table, b, k))
        invariant Grown(before, entries) && Added(old(made), made, old(live), live)
      {
        var p := table[b][k];
        BaseParts(this);
        ReachedNext(size, table, entries, b, k);
        EnlargingAt(entries, types, Reached(table, b, k), p);
        if |entries[p].storage| < |types| {
          Enlarged(entries, types, Reached(table, b, k), p, nextBlock);
          GrownStep(before, entries, p, Some(nextBlock));
          ghost var made0, live0 := made, live;
          NewCell(p);
          AddedOn(old(made), made0, made, old(live), live0, live);
        }
        k := k + 1;
      }
      ReachedBucket(table, b);
    }

    /** ts_allocate_id: a new id; every thread's array gets a block for it, nothing else changes. */
    method AllocateId(ctor: bool, dtor: bool) returns (id: nat)
      requires Inv()
      modifies `locked, `types, `entries, `nextBlock, `live, `made
      ensures Inv() && id == |types| && types == old(types) + [ResourceType(ctor, dtor, false)]
      ensures Grown(old(entries), entries) && Added(old(made), made, old(live), live)
    {
      hide *;
      InvParts(this);
      Lock();
      MoreTypes(types, ResourceType(ctor, dtor, false), live, made, destroyed);
      EnlargingStarts(entries, types, ResourceType(ctor, dtor, false));
      BaseParts(this);
      types := types + [ResourceType(ctor, dtor, false)];
      BaseIs(this);
      ReachedStart(table);
      TableSize(size, table, entries);
      Unchanged(entries, 0);
      AddedNone(made, live);
      // enlarge the arrays for the already active threads
      var i := 0;
      while i < size
        invariant i <= size && locked && Base() && Enlarging(entries, types, Reached(table, i, 0))
        invariant types == old(types) + [ResourceType(ctor, dtor, false)] && Grown(old(entries), entries)
        invariant Added(old(made), made, old(live), live)
      {
        ghost var made0, live0 := made, live;
        EnlargeBucket(i, old(entries));
        AddedOn(old(made), made0, made, old(live), live0, live);
        i := i + 1;
      }
      BaseParts(this);
      ReachedAll(size, table, entries);
      EnlargingEnds(entries, types);
      Unlock();
      id := |types|;
      InvIs(this);
    }

    // The block that entry p has for id j is destroyed and freed, if there is one.
    method ClearEntry(p: nat, j: nat)
      requires locked
      requires Base() && p in entries && |entries[p].storage| == |types| && j < |types|
      modifies `entries, `live, `destroyed
      ensures Base() && p in old(entries) && old(destroyed) <= destroyed
      ensures entries == if old(entries)[p].storage[j].Some?
        then old(entries)[p := old(entries)[p].(storage := old(entries)[p].storage[j := None])] else old(entries)
    {
      hide *;
      if |entries[p].storage| > j && entries[p].storage[j].Some? {
        BaseParts(this);
        ClearCell(entries, types, live, made, destroyed, p, j);
        ghost var s, c := entries[p].storage[j := None], entries[p].storage[j].value;
        SameThreads(size, table, tls, entries, p, s);
        if types[j].dtor { destroyed := destroyed + multiset{c}; }
        live := live - {c};
        entries := entries[p := entries[p].(storage := entries[p].storage[j := None])];
        BaseIs(this);
      }
    }

    method ClearBucket(b: nat, j: nat, ghost before: map<nat, Entry>)
      requires locked
      requires SameBut(before, entries, j)
      requires Base() && b < |table| && j < |types| && Clearing(entries, types, j, Reached(table, b, 0))
      modifies `entries, `live, `destroyed
      ensures Base() && Clearing(entries, types, j, Reached(table, b + 1, 0)) && SameBut(before, entries, j)
      ensures old(destroyed) <= destroyed
    {
      hide *;
      BaseParts(this);
      TableSize(size, table, entries);
      var k := 0;
      while k < |table[b]|
        invariant k <= |table[b]| && Base() && Clearing(entries, types, j, Reached(table, b, k))
        invariant SameBut(before, entries, j) && old(destroyed) <= destroyed
      {
        BaseParts(this);
        ReachedNext(size, table, entries, b, k);
        ClearingAt(entries, types, j, Reached(table, b, k), table[b][k]);
        Cleared(entries, types, j, Reached(table, b, k), table[b][k]);
        SameButStep(before, entries, table[b][k], j);
        ClearEntry(table[b][k], j);
        k := k + 1;
      }
      ReachedBucket(table, b);
    }

    /** ts_free_id: the blocks of all threads for the id are destroyed and freed, and the id is done. */
    method FreeId(id: nat)
      requires Inv() && 1 <= id <= |types|
      modifies `locked, `types, `entries, `live, `destroyed
      ensures Inv() && |old(types)| == |types| && types == old(types)[id - 1 := old(types)[id - 1].(done := true)]
      ensures SameBut(old(entries), entries, id - 1) && nullCalls == old(nullCalls)
      ensures old(destroyed) <= destroyed
    {
      hide *;
      InvParts(this);
      Lock();
      var j := id - 1;
      Unchanged(entries, j);
      ClearingStarts(entries, types, j);
      BaseParts(this);
      ReachedStart(table);
      TableSize(size, table, entries);
      var i := 0;
      while i < size
        invariant i <= size && locked && Base() && Clearing(entries, types, j, Reached(table, i, 0))
        invariant types == old(types) && SameBut(old(entries), entries, j) && old(destroyed) <= destroyed
      {
        ClearBucket(i, j, old(entries));
        i := i + 1;
      }
      BaseParts(this);
      ReachedAll(size, table, entries);
      ClearingEnds(entries, types, j);
      TypeDone(types, j, live, made, destroyed);
      types := types[j := types[j].(done := true)];
      BaseIs(this);
      Unlock();
      InvIs(this);
    }

    // tsrm_mutex_lock, which returns when no other thread holds the mutex.
    method Lock()
      requires !locked
      modifies `locked
      ensures locked
    {
      locked := true;
    }

    method Unlock()
      requires locked
      modifies `locked
      ensures !locked
    {
      locked := false;
    }

    // The place of a thread's entry in its bucket. The walk finds what thread-local storage points to.
    method Search(thread: nat) returns (k: nat)
      requires Base()
      ensures |table| == size > 0 && k <= |table[thread % size]|
      ensures k < |table[thread % size]| <==> thread in tls
      ensures k < |table[thread % size]| ==>
        table[thread % size][k] == tls[thread] && tls[thread] in entries && entries[tls[thread]].thread == thread
    {
      hide *;
      BaseParts(this);
      TableSize(size, table, entries);
      var b := thread % size;
      InBucket(size, table, entries, b);
      k := 0;
      while k < |table[b]| && entries[table[b][k]].thread != thread
        invariant k <= |table[b]| && forall i :: 0 <= i < k ==> entries[table[b][i]].thread != thread
      {
        k := k + 1;
      }
      FoundIsTls(size, table, entries, tls, thread, k);
    }

    // A thread without an entry gets an empty one at the end of its bucket.
    method LinkEntry(thread: nat) returns (p: nat)
      requires locked
      requires Base() && StorageOk(entries, types) && thread !in tls
      modifies `table, `entries, `tls, `nextEntry
      ensures Base() && Filling(entries, types, p, 0)
      ensures tls == old(tls)[thread := p] && entries - {p} == old(entries)
    {
      hide *;
      BaseParts(this);
      TableSize(size, table, entries);
      var b := thread % size;
      p := nextEntry;
      TableGrows(size, table, entries, tls, thread, p);
      AddEntry(entries, live, p, thread);
      FillingStarts(entries, types, p, thread);
      entries := entries[p := Entry(thread, [])];
      table := table[b := table[b] + [p]];
      tls := tls[thread := p];
      nextEntry := nextEntry + 1;
      BaseIs(this);
    }

    // The next cell of a new entry: null if the id is done, else a block.
    method FillCell(p: nat, i: nat)
      requires locked
      requires Base() && Filling(entries, types, p, i) && i < |types|
      modifies `entries, `nextBlock, `live, `made
      ensures Base() && Filling(entries, types, p, i + 1) && entries - {p} == old(entries) - {p}
      ensures Added(old(made), made, old(live), live)
    {
      hide *;
      BaseParts(this);
      AddedNone(made, live);
      FillingNext(entries, types, p, i, nextBlock);
      if types[i].done {
        AddNull(entries, live, p);
        SameThreads(size, table, tls, entries, p, entries[p].storage + [None]);
        entries := entries[p := entries[p].(storage := entries[p].storage + [None])];
        BaseIs(this);
      } else {
        NewCell(p);
      }
    }

    // allocate_new_resource: the thread gets an entry with a block for every id that is not done; the mutex is
    // released.
    method AllocateNewResource(thread: nat)
      requires Base() && StorageOk(entries, types) && locked && thread !in tls
      modifies `locked, `table, `entries, `tls, `nextEntry, `nextBlock, `live, `made
      ensures Inv() && thread in tls && tls.Keys == old(tls.Keys) + {thread}
      ensures forall t :: t in old(tls) ==> tls[t] == old(tls[t])
      ensures entries - {tls[thread]} == old(entries) && Added(old(made), made, old(live), live)
    {
      hide *;
      AddedNone(made, live);
      var p := LinkEntry(thread);
      var i := 0;
      while i < |types|
        invariant i <= |types| && locked && Base() && Filling(entries, types, p, i) && tls == old(tls)[thread := p]
        invariant entries - {p} == old(entries) && Added(old(made), made, old(live), live)
      {
        ghost var made0, live0 := made, live;
        FillCell(p, i);
        AddedOn(old(made), made0, made, old(live), live0, live);
        i := i + 1;
      }
      FillingEnds(entries, types, p);
      Unlock();
      InvIs(this);
    }

    // TSRM_SAFE_RETURN_RSRC
    function Read(p: nat, id: nat): Answer
      reads `entries
      requires p in entries
    {
      if id == 0 then Whole(p)
      else if id - 1 < |entries[p].storage| then Cell(entries[p].storage[id - 1])
      else OutOfRange
    }

    // The locked part of ts_resource_ex for a thread that has an entry.
    method LockedLookup(thread: nat, id: nat) returns (r: Answer)
      requires Inv() && thread in tls
      modifies `locked
      ensures Inv() && thread in tls && tls[thread] in entries && r == Read(tls[thread], id)
    {
      hide *;
      InvParts(this);
      Lock();
      var k := Search(thread);
      var p := table[thread % size][k];
      Unlock();
      InvIs(this);
      r := Read(p, id);
    }

    /** ts_resource_ex for the calling thread: the fast path, or the locked one, which first makes an entry for a thread
        that has none and lets the others go on before it looks again. Either way the answer is the cell of the thread's
        own entry for the id, and the mutex is free. */
    method Resource(thread: nat, id: nat) returns (r: Answer)
      requires Inv()
      modifies this
      ensures Inv() && thread in tls && tls[thread] in entries && r == Read(tls[thread], id)
      ensures old(thread in tls) ==> entries == old(entries) && tls == old(tls) && types == old(types)
      ensures TypesKept(old(types), types) && Recorded(old(made), made, old(destroyed), destroyed)
    {
      hide *;
      InvParts(this);
      SameTypes(types);
      RecordedSame(made, destroyed);
      if thread in tls {
        BaseParts(this);
        TlsEntry(entries, tls, thread);
        return Read(tls[thread], id);
      }
      Lock();
      var k := Search(thread);
      AllocateNewResource(thread);
      AddedRecords(old(made), made, old(live), live, destroyed);
      ghost var made0, destroyed0 := made, destroyed;
      OtherThreads(thread);
      RecordedOn(old(made), made0, made, old(destroyed), destroyed0, destroyed);
      r := LockedLookup(thread, id);
    }

    // Whatever other threads do meanwhile.
    method OtherThreads(me: nat)
      requires Inv() && me in tls
      modifies this
      ensures Inv() && me in tls && TypesKept(old(types), types) && Recorded(old(made), made, old(destroyed), destroyed)
    {
      hide *;
      var n: nat := *;
      SameTypes(types);
      RecordedSame(made, destroyed);
      while n > 0
        invariant Inv() && me in tls && TypesKept(old(types), types)
        invariant Recorded(old(made), made, old(destroyed), destroyed)
      {
        var thread: nat, choice: nat, ctor: bool, dtor: bool := *, *, *, *;
        ghost var before, made0, live0, destroyed0 := types, made, live, destroyed;
        RecordedSame(made, destroyed);
        if choice == 0 {
          var id := AllocateId(ctor, dtor);
          OneMoreType(before, ResourceType(ctor, dtor, false));
          AddedRecords(made0, made, live0, live, destroyed);
        } else if choice == 1 {
          if thread !in tls {
            InvParts(this);
            Lock();
            AllocateNewResource(thread);
            AddedRecords(made0, made, live0, live, destroyed);
          }
          SameTypes(before);
        } else if choice == 2 {
          if thread != me { FreeThread(thread); }
          SameTypes(before);
        } else if 1 <= choice - 2 <= |types| {
          FreeId(choice - 2);
          OneTypeDone(before, choice - 3);
        } else {
          SameTypes(before);
        }
        KeptOn(old(types), before, types);
        DestroyedMore(made, destroyed0, destroyed);
        RecordedOn(old(made), made0, made, old(destroyed), destroyed0, destroyed);
        n := n - 1;
      }
    }

    /** ts_free_thread: the thread's entry goes, with all its blocks. A destructor is called for every id, so for each
        id that is done and has one it is called on null. */
    method FreeThread(thread: nat)
      requires Inv()
      modifies `locked, `table, `entries, `tls, `live, `destroyed, `nullCalls
      ensures Inv() && thread !in tls && tls == old(tls) - {thread}
      ensures entries == if thread in old(tls) then old(entries) - {old(tls)[thread]} else old(entries)
      ensures old(destroyed) <= destroyed
      ensures nullCalls == old(nullCalls) + if thread in old(tls) then Nulls(types, |types|) else 0
    {
      hide *;
      InvParts(this);
      Lock();
      var k := Search(thread);
      var b := thread % size;
      if k < |table[b]| {
        var p := table[b][k];
        ghost var gone := DestroyCells(p);
        Unlink(p, gone);
        BaseParts(this);
      } else {
        assert tls - {thread} == tls;
      }
      Unlock();
      InvIs(this);
    }

    // The destructors of ts_free_thread.
    method DestroyCells(p: nat) returns (ghost gone: multiset<nat>)
      requires locked
      requires Base() && StorageOk(entries, types) && p in entries
      modifies `nullCalls
      ensures Base() && |entries[p].storage| == |types| && gone == Gone(entries[p].storage, types, |types|)
      ensures nullCalls == old(nullCalls) + Nulls(types, |types|)
    {
      hide *;
      StorageAt(entries, types, p);
      var s := entries[p].storage;
      GoneNone(s, types);
      NullsNone(types);
      gone := multiset{};
      for i := 0 to |s|
        invariant gone == Gone(s, types, i) && Base() && nullCalls == old(nullCalls) + Nulls(types, i)
      {
        GoneNext(s, types, i);
        StorageCell(entries, types, p, i);
        if types[i].dtor {
          // the destructor, on the block or on null
          if s[i].Some? { gone := gone + multiset{s[i].value}; } else { nullCalls := nullCalls + 1; }
        }
      }
    }

    // The destructors of tsrm_shutdown: only for blocks that are there, of ids that are not done.
    method DestroyBlocks(p: nat) returns (ghost gone: multiset<nat>)
      requires Base() && StorageOk(entries, types) && p in entries
      ensures |entries[p].storage| == |types| && gone == Gone(entries[p].storage, types, |types|)
    {
      hide *;
      StorageAt(entries, types, p);
      var s := entries[p].storage;
      GoneNone(s, types);
      gone := multiset{};
      for i := 0 to |s|
        invariant gone == Gone(s, types, i)
      {
        GoneNext(s, types, i);
        StorageCell(entries, types, p, i);
        if s[i].Some? {
          if !types[i].done && types[i].dtor { gone := gone + multiset{s[i].value}; }
        }
      }
    }

    // The entry at address p is unlinked and its blocks freed.
    method Unlink(p: nat, ghost gone: multiset<nat>)
      requires Base() && StorageOk(entries, types) && p in entries
      requires |entries[p].storage| == |types| && gone == Gone(entries[p].storage, types, |types|)
      modifies `table, `entries, `tls, `live, `destroyed
      ensures Base() && StorageOk(entries, types) && p in old(entries) && entries == old(entries) - {p}
      ensures destroyed == old(destroyed) + gone
      ensures tls == old(tls) - {old(entries)[p].thread}
      ensures |table| == |old(table)| == size > 0
      ensures var b := old(entries)[p].thread % size; |table[b]| + 1 == |old(table)[b]|
      ensures forall b :: 0 <= b < size && b != old(entries)[p].thread % size ==> table[b] == old(table)[b]
    {
      hide *;
      BaseParts(this);
      TableSize(size, table, entries);
      var s, thread := entries[p].storage, entries[p].thread;
      DropEntry(entries, types, live, made, destroyed, p);
      var k := Search(thread);
      TlsEntryIs(entries, tls, p);
      TableShrinks(size, table, entries, tls, thread, k);
      StorageWithout(entries, types, p);
      ghost var blocks := Blocks(s);
      var b := thread % size;
      table := table[b := table[b][..k] + table[b][k + 1..]];
      tls := tls - {thread};
      entries := entries - {p};
      live, destroyed := live - blocks, destroyed + gone;
      BaseIs(this);
    }

    /** tsrm_shutdown: when it is done, every block ever made was destroyed once if its type has a destructor, else
        never. */
    method Shutdown()
      requires Inv()
      modifies `table, `entries, `tls, `live, `destroyed
      ensures Inv() && entries == map[] && nullCalls == old(nullCalls) && old(destroyed) <= destroyed
      ensures forall c :: c in made ==> made[c] < |types| && destroyed[c] == if types[made[c]].dtor then 1 else 0
      ensures forall c :: c in destroyed ==> c in made
    {
      hide *;
      InvParts(this);
      var i := 0;
      BaseParts(this);
      TableSize(size, table, entries);
      while i < size
        invariant i <= size && Base() && StorageOk(entries, types) && |table| == size
        invariant (forall b :: 0 <= b < i ==> table[b] == []) && old(destroyed) <= destroyed
      {
        DropBucket(i);
        i := i + 1;
      }
      BaseParts(this);
      NothingLeft(size, table, entries, types, live, made, destroyed);
      InvIs(this);
    }

    method DropBucket(b: nat)
      requires Base() && StorageOk(entries, types) && b < |table| == size
      modifies `table, `entries, `tls, `live, `destroyed
      ensures Base() && StorageOk(entries, types) && |table| == size && table[b] == []
      ensures old(destroyed) <= destroyed
      ensures forall x :: 0 <= x < size && x != b ==> table[x] == old(table)[x]
    {
      hide *;
      ghost var before := table;
      while table[b] != []
        invariant Base() && StorageOk(entries, types) && |table| == size && old(destroyed) <= destroyed
        invariant forall x :: 0 <= x < size && x != b ==> table[x] == before[x]
        decreases |table[b]|
      {
        BaseParts(this);
        InBucket(size, table, entries, b);
        ghost var gone := DestroyBlocks(table[b][0]);
        Unlink(table[b][0], gone);
      }
    }
  }

  // The blocks made since are exactly those that have come into use, and none has left it.
  ghost predicate Added(made: map<nat, nat>, made': map<nat, nat>, live: map<nat, (nat, nat)>,
                        live': map<nat, (nat, nat)>)
  {
    && (forall c :: c in made ==> c in made' && made'[c] == made[c])
    && (forall c :: c in live ==> c in live' && live'[c] == live[c])
    && (forall c :: c in made' && c !in made ==> c in live' && c !in live)
  }

  // Blocks once made stay on record, and so do the calls of destructors.
  ghost predicate Recorded(made: map<nat, nat>, made': map<nat, nat>, destroyed: multiset<nat>,
                           destroyed': multiset<nat>)
  {
    (forall c :: c in made ==> c in made' && made'[c] == made[c]) && destroyed <= destroyed'
  }

  lemma AddedNone(made: map<nat, nat>, live: map<nat, (nat, nat)>)
    ensures Added(made, made, live, live)
  {}

  lemma AddedOne(types: seq<ResourceType>, live: map<nat, (nat, nat)>, made: map<nat, nat>, destroyed: multiset<nat>,
                 c: nat, p: nat, j: nat)
    requires c !in made && MadeOk(types, live, made, destroyed)
    ensures Added(made, made[c := j], live, live[c := (p, j)])
  {}

  lemma AddedOn(a: map<nat, nat>, b: map<nat, nat>, c: map<nat, nat>, x: map<nat, (nat, nat)>, y: map<nat, (nat, nat)>,
                z: map<nat, (nat, nat)>)
    requires Added(a, b, x, y) && Added(b, c, y, z)
    ensures Added(a, c, x, z)
  {}

  lemma AddedRecords(made: map<nat, nat>, made': map<nat, nat>, live: map<nat, (nat, nat)>,
                     live': map<nat, (nat, nat)>, destroyed: multiset<nat>)
    requires Added(made, made', live, live')
    ensures Recorded(made, made', destroyed, destroyed)
  {}

  lemma RecordedSame(made: map<nat, nat>, destroyed: multiset<nat>)
    ensures Recorded(made, made, destroyed, destroyed)
  {}

  lemma DestroyedMore(made: map<nat, nat>, destroyed: multiset<nat>, destroyed': multiset<nat>)
    requires destroyed <= destroyed'
    ensures Recorded(made, made, destroyed, destroyed')
  {}

  lemma RecordedOn(a: map<nat, nat>, b: map<nat, nat>, c: map<nat, nat>, x: multiset<nat>, y: multiset<nat>,
                   z: multiset<nat>)
    requires Recorded(a, b, x, y) && Recorded(b, c, y, z)
    ensures Recorded(a, c, x, z)
  {}

  lemma TlsEntry(entries: map<nat, Entry>, tls: map<nat, nat>, thread: nat)
    requires TlsOk(entries, tls) && thread in tls
    ensures tls[thread] in entries && entries[tls[thread]].thread == thread
  {}

  lemma TlsEntryIs(entries: map<nat, Entry>, tls: map<nat, nat>, p: nat)
    requires TlsOk(entries, tls) && p in entries
    ensures entries[p].thread in tls && tls[entries[p].thread] == p
  {}

  lemma StorageAt(entries: map<nat, Entry>, types: seq<ResourceType>, p: nat)
    requires StorageOk(entries, types) && p in entries
    ensures |entries[p].storage| == |types|
  {}

  lemma StorageWithout(entries: map<nat, Entry>, types: seq<ResourceType>, p: nat)
    requires StorageOk(entries, types)
    ensures StorageOk(entries - {p}, types)
  {}

  lemma StorageCell(entries: map<nat, Entry>, types: seq<ResourceType>, p: nat, j: nat)
    requires StorageOk(entries, types) && p in entries && j < |types|
    ensures |entries[p].storage| == |types| && (entries[p].storage[j].None? <==> types[j].done)
    ensures Nulls(types, j + 1) == Nulls(types, j) + if types[j].done && types[j].dtor then 1 else 0
  {}

  lemma NullsNone(types: seq<ResourceType>)
    ensures Nulls(types, 0) == 0
  {}

  lemma SameTypes(types: seq<ResourceType>)
    ensures TypesKept(types, types)
  {}

  lemma OneMoreType(types: seq<ResourceType>, t: ResourceType)
    ensures TypesKept(types, types + [t])
  {}

  lemma OneTypeDone(types: seq<ResourceType>, j: nat)
    requires j < |types|
    ensures TypesKept(types, types[j := types[j].(done := true)])
  {}

  lemma KeptOn(a: seq<ResourceType>, b: seq<ResourceType>, c: seq<ResourceType>)
    requires TypesKept(a, b) && TypesKept(b, c)
    ensures TypesKept(a, c)
  {}

  lemma GoneNone(s: seq<Option<nat>>, types: seq<ResourceType>)
    requires |s| <= |types|
    ensures Gone(s, types, 0) == multiset{}
  {}

  lemma GoneNext(s: seq<Option<nat>>, types: seq<ResourceType>, i: nat)
    requires i < |s| <= |types|
    ensures Gone(s, types, i + 1) ==
      if s[i].Some? && types[i].dtor then Gone(s, types, i) + multiset{s[i].value} else Gone(s, types, i)
  {}

  lemma TableShrinks(size: nat, table: seq<seq<nat>>, entries: map<nat, Entry>, tls: map<nat, nat>, thread: nat, k: nat)
    requires TableOk(size, table, entries) && TlsOk(entries, tls) && thread in tls
    requires k < |table[thread % size]| && table[thread % size][k] == tls[thread]
    ensures var b, p := thread % size, tls[thread];
      TableOk(size, table[b := table[b][..k] + table[b][k + 1..]], entries - {p})
        && TlsOk(entries - {p}, tls - {thread})
  {
    Unlinked(size, table, entries, thread, k);
    hide TableOk;
  }

  lemma Unlinked(size: nat, table: seq<seq<nat>>, entries: map<nat, Entry>, thread: nat, k: nat)
    requires TableOk(size, table, entries) && k < |table[thread % size]|
    ensures var b := thread % size;
      TableOk(size, table[b := table[b][..k] + table[b][k + 1..]], entries - {table[b][k]})
  {
    var b := thread % size;
    var p, bucket := table[b][k], table[b][..k] + table[b][k + 1..];
    var table', entries' := table[b := bucket], entries - {p};
    assert forall j :: 0 <= j < |bucket| ==> bucket[j] == table[b][if j < k then j else j + 1];
    forall x, j | 0 <= x < size && 0 <= j < |table'[x]|
      ensures table'[x][j] in entries' && entries'[table'[x][j]].thread % size == x {
      if x == b {
        var i := if j < k then j else j + 1;
        assert table[b][i] in entries && entries[table[b][i]].thread != entries[table[b][k]].thread;
      } else {
        assert table[x][j] in entries && entries[table[x][j]].thread % size == x;
      }
    }
    forall q | q in entries' ensures q in table'[entries'[q].thread % size] {
      var x := entries[q].thread % size;
      assert q in table[x];
      if x == b {
        var i :| 0 <= i < |table[b]| && table[b][i] == q;
        assert bucket[if i < k then i else i - 1] == q;
      }
    }
  }

  lemma NothingLeft(size: nat, table: seq<seq<nat>>, entries: map<nat, Entry>, types: seq<ResourceType>,
                    live: map<nat, (nat, nat)>, made: map<nat, nat>, destroyed: multiset<nat>)
    requires TableOk(size, table, entries) && LiveOk(entries, live) && MadeOk(types, live, made, destroyed)
    requires |table| == size && forall b :: 0 <= b < size ==> table[b] == []
    ensures entries == map[]
    ensures forall c :: c in made ==> made[c] < |types| && destroyed[c] == if types[made[c]].dtor then 1 else 0
    ensures forall c :: c in destroyed ==> c in made
  {
    assert entries == map[];
    assert forall c :: c !in live;
  }

  lemma ClearingAt(entries: map<nat, Entry>, types: seq<ResourceType>, j: nat, reached: set<nat>, p: nat)
    requires Clearing(entries, types, j, reached) && p in entries
    ensures |entries[p].storage| == |types|
  {}

  lemma InBucket(size: nat, table: seq<seq<nat>>, entries: map<nat, Entry>, b: nat)
    requires TableOk(size, table, entries) && b < size
    ensures |table| == size > 0
    ensures forall k :: 0 <= k < |table[b]| ==> table[b][k] in entries && entries[table[b][k]].thread % size == b
  {}

  /** The walk through the bucket of a thread ends at the entry that thread-local storage points to, if there is one. */
  lemma FoundIsTls(size: nat, table: seq<seq<nat>>, entries: map<nat, Entry>, tls: map<nat, nat>, thread: nat, k: nat)
    requires TableOk(size, table, entries) && TlsOk(entries, tls)
    requires var bucket := table[thread % size];
      k <= |bucket| && (forall i :: 0 <= i < k ==> bucket[i] in entries && entries[bucket[i]].thread != thread) &&
      (k < |bucket| ==> bucket[k] in entries && entries[bucket[k]].thread == thread)
    ensures k < |table[thread % size]| <==> thread in tls
    ensures k < |table[thread % size]| ==> table[thread % size][k] == tls[thread]
    ensures thread in tls ==> tls[thread] in entries && entries[tls[thread]].thread == thread
  {}

  lemma TableGrows(size: nat, table: seq<seq<nat>>, entries: map<nat, Entry>, tls: map<nat, nat>, thread: nat, p: nat)
    requires TableOk(size, table, entries) && TlsOk(entries, tls) && thread !in tls && p !in entries
    ensures var b := thread % size;
      TableOk(size, table[b := table[b] + [p]], entries[p := Entry(thread, [])])
    ensures TlsOk(entries[p := Entry(thread, [])], tls[thread := p])
  {
    var b := thread % size;
    var table', entries' := table[b := table[b] + [p]], entries[p := Entry(thread, [])];
    assert forall q :: q in entries ==> entries[q].thread != thread;
    forall q | q in entries' ensures q in table'[entries'[q].thread % size] {
      if q == p { assert table'[b][|table[b]|] == p; } else { assert q in table[entries[q].thread % size]; }
    }
  }

  // While a new entry p is filled: its first n cells are there.
  ghost predicate Filling(entries: map<nat, Entry>, types: seq<ResourceType>, p: nat, n: nat)
  {
    && p in entries && |entries[p].storage| == n <= |types|
    && (forall j :: 0 <= j < n ==> (entries[p].storage[j].None? <==> types[j].done))
    && StorageOk(entries - {p}, types)
  }

  lemma FillingStarts(entries: map<nat, Entry>, types: seq<ResourceType>, p: nat, thread: nat)
    requires StorageOk(entries, types) && p !in entries
    ensures Filling(entries[p := Entry(thread, [])], types, p, 0)
  {
    assert entries[p := Entry(thread, [])] - {p} == entries;
  }

  lemma FillingNext(entries: map<nat, Entry>, types: seq<ResourceType>, p: nat, n: nat, c: nat)
    requires Filling(entries, types, p, n) && n < |types|
    ensures p in entries && |entries[p].storage| == n
    ensures Filling(entries[p :=
      entries[p].(storage := entries[p].storage + [if types[n].done then None else Some(c)])], types, p, n + 1)
  {
    var cell := if types[n].done then None else Some(c);
    assert entries[p := entries[p].(storage := entries[p].storage + [cell])] - {p} == entries - {p};
  }

  lemma FillingEnds(entries: map<nat, Entry>, types: seq<ResourceType>, p: nat)
    requires Filling(entries, types, p, |types|)
    ensures StorageOk(entries, types)
  {
    var others := entries - {p};
    forall q | q in entries ensures |entries[q].storage| == |types| {
      if q != p { assert q in others && others[q] == entries[q]; }
    }
    forall q, j | q in entries && 0 <= j < |types| ensures entries[q].storage[j].None? <==> types[j].done {
      if q != p { assert q in others && others[q] == entries[q]; }
    }
  }

  lemma BaseParts(m: Manager)
    requires m.Base()
    ensures TableOk(m.size, m.table, m.entries) && TlsOk(m.entries, m.tls)
    ensures LiveOk(m.entries, m.live) && MadeOk(m.types, m.live, m.made, m.destroyed)
    ensures (forall p :: p in m.entries ==> p < m.nextEntry) && (forall c :: c in m.made ==> c < m.nextBlock)
  {
    hide TableOk, TlsOk, LiveOk, MadeOk;
  }

  lemma BaseIs(m: Manager)
    requires TableOk(m.size, m.table, m.entries) && TlsOk(m.entries, m.tls)
    requires LiveOk(m.entries, m.live) && MadeOk(m.types, m.live, m.made, m.destroyed)
    requires (forall p :: p in m.entries ==> p < m.nextEntry) && (forall c :: c in m.made ==> c < m.nextBlock)
    ensures m.Base()
  {
    hide TableOk, TlsOk, LiveOk, MadeOk;
  }

  lemma InvParts(m: Manager)
    requires m.Inv()
    ensures m.Base() && StorageOk(m.entries, m.types) && !m.locked
  {}

  lemma InvIs(m: Manager)
    requires m.Base() && StorageOk(m.entries, m.types) && !m.locked
    ensures m.Inv()
  {}

  lemma TableSize(size: nat, table: seq<seq<nat>>, entries: map<nat, Entry>)
    requires TableOk(size, table, entries)
    ensures 0 < size == |table|
  {}

  /** Over any interleaving of steps of any threads, and then the shutdown: no block is destroyed twice, and none whose
      type has a destructor is left undestroyed. */
  method Session(size: nat, steps: nat) returns (m: Manager)
    requires 0 < size
    ensures m.Inv() && m.entries == map[]
    ensures forall c :: c in m.made ==> m.made[c] < |m.types| && m.destroyed[c] == if m.types[m.made[c]].dtor then 1
      else 0
    ensures forall c :: c in m.destroyed ==> c in m.made
  {
    hide *;
    m := new Manager(size);
    var n := steps;
    while n > 0
      invariant m.Inv()
    {
      var thread: nat, choice: nat, id: nat, ctor: bool, dtor: bool := *, *, *, *, *;
      if choice == 0 {
        var new' := m.AllocateId(ctor, dtor);
      } else if choice == 1 {
        var r := m.Resource(thread, id);
      } else if choice == 2 {
        m.FreeThread(thread);
      } else if 1 <= id <= |m.types| {
        m.FreeId(id);
      }
      n := n - 1;
    }
    m.Shutdown();
  }

  /** An id with a destructor is allocated, a thread looks up a resource, the id is freed, the thread is freed: the
      destructor is called on null. */
  method NullDestructor(size: nat, thread: nat) returns (m: Manager, ghost before: nat)
    requires 0 < size
    ensures m.Inv() && m.nullCalls > before
  {
    hide *;
    m := new Manager(size);
    var id := m.AllocateId(false, true);
    ghost var types := m.types;
    var r := m.Resource(thread, id);
    KeptAt(types, m.types, id - 1);
    m.FreeId(id);
    before := m.nullCalls;
    NullsIff(m.types, |m.types|);
    assert m.types[id - 1].done && m.types[id - 1].dtor;
    m.FreeThread(thread);
  }

  lemma KeptAt(a: seq<ResourceType>, b: seq<ResourceType>, j: nat)
    requires TypesKept(a, b) && j < |a|
    ensures |a| <= |b| && b[j].dtor == a[j].dtor
  {}
}
