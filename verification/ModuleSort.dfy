/** Ordering the extension modules by their dependencies, and starting them in that order. */
module ModuleSort {
  import opened Wrappers

  datatype DepKind = Required | Conflicts | OptionalDep

  datatype Dep = Dep(name: string, kind: DepKind)

  class Module {
    const name: string
    const deps: seq<Dep>
    const startsUp: bool // what module_startup_func answers
    var started: bool

    constructor (name: string, deps: seq<Dep>, startsUp: bool)
      ensures this.name == name && this.deps == deps && this.startsUp == startsUp && !started
    {
      this.name, this.deps, this.startsUp, started := name, deps, startsUp, false;
    }
  }

  function LowerChar(c: char): char
  {
    if 'A' <= c <= 'Z' then 'a' + (c - 'A') else c
  }

  function Lower(s: string): string
  {
    seq(|s|, i requires 0 <= i < |s| => LowerChar(s[i]))
  }

  // strcasecmp(...) == 0
  predicate SameName(a: string, b: string)
  {
    Lower(a) == Lower(b)
  }

  predicate Orders(d: Dep) { d.kind == Required || d.kind == OptionalDep }

  // Module m is to be started after module r.
  ghost predicate After(m: Module, r: Module)
  {
    exists i :: 0 <= i < |m.deps| && Orders(m.deps[i]) && SameName(m.deps[i].name, r.name)
  }

  ghost predicate DistinctModules(s: seq<Module>)
  {
    forall i, j :: 0 <= i < j < |s| ==> s[i] != s[j]
  }

  // A ranking shows that no modules waiting to be started wait for each other in a circle.
  ghost predicate Ranked(s: seq<Module>, waiting: set<Module>, rank: map<Module, nat>)
  {
    && (forall m :: m in s ==> m in rank)
    && (forall m, r :: m in s && r in s && m in waiting && m != r && After(m, r) ==> rank[r] < rank[m])
  }

  // None of the first n modules, if it is waiting, stands before one it is to be started after.
  ghost predicate OrderedBelow(s: seq<Module>, waiting: set<Module>, n: nat)
  {
    forall i, j :: 0 <= i < n && i < j < |s| && s[i] in waiting ==> !After(s[i], s[j])
  }

  ghost function Waiting(s: seq<Module>): set<Module>
    reads set m | m in s :: m
  {
    set m | m in s && !m.started :: m
  }

  // Dependency d of module m orders it behind module r.
  predicate Names(m: Module, d: nat, r: Module)
  {
    d < |m.deps| && Orders(m.deps[d]) && SameName(m.deps[d].name, r.name)
  }

  // Module j is the nearest of those behind module i that the first of its dependencies with any behind it names.
  ghost predicate FirstLater(s: seq<Module>, i: nat, j: int)
  {
    && i < j < |s|
    && exists d: nat ::
      && Names(s[i], d, s[j])
      && (forall k :: i < k < j ==> !Names(s[i], d, s[k]))
      && (forall c: nat, k :: c < d && i < k < |s| ==> !Names(s[i], c, s[k]))
  }

  ghost function Later(s: seq<Module>, i: nat): (r: Option<nat>)
    ensures r.Some? ==> FirstLater(s, i, r.value)
    ensures r == None ==> forall j :: !FirstLater(s, i, j)
  {
    if exists j :: FirstLater(s, i, j) then
      var j :| FirstLater(s, i, j);
      Some(j)
    else None
  }

  lemma LaterUnique(s: seq<Module>, i: nat, j: nat)
    requires FirstLater(s, i, j)
    ensures Later(s, i) == Some(j)
  {
    hide Names;
    var k := Later(s, i).value;
    var c: nat :| Names(s[i], c, s[j]) && (forall k :: i < k < j ==> !Names(s[i], c, s[k]))
      && (forall b: nat, k :: b < c && i < k < |s| ==> !Names(s[i], b, s[k]));
    var d: nat :| Names(s[i], d, s[k]) && (forall j :: i < j < k ==> !Names(s[i], d, s[j]))
      && (forall b: nat, j :: b < d && i < j < |s| ==> !Names(s[i], b, s[j]));
    assert c == d;
  }

  lemma NoneAfter(s: seq<Module>, i: nat)
    requires i < |s| && forall j :: i < j < |s| ==> !After(s[i], s[j])
    ensures Later(s, i) == None
  {
    hide After, FirstLater, Names;
    forall j ensures FirstLater(s, i, j) ==> i < j < |s| && After(s[i], s[j]) {
      if FirstLater(s, i, j) { LaterIsAfter(s, i, j); }
    }
  }

  lemma LaterIsAfter(s: seq<Module>, i: nat, j: int)
    requires FirstLater(s, i, j)
    ensures i < j < |s| && After(s[i], s[j])
  {
    var d: nat :| Names(s[i], d, s[j]);
  }

  // Where the sorting stands: the modules, and the place whose module is to be settled.
  datatype Turn = Turn(modules: seq<Module>, place: nat)

  // One round: the module at the place is exchanged with one it is to be started after, or is settled.
  ghost function Next(waiting: set<Module>, t: Turn): Turn
  {
    var Turn(s, i) := t;
    if i >= |s| then t
    else
      match if s[i] in waiting then Later(s, i) else None
      case Some(j) => Turn(s[i := s[j]][j := s[i]], i)
      case None => Turn(s, i + 1)
  }

  ghost function Rounds(waiting: set<Module>, t: Turn, n: nat): Turn
  {
    if n == 0 then t else Next(waiting, Rounds(waiting, t, n - 1))
  }

  ghost predicate AtEnd(t: Turn) { t.place >= |t.modules| }

  /** The rounds come to one end only. */
  lemma {:induction false} OneEnd(waiting: set<Module>, t: Turn, n: nat, m: nat)
    requires n <= m && AtEnd(Rounds(waiting, t, n))
    ensures Rounds(waiting, t, m) == Rounds(waiting, t, n)
    decreases m - n
  {
    hide Later;
    if n < m { OneEnd(waiting, t, n, m - 1); }
  }

  /** Modules none of which stands before one it is to be started after stay as they are. */
  lemma {:induction false} OrderedStays(s: seq<Module>, waiting: set<Module>, n: nat)
    requires OrderedBelow(s, waiting, |s|) && n <= |s|
    ensures Rounds(waiting, Turn(s, 0), n) == Turn(s, n)
  {
    hide After, Later;
    if n > 0 {
      OrderedStays(s, waiting, n - 1);
      if s[n - 1] in waiting { NoneAfter(s, n - 1); }
    }
  }

  // The first dependency of module b1 that stands behind it.
  method LaterDependency(a: array<Module>, b1: nat) returns (found: bool, b2: nat)
    requires b1 < a.Length
    ensures found ==> b1 < b2 < a.Length && !a[b1].started && After(a[b1], a[b2]) && FirstLater(a[..], b1, b2)
    ensures !found ==> a[b1].started || forall j :: b1 < j < a.Length ==> !After(a[b1], a[j])
  {
    var m := a[b1];
    found, b2 := false, b1;
    if m.started { return; }
    var dep := 0;
    while dep < |m.deps|
      invariant dep <= |m.deps|
      invariant forall d, j :: 0 <= d < dep && Orders(m.deps[d]) && b1 < j < a.Length ==>
        !SameName(m.deps[d].name, a[j].name)
    {
      if Orders(m.deps[dep]) {
        b2 := b1 + 1;
        while b2 < a.Length
          invariant b1 < b2 <= a.Length
          invariant forall j :: b1 < j < b2 ==> !SameName(m.deps[dep].name, a[j].name)
        {
          if SameName(m.deps[dep].name, a[b2].name) {
            assert Names(a[..][b1], dep, a[..][b2]);
            return true, b2;
          }
          b2 := b2 + 1;
        }
      }
      dep := dep + 1;
    }
  }

  method Swap(a: array<Module>, i: nat, j: nat)
    requires i < j < a.Length
    modifies a
    ensures a[..] == old(a[..])[i := old(a[j])][j := old(a[i])]
  {
    a[i], a[j] := a[j], a[i];
  }

  /** zend_sort_modules: swaps the module at hand with a later one it is to be started after, and tries again. */
  method SortModules(a: array<Module>, ghost rank: map<Module, nat>)
    requires DistinctModules(a[..]) && Ranked(a[..], Waiting(a[..]), rank)
    modifies a
    ensures multiset(a[..]) == multiset(old(a[..]))
    ensures exists n :: Rounds(old(Waiting(a[..])), Turn(old(a[..]), 0), n) == Turn(a[..], a.Length)
    ensures OrderedBelow(a[..], old(Waiting(a[..])), a.Length) && DistinctModules(a[..])
  {
    hide *;
    ghost var first, waiting, n := a[..], Waiting(a[..]), 0;
    var b1 := 0;
    FirstRound(first, rank);
    while b1 < a.Length
      invariant b1 <= a.Length && Sorting(first, waiting, rank, a[..], b1, n)
      invariant forall m :: m in a[..] ==> (m in waiting <==> !m.started)
      decreases a.Length - b1, RankAt(a[..], rank, b1)
    {
      var found, b2 := LaterDependency(a, b1);
      ghost var before := a[..];
      if found {
        SwapRound(first, waiting, rank, before, b1, b2, n);
        Swap(a, b1, b2);
      } else {
        SettleRound(first, waiting, rank, before, b1, n);
        b1 := b1 + 1;
      }
      n := n + 1;
    }
    LastRound(first, waiting, rank, a[..], n);
  }

  // What is known after n rounds.
  ghost predicate Sorting(first: seq<Module>, waiting: set<Module>, rank: map<Module, nat>, s: seq<Module>, i: nat,
                          n: nat)
  {
    && multiset(s) == multiset(first) && DistinctModules(s) && Ranked(s, waiting, rank)
    && OrderedBelow(s, waiting, i) && Rounds(waiting, Turn(first, 0), n) == Turn(s, i)
  }

  lemma FirstRound(first: seq<Module>, rank: map<Module, nat>)
    requires DistinctModules(first) && Ranked(first, Waiting(first), rank)
    ensures Sorting(first, Waiting(first), rank, first, 0, 0)
    ensures forall m :: m in first ==> (m in Waiting(first) <==> !m.started)
  {
    hide After, DistinctModules, Ranked;
  }

  lemma SwapRound(first: seq<Module>, waiting: set<Module>, rank: map<Module, nat>, s: seq<Module>, i: nat, j: nat,
                  n: nat)
    requires Sorting(first, waiting, rank, s, i, n) && i < j < |s| && FirstLater(s, i, j) && s[i] in waiting
      && After(s[i], s[j])
    ensures var s' := s[i := s[j]][j := s[i]];
      Sorting(first, waiting, rank, s', i, n + 1) && RankAt(s', rank, i) < RankAt(s, rank, i)
        && forall m :: m in s' ==> m in s
  {
    Exchanged(s, waiting, i, j);
    StillRanked(s, s[i := s[j]][j := s[i]], waiting, rank);
    RankFalls(s, waiting, rank, i, j);
    LaterUnique(s, i, j);
    hide After, Later, FirstLater, DistinctModules, Ranked, OrderedBelow, RankAt;
  }

  lemma SettleRound(first: seq<Module>, waiting: set<Module>, rank: map<Module, nat>, s: seq<Module>, i: nat, n: nat)
    requires Sorting(first, waiting, rank, s, i, n) && i < |s|
    requires s[i] in waiting ==> forall j :: i < j < |s| ==> !After(s[i], s[j])
    ensures Sorting(first, waiting, rank, s, i + 1, n + 1) && s[i] in s
  {
    Passed(s, waiting, i);
    if s[i] in waiting { NoneAfter(s, i); }
    hide After, Later, DistinctModules, Ranked, OrderedBelow;
  }

  lemma LastRound(first: seq<Module>, waiting: set<Module>, rank: map<Module, nat>, s: seq<Module>, n: nat)
    requires Sorting(first, waiting, rank, s, |s|, n)
    ensures multiset(s) == multiset(first) && DistinctModules(s) && OrderedBelow(s, waiting, |s|)
    ensures Rounds(waiting, Turn(first, 0), n) == Turn(s, |s|)
  {
    hide After, DistinctModules, Ranked, OrderedBelow, Rounds;
  }

  ghost function RankAt(s: seq<Module>, rank: map<Module, nat>, i: nat): nat
  {
    if i < |s| && s[i] in rank then rank[s[i]] else 0
  }

  // The module that comes to the place has a lower rank than the one that was there.
  lemma RankFalls(s: seq<Module>, waiting: set<Module>, rank: map<Module, nat>, i: nat, j: nat)
    requires i < j < |s| && DistinctModules(s) && Ranked(s, waiting, rank) && s[i] in waiting && After(s[i], s[j])
    ensures RankAt(s[i := s[j]][j := s[i]], rank, i) < RankAt(s, rank, i)
  {
    hide After;
    assert s[i] in s && s[j] in s && s[i] != s[j];
    assert s[i := s[j]][j := s[i]][i] == s[j];
  }

  lemma NoneOrdered(s: seq<Module>, waiting: set<Module>)
    ensures OrderedBelow(s, waiting, 0)
  {}

  lemma Passed(s: seq<Module>, waiting: set<Module>, i: nat)
    requires i < |s| && OrderedBelow(s, waiting, i)
    requires s[i] in waiting ==> forall j :: i < j < |s| ==> !After(s[i], s[j])
    ensures OrderedBelow(s, waiting, i + 1)
  {
    hide After;
  }

  // Exchanging two modules behind the ordered ones keeps what is known.
  lemma Exchanged(s: seq<Module>, waiting: set<Module>, i: nat, j: nat)
    requires i < j < |s| && DistinctModules(s) && OrderedBelow(s, waiting, i)
    ensures var s' := s[i := s[j]][j := s[i]];
      multiset(s') == multiset(s) && DistinctModules(s') && OrderedBelow(s', waiting, i)
      && forall m :: m in s' <==> m in s
  {
    var s' := s[i := s[j]][j := s[i]];
    hide After;
    SwapMembers(s, i, j);
    SwapDistinct(s, i, j);
    hide DistinctModules;
    forall p, q | 0 <= p < i && p < q < |s'| && s'[p] in waiting ensures !After(s'[p], s'[q]) {
      assert s'[q] == s[if q == i then j else if q == j then i else q];
    }
  }

  lemma SwapMembers(s: seq<Module>, i: nat, j: nat)
    requires i < j < |s|
    ensures multiset(s[i := s[j]][j := s[i]]) == multiset(s)
    ensures forall m :: m in s[i := s[j]][j := s[i]] <==> m in s
  {
    var s' := s[i := s[j]][j := s[i]];
    assert multiset(s') == multiset(s);
    assert forall m :: m in s' <==> m in multiset(s');
    assert forall m :: m in s <==> m in multiset(s);
  }

  lemma SwapDistinct(s: seq<Module>, i: nat, j: nat)
    requires i < j < |s| && DistinctModules(s)
    ensures DistinctModules(s[i := s[j]][j := s[i]])
  {}

  lemma StillRanked(s: seq<Module>, s': seq<Module>, waiting: set<Module>, rank: map<Module, nat>)
    requires Ranked(s, waiting, rank) && forall m :: m in s' <==> m in s
    ensures Ranked(s', waiting, rank)
  {
    hide After;
  }

  /** The order can only be reached if no modules wait for each other in a circle: then positions rank the modules. */
  lemma OrderedIsRanked(s: seq<Module>, waiting: set<Module>) returns (rank: map<Module, nat>)
    requires DistinctModules(s) && OrderedBelow(s, waiting, |s|)
    ensures Ranked(s, waiting, rank)
  {
    hide After;
    rank := map m | m in s :: Position(s, m);
    forall m, r | m in s && r in s && m in waiting && m != r && After(m, r) ensures rank[r] < rank[m] {
      assert s[Position(s, m)] == m && s[Position(s, r)] == r;
    }
  }

  ghost function Position(s: seq<Module>, m: Module): (i: nat)
    requires m in s
    ensures i < |s| && s[i] == m
  {
    var i :| 0 <= i < |s| && s[i] == m; i
  }

  lemma {:induction false} RoundsShift(waiting: set<Module>, t: Turn, n: nat)
    ensures Rounds(waiting, Next(waiting, t), n) == Rounds(waiting, t, n + 1)
  {
    hide Next;
    if n > 0 { RoundsShift(waiting, t, n - 1); }
  }

  // What the rounds keep, with or without a ranking.
  lemma {:induction false} RoundsKeep(first: seq<Module>, waiting: set<Module>, n: nat)
    requires DistinctModules(first)
    ensures var t := Rounds(waiting, Turn(first, 0), n);
      t.place <= |t.modules| && DistinctModules(t.modules) && OrderedBelow(t.modules, waiting, t.place)
      && forall m :: m in t.modules <==> m in first
  {
    hide After, Later, DistinctModules, OrderedBelow, FirstLater;
    if n == 0 {
      NoneOrdered(first, waiting);
    } else {
      RoundsKeep(first, waiting, n - 1);
      var Turn(s, i) := Rounds(waiting, Turn(first, 0), n - 1);
      if i < |s| { OneRound(s, waiting, i); }
    }
  }

  lemma OneRound(s: seq<Module>, waiting: set<Module>, i: nat)
    requires i < |s| && DistinctModules(s) && OrderedBelow(s, waiting, i)
    ensures var t := Next(waiting, Turn(s, i));
      t.place <= |t.modules| && DistinctModules(t.modules) && OrderedBelow(t.modules, waiting, t.place)
      && forall m :: m in t.modules <==> m in s
  {
    hide After, DistinctModules, OrderedBelow, FirstLater;
    if s[i] in waiting && Later(s, i).Some? {
      assert FirstLater(s, i, Later(s, i).value);
      LaterIsAfter(s, i, Later(s, i).value);
      Exchanged(s, waiting, i, Later(s, i).value);
    } else {
      if s[i] in waiting { NotAfter(s, i); }
      Passed(s, waiting, i);
    }
  }

  // A module that finds none it is to be started after stands before none of them.
  lemma NotAfter(s: seq<Module>, i: nat)
    requires i < |s| && Later(s, i) == None
    ensures forall j :: i < j < |s| ==> !After(s[i], s[j])
  {
    forall j | i < j < |s| ensures !After(s[i], s[j]) {
      if After(s[i], s[j]) {
        var d: nat :| d < |s[i].deps| && Orders(s[i].deps[d]) && SameName(s[i].deps[d].name, s[j].name);
        assert Names(s[i], d, s[j]);
        SomeLater(s, i, d, j);
      }
    }
  }

  lemma {:induction false} SomeLater(s: seq<Module>, i: nat, d: nat, j: nat)
    requires i < j < |s| && Names(s[i], d, s[j])
    ensures exists k :: FirstLater(s, i, k)
    decreases d, j
  {
    hide Names;
    if c: nat, k: nat :| c < d && i < k < |s| && Names(s[i], c, s[k]) {
      SomeLater(s, i, c, k);
    } else if k: nat :| i < k < j && Names(s[i], d, s[k]) {
      SomeLater(s, i, d, k);
    } else {
      assert FirstLater(s, i, j);
    }
  }

  lemma {:induction false} RankedEnds(s: seq<Module>, waiting: set<Module>, rank: map<Module, nat>, i: nat)
    returns (n: nat)
    requires i <= |s| && DistinctModules(s) && Ranked(s, waiting, rank) && OrderedBelow(s, waiting, i)
    ensures AtEnd(Rounds(waiting, Turn(s, i), n))
    decreases |s| - i, RankAt(s, rank, i)
  {
    hide After, Later, DistinctModules, OrderedBelow, FirstLater, Ranked, RankAt;
    if i == |s| { return 0; }
    var t := Next(waiting, Turn(s, i));
    OneRound(s, waiting, i);
    StillRanked(s, t.modules, waiting, rank);
    if t.place == i { NextFalls(s, waiting, rank, i); }
    n := RankedEnds(t.modules, waiting, rank, t.place);
    RoundsShift(waiting, Turn(s, i), n);
    n := n + 1;
  }

  lemma NextFalls(s: seq<Module>, waiting: set<Module>, rank: map<Module, nat>, i: nat)
    requires i < |s| && DistinctModules(s) && Ranked(s, waiting, rank) && Next(waiting, Turn(s, i)).place == i
    ensures |Next(waiting, Turn(s, i)).modules| == |s|
    ensures RankAt(Next(waiting, Turn(s, i)).modules, rank, i) < RankAt(s, rank, i)
  {
    hide After, DistinctModules, FirstLater, Ranked, RankAt;
    var j := Later(s, i).value;
    LaterIsAfter(s, i, j);
    RankFalls(s, waiting, rank, i, j);
  }

  /** The sorting comes to an end exactly if no modules wait for each other in a circle. */
  lemma EndsIff(s: seq<Module>, waiting: set<Module>)
    requires DistinctModules(s)
    ensures (exists n :: AtEnd(Rounds(waiting, Turn(s, 0), n))) <==> (exists rank :: Ranked(s, waiting, rank))
  {
    hide After, DistinctModules, Ranked, OrderedBelow, Rounds;
    if n :| AtEnd(Rounds(waiting, Turn(s, 0), n)) {
      RoundsKeep(s, waiting, n);
      var t := Rounds(waiting, Turn(s, 0), n);
      var rank := OrderedIsRanked(t.modules, waiting);
      StillRanked(t.modules, s, waiting, rank);
    }
    if rank :| Ranked(s, waiting, rank) {
      NoneOrdered(s, waiting);
      var n := RankedEnds(s, waiting, rank, 0);
    }
  }

  // ---- starting ----

  ghost predicate DistinctNames(s: seq<Module>)
  {
    forall m, r :: m in s && r in s && m != r ==> !SameName(m.name, r.name)
  }

  // Whether m is loaded in the end: it was started before, or it starts up and all modules it requires are registered
  // and loaded. A module that requires itself satisfies its own requirement.
  ghost predicate Loads(s: seq<Module>, waiting: set<Module>, rank: map<Module, nat>, m: Module)
    requires m in rank
    decreases rank[m]
  {
    m !in waiting ||
    (m.startsUp && forall i :: 0 <= i < |m.deps| && m.deps[i].kind == Required ==>
      exists r :: r in s && SameName(m.deps[i].name, r.name)
        && (r == m || (r in rank && rank[r] < rank[m] && Loads(s, waiting, rank, r))))
  }

  // zend_hash_find_ptr on the registry of the modules left
  method Find(registry: seq<Module>, name: string) returns (i: nat)
    ensures i <= |registry|
    ensures i < |registry| ==> SameName(name, registry[i].name)
    ensures i == |registry| ==> forall j :: 0 <= j < |registry| ==> !SameName(name, registry[j].name)
  {
    i := 0;
    while i < |registry|
      invariant i <= |registry| && forall j :: 0 <= j < i ==> !SameName(name, registry[j].name)
    {
      if SameName(name, registry[i].name) { return; }
      i := i + 1;
    }
  }

  // The requirements of m as the registry meets them.
  ghost predicate Met(m: Module, registry: seq<Module>, d: nat)
    requires d < |m.deps|
    reads set r | r in registry :: r
  {
    exists r :: r in registry && SameName(m.deps[d].name, r.name) && (r == m || r.started)
  }

  /** zend_startup_module_ex: fails if a required module is not registered or not started; a module counts as started
      while its own requirements are checked. */
  method StartupModule(m: Module, registry: seq<Module>) returns (ok: bool)
    requires DistinctNames(registry) && m in registry
    modifies m
    ensures old(m.started) ==> ok && m.started
    ensures ok ==> m.started
    ensures m.started <==>
      (old(m.started) || forall d :: 0 <= d < |m.deps| && m.deps[d].kind == Required ==> old(Met(m, registry, d)))
    ensures !old(m.started) ==>
      (ok <==> m.startsUp && forall d :: 0 <= d < |m.deps| && m.deps[d].kind == Required ==> old(Met(m, registry, d)))
  {
    if m.started { return true; }
    m.started := true;
    var dep := 0;
    while dep < |m.deps|
      invariant dep <= |m.deps| && m.started
      invariant forall d :: 0 <= d < dep && m.deps[d].kind == Required ==> old(Met(m, registry, d))
    {
      if m.deps[dep].kind == Required {
        var i := Find(registry, m.deps[dep].name);
        if i == |registry| || !registry[i].started {
          NotMet(m, registry, dep, i);
          m.started := false;
          return false;
        }
      }
      dep := dep + 1;
    }
    ok := m.startsUp;
  }

  lemma NotMet(m: Module, registry: seq<Module>, d: nat, i: nat)
    requires DistinctNames(registry) && m in registry && d < |m.deps| && i <= |registry| && m.started
    requires if i < |registry| then SameName(m.deps[d].name, registry[i].name) && !registry[i].started
             else forall r :: r in registry ==> !SameName(m.deps[d].name, r.name)
    ensures !Met(m, registry, d)
  {
    hide Lower;
  }

  // What is left of the modules before the waiting module m is exactly what loads.
  ghost predicate Settled(s: seq<Module>, waiting: set<Module>, rank: map<Module, nat>, m: Module,
                          registry: seq<Module>)
    reads set r | r in registry :: r
  {
    && (forall r :: r in s ==> r in rank)
    && (forall r :: r in registry ==> r in s)
    && (forall r :: r in s && After(m, r) && r != m ==> ((r in registry && r.started) <==> Loads(s, waiting, rank, r)))
    && m in registry
  }

  // A module that is to be started finds in the registry just what decides whether it loads.
  lemma LoadsIs(s: seq<Module>, waiting: set<Module>, rank: map<Module, nat>, m: Module, registry: seq<Module>)
    requires m in s && Ranked(s, waiting, rank) && m in waiting && Settled(s, waiting, rank, m, registry)
    ensures Loads(s, waiting, rank, m) <==>
      m.startsUp && forall d :: 0 <= d < |m.deps| && m.deps[d].kind == Required ==> Met(m, registry, d)
  {
    forall d | 0 <= d < |m.deps| && m.deps[d].kind == Required
      ensures (exists r ::
        && r in s && SameName(m.deps[d].name, r.name)
        && (r == m || (r in rank && rank[r] < rank[m] && Loads(s, waiting, rank, r))))
        <==> Met(m, registry, d)
    {
      RequirementIs(s, waiting, rank, m, registry, d);
    }
    hide Met, Settled;
  }

  lemma RequirementIs(s: seq<Module>, waiting: set<Module>, rank: map<Module, nat>, m: Module, registry: seq<Module>,
                      d: nat)
    requires m in s && Ranked(s, waiting, rank) && m in waiting && Settled(s, waiting, rank, m, registry)
    requires d < |m.deps| && m.deps[d].kind == Required
    ensures (exists r ::
      && r in s && SameName(m.deps[d].name, r.name)
      && (r == m || (r in rank && rank[r] < rank[m] && Loads(s, waiting, rank, r))))
      <==> Met(m, registry, d)
  {
    hide Loads, Lower;
    if r :|
      && r in s && SameName(m.deps[d].name, r.name)
      && (r == m || (r in rank && rank[r] < rank[m] && Loads(s, waiting, rank, r))) {
      assert After(m, r);
      assert r in registry;
    }
    if Met(m, registry, d) {
      var r :| r in registry && SameName(m.deps[d].name, r.name) && (r == m || r.started);
      assert After(m, r);
    }
  }

  // The modules of t that load, in the order of t.
  ghost function Loading(t: seq<Module>, s: seq<Module>, waiting: set<Module>, rank: map<Module, nat>): seq<Module>
  {
    if t == [] then []
    else
      var m := t[|t| - 1];
      Loading(t[..|t| - 1], s, waiting, rank) + if m in rank && Loads(s, waiting, rank, m) then [m] else []
  }

  lemma LoadingNone(s: seq<Module>, waiting: set<Module>, rank: map<Module, nat>)
    ensures Loading([], s, waiting, rank) == []
  {}

  lemma LoadingNext(t: seq<Module>, i: nat, s: seq<Module>, waiting: set<Module>, rank: map<Module, nat>)
    requires i < |t| && t[i] in rank
    ensures Loading(t[..i + 1], s, waiting, rank) ==
      Loading(t[..i], s, waiting, rank) + if Loads(s, waiting, rank, t[i]) then [t[i]] else []
  {
    hide Loads;
    assert t[..i + 1][..i] == t[..i];
  }

  // zend_hash_apply: the modules are started in their order, and those that fail leave the registry.
  method StartAll(a: array<Module>, ghost s: seq<Module>, ghost waiting: set<Module>, ghost rank: map<Module, nat>)
    returns (kept: seq<Module>)
    requires (forall m :: m in s <==> m in a[..]) && DistinctModules(a[..]) && DistinctNames(s)
      && Ranked(s, waiting, rank)
    requires OrderedBelow(a[..], waiting, a.Length) && forall m :: m in a[..] ==> (m in waiting <==> !m.started)
    modifies set m | m in a[..] :: m
    ensures forall m :: m in s ==> m in rank && (m in kept <==> Loads(s, waiting, rank, m))
    ensures kept == Loading(old(a[..]), s, waiting, rank)
    ensures forall m :: m in kept ==> m in s && m.started
  {
    hide *;
    ghost var sorted := a[..];
    InRank(s, waiting, rank);
    assert forall j :: 0 <= j < |sorted| ==> sorted[j] in sorted;
    kept := [];
    var i := 0;
    LoadingNone(s, waiting, rank);
    while i < a.Length
      invariant i <= a.Length && a[..] == sorted
      invariant kept == Loading(sorted[..i], s, waiting, rank)
      invariant forall m :: m in kept ==> m in sorted[..i] && m.started
      invariant forall j :: 0 <= j < i ==> (sorted[j] in kept <==> Loads(s, waiting, rank, sorted[j]))
      invariant forall j :: i <= j < |sorted| ==> (sorted[j] in waiting <==> !sorted[j].started)
    {
      ghost var m, registry := a[i], kept + a[i..];
      assert a[i] == sorted[i] && sorted[i] in s && a[i..] == sorted[i..];
      StartsSettled(s, sorted, waiting, rank, i, kept);
      if m in waiting { LoadsIs(s, waiting, rank, m, registry); } else { StartedLoads(s, waiting, rank, m); }
      Others(sorted, i);
      LoadingNext(sorted, i, s, waiting, rank);
      var ok := StartupModule(a[i], kept + a[i..]);
      if ok { kept := kept + [a[i]]; }
      i := i + 1;
    }
    assert sorted[..a.Length] == sorted;
  }

  lemma InRank(s: seq<Module>, waiting: set<Module>, rank: map<Module, nat>)
    requires Ranked(s, waiting, rank)
    ensures forall m :: m in s ==> m in rank
  {}

  lemma Others(s: seq<Module>, i: nat)
    requires DistinctModules(s) && i < |s|
    ensures s[i] !in s[..i] && (forall m :: m in s[..i] ==> m in s[..i + 1]) && s[i] in s[..i + 1]
    ensures forall j :: 0 <= j < |s| && j != i ==> s[j] != s[i]
    ensures forall j :: 0 <= j < i ==> s[j] in s[..i]
  {}

  /** zend_startup_modules: the modules left in the registry are exactly those that load. */
  method StartupModules(a: array<Module>, ghost rank: map<Module, nat>) returns (kept: seq<Module>)
    requires DistinctModules(a[..]) && DistinctNames(a[..]) && Ranked(a[..], Waiting(a[..]), rank)
    modifies a, set m | m in a[..] :: m
    ensures multiset(a[..]) == multiset(old(a[..]))
    ensures forall m :: m in old(a[..]) ==>
      m in rank && (m in kept <==> Loads(old(a[..]), old(Waiting(a[..])), rank, m))
    ensures exists n :: Rounds(old(Waiting(a[..])), Turn(old(a[..]), 0), n) == Turn(a[..], a.Length)
    ensures kept == Loading(a[..], old(a[..]), old(Waiting(a[..])), rank)
    ensures forall m :: m in kept ==> m in old(a[..]) && m.started
  {
    ghost var s, waiting := a[..], Waiting(a[..]);
    SortModules(a, rank);
    SameMembers(s, a[..]);
    hide *;
    kept := StartAll(a, s, waiting, rank);
  }

  lemma StartedLoads(s: seq<Module>, waiting: set<Module>, rank: map<Module, nat>, m: Module)
    requires m in rank && m !in waiting
    ensures Loads(s, waiting, rank, m)
  {}

  lemma SameMembers(s: seq<Module>, t: seq<Module>)
    requires multiset(s) == multiset(t)
    ensures |s| == |t| && forall m :: m in s <==> m in t
  {
    assert forall m :: m in s <==> m in multiset(s);
    assert forall m :: m in t <==> m in multiset(t);
    assert |multiset(s)| == |s| && |multiset(t)| == |t|;
  }

  lemma StartsSettled(s: seq<Module>, sorted: seq<Module>, waiting: set<Module>, rank: map<Module, nat>, i: nat,
                      kept: seq<Module>)
    requires (forall m :: m in s <==> m in sorted) && DistinctModules(sorted) && DistinctNames(s)
      && Ranked(s, waiting, rank)
    requires OrderedBelow(sorted, waiting, |sorted|) && i < |sorted|
    requires forall m :: m in kept ==> m in sorted[..i] && m.started
    requires forall j :: 0 <= j < i ==> (sorted[j] in kept <==> Loads(s, waiting, rank, sorted[j]))
    requires forall j :: i <= j < |sorted| ==> (sorted[j] in waiting <==> !sorted[j].started)
    ensures DistinctNames(kept + sorted[i..]) && sorted[i] in kept + sorted[i..]
    ensures sorted[i] in waiting ==> Settled(s, waiting, rank, sorted[i], kept + sorted[i..])
  {
    hide Loads, Lower, After;
    var registry, m := kept + sorted[i..], sorted[i];
    assert sorted[i..][0] == m;
    forall r | r in registry ensures r in s {
      assert r in kept ==> r in sorted;
    }
    if m in waiting {
      forall r | r in s && After(m, r) && r != m ensures (r in registry && r.started) <==> Loads(s, waiting, rank, r) {
        var k :| 0 <= k < |sorted| && sorted[k] == r;
        assert k < i;
        assert r !in sorted[i..];
      }
    }
  }

  // Every module that waits starts up, and what it requires is registered.
  ghost predicate Complete(s: seq<Module>, waiting: set<Module>)
  {
    && (forall m :: m in s && m in waiting ==> m.startsUp)
    && (forall m, d :: m in s && m in waiting && 0 <= d < |m.deps| && m.deps[d].kind == Required ==>
         exists r :: r in s && SameName(m.deps[d].name, r.name))
  }

  /** The order drops no module: if all that is required is registered and starts up, every module loads. */
  lemma {:induction false} NoneDropped(s: seq<Module>, waiting: set<Module>, rank: map<Module, nat>, m: Module)
    requires Ranked(s, waiting, rank) && Complete(s, waiting) && m in s
    ensures Loads(s, waiting, rank, m)
    decreases rank[m]
  {
    hide Lower;
    if m in waiting {
      forall d | 0 <= d < |m.deps| && m.deps[d].kind == Required
        ensures exists r ::
          && r in s && SameName(m.deps[d].name, r.name)
          && (r == m || (r in rank && rank[r] < rank[m] && Loads(s, waiting, rank, r)))
      {
        var r :| r in s && SameName(m.deps[d].name, r.name);
        assert After(m, r);
        if r != m { NoneDropped(s, waiting, rank, r); }
      }
    }
  }
}
