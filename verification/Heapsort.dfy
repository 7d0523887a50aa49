/** The in-place heapsort of the benchmark script, on the indices 1, ..., n of an array. */
module Heapsort {
  import opened Wrappers

  // Every index from 2 * lo up to hi has a parent that is at least as large.
  ghost predicate HeapFrom(s: seq<real>, lo: nat, hi: nat)
    requires hi < |s|
  {
    forall k :: 2 * lo <= k <= hi ==> s[k] <= s[k / 2]
  }

  // The same with a hole at i that v is to fill: v fits below the parent of the hole, and so do the children of the
  // hole.
  ghost predicate HeapWithHole(s: seq<real>, lo: nat, hi: nat, i: nat, v: real)
    requires hi < |s|
  {
    && (forall k :: 2 * lo <= k <= hi && k != i && k / 2 != i ==> s[k] <= s[k / 2])
    && (2 * lo <= i <= hi ==> v <= s[i / 2] && forall k :: 2 * lo <= k <= hi && k / 2 == i ==> s[k] <= s[i / 2])
  }

  ghost predicate SortedRange(s: seq<real>, lo: nat, hi: nat)
    requires hi < |s|
  {
    forall j, k :: lo <= j <= k <= hi ==> s[j] <= s[k]
  }

  ghost predicate AtMost(s: seq<real>, lo: nat, hi: nat, top: real)
    requires hi < |s|
  {
    forall k :: lo <= k <= hi ==> s[k] <= top
  }

  // The root of a heap is its largest element.
  lemma {:induction false} RootIsLargest(s: seq<real>, hi: nat, k: nat)
    requires 1 <= k <= hi < |s| && HeapFrom(s, 1, hi)
    ensures s[k] <= s[1]
  {
    if k > 1 { RootIsLargest(s, hi, k / 2); }
  }

  // Moving the hole from i to j keeps the elements.
  lemma HoleMoved(s: seq<real>, i: nat, j: nat, v: real)
    requires i < |s| && j < |s| && i != j
    ensures multiset(s[i := s[j]][j := v]) == multiset(s[i := v])
  {
  }

  lemma HoleDown(s: seq<real>, lo: nat, hi: nat, i: nat, j: nat, v: real)
    requires 1 <= lo <= i <= hi < |s| && i < j <= hi && j / 2 == i && HeapWithHole(s, lo, hi, i, v)
    requires v < s[j] && forall k :: k <= hi && k / 2 == i ==> s[k] <= s[j]
    ensures HeapWithHole(s[i := s[j]], lo, hi, j, v)
  {
    var t := s[i := s[j]];
    forall k | 2 * lo <= k <= hi && k != j && k / 2 != j ensures t[k] <= t[k / 2] {
      if k == i { assert s[j] <= s[i / 2]; }
    }
  }

  lemma HoleFilled(s: seq<real>, lo: nat, hi: nat, i: nat, v: real)
    requires 1 <= lo <= i <= hi < |s| && HeapWithHole(s, lo, hi, i, v)
    requires forall k :: k <= hi && k / 2 == i ==> s[k] <= v
    ensures HeapFrom(s[i := v], lo, hi)
  {
  }

  // v is on its way down from l and has reached the hole at i.
  ghost predicate Sifting(s: seq<real>, was: seq<real>, l: nat, ir: nat, i: nat, v: real, top: real)
  {
    && 1 <= l <= i <= ir < |s| == |was|
    && HeapWithHole(s, l, ir, i, v)
    && AtMost(s, l, ir, top) && v <= top
    && multiset(s[i := v]) == multiset(was[l := v])
    && s[..l] == was[..l] && s[ir + 1..] == was[ir + 1..]
  }

  ghost predicate Sifted(s: seq<real>, was: seq<real>, l: nat, ir: nat, v: real, top: real)
  {
    && 1 <= l <= ir < |s| == |was|
    && HeapFrom(s, l, ir) && AtMost(s, l, ir, top)
    && multiset(s) == multiset(was[l := v])
    && s[..l] == was[..l] && s[ir + 1..] == was[ir + 1..]
  }

  lemma SiftStarts(s: seq<real>, l: nat, ir: nat, v: real, top: real)
    requires 1 <= l <= ir < |s| && HeapFrom(s, l + 1, ir) && AtMost(s, l, ir, top) && v <= top
    ensures Sifting(s, s, l, ir, l, v, top)
  {
  }

  lemma SiftGoesOn(s: seq<real>, was: seq<real>, l: nat, ir: nat, i: nat, j: nat, v: real, top: real)
    requires Sifting(s, was, l, ir, i, v, top) && i < j <= ir && j / 2 == i && v < s[j]
    requires forall k :: k <= ir && k / 2 == i ==> s[k] <= s[j]
    ensures Sifting(s[i := s[j]], was, l, ir, j, v, top)
  {
    hide HeapWithHole;
    HoleMoved(s, i, j, v);
    HoleDown(s, l, ir, i, j, v);
  }

  lemma SiftEnds(s: seq<real>, was: seq<real>, l: nat, ir: nat, i: nat, v: real, top: real)
    requires Sifting(s, was, l, ir, i, v, top)
    requires forall k :: k <= ir && k / 2 == i ==> s[k] <= v
    ensures Sifted(s[i := v], was, l, ir, v, top)
  {
    HoleFilled(s, l, ir, i, v);
  }

  // Sifts v down from the hole at l (the inner loop).
  method Sift(a: array<real>, l: nat, ir: nat, v: real, ghost top: real)
    requires 1 <= l <= ir < a.Length && HeapFrom(a[..], l + 1, ir)
    requires AtMost(a[..], l, ir, top) && v <= top
    modifies a
    ensures Sifted(a[..], old(a[..]), l, ir, v, top)
  {
    hide *;
    var i, j := l, 2 * l;
    SiftStarts(a[..], l, ir, v, top);
    while j <= ir
      invariant Sifting(a[..], old(a[..]), l, ir, i, v, top)
      invariant l <= i <= ir && (j == 2 * i || j == ir + 1)
      invariant j != 2 * i ==> forall k :: k <= ir && k / 2 == i ==> a[k] <= v
      decreases ir - i, ir + 1 - j
    {
      if j < ir && a[j] < a[j + 1] { j := j + 1; }
      ghost var s := a[..];
      if v < a[j] {
        SiftGoesOn(s, old(a[..]), l, ir, i, j, v, top);
        a[i] := a[j];
        assert a[..] == s[i := s[j]];
        i := j;
        j := j + i;
      } else {
        j := ir + 1;
      }
    }
    ghost var s := a[..];
    SiftEnds(s, old(a[..]), l, ir, i, v, top);
    a[i] := v;
    assert a[..] == s[i := v];
  }

  function Largest(s: seq<real>): (r: real)
    requires s != []
    ensures forall k :: 0 <= k < |s| ==> s[k] <= r
  {
    if |s| == 1 then s[0]
    else
      var r := Largest(s[1..]);
      assert forall k :: 1 <= k < |s| ==> s[k] == s[1..][k - 1];
      if s[0] <= r then r else s[0]
  }

  // The indices below l are still to be made into a heap; those above ir already hold the largest elements in order.
  ghost predicate Sorting(s: seq<real>, was: seq<real>, n: nat, l: nat, ir: nat)
  {
    && 1 <= l && 2 <= ir <= n < |s| == |was| && l <= n / 2 + 1
    && (l > 1 ==> ir == n)
    && HeapFrom(s, l, ir)
    && SortedRange(s, ir + 1, n)
    && (ir < n ==> AtMost(s, 1, ir, s[ir + 1]))
    && Kept(s, was, n)
  }

  ghost predicate Kept(s: seq<real>, was: seq<real>, n: nat)
  {
    n < |s| == |was| && multiset(s) == multiset(was) && s[0] == was[0] && s[n + 1..] == was[n + 1..]
  }

  lemma Planted(s: seq<real>, was: seq<real>, t: seq<real>, n: nat, l: nat, ir: nat, top: real)
    requires Sorting(s, was, n, l, ir) && 1 < l && Sifted(t, s, l - 1, ir, s[l - 1], top)
    ensures Sorting(t, was, n, l - 1, ir)
  {
    assert s[l - 1 := s[l - 1]] == s;
    assert t[0] == t[..l - 1][0] || l == 2;
    KeptBy(s, was, t, n, l - 1, ir);
  }

  lemma KeptBy(s: seq<real>, was: seq<real>, t: seq<real>, n: nat, l: nat, ir: nat)
    requires Kept(s, was, n) && |t| == |s| && 1 <= l <= ir <= n && multiset(t) == multiset(s)
    requires t[..l] == s[..l] && t[ir + 1..] == s[ir + 1..]
    ensures Kept(t, was, n)
  {
    assert t[0] == t[..l][0] == s[..l][0];
    assert t[n + 1..] == t[ir + 1..][n - ir..] == s[ir + 1..][n - ir..];
  }

  lemma Swapped(s: seq<real>, i: nat, j: nat)
    requires i < |s| && j < |s|
    ensures multiset(s[i := s[j]][j := s[i]]) == multiset(s)
  {
  }

  // What lies above the sifted range is as the pick left it.
  lemma PickedAbove(s: seq<real>, t: seq<real>, ir: nat)
    requires 2 < ir < |s| && Sifted(t, s[ir := s[1]], 1, ir - 1, s[ir], s[1])
    ensures |t| == |s| && t[ir] == s[1] && t[0] == s[0]
    ensures forall k :: ir < k < |s| ==> t[k] == s[k]
  {
    hide HeapFrom, AtMost;
    var u := s[ir := s[1]];
    assert t[ir - 1 + 1..] == t[ir..];
    forall k | ir <= k < |s| ensures t[k] == u[k] {
      assert t[ir..][k - ir] == u[ir..][k - ir];
    }
    assert t[..1][0] == u[..1][0];
  }

  lemma PickedKept(s: seq<real>, was: seq<real>, t: seq<real>, n: nat, ir: nat)
    requires Kept(s, was, n) && 2 < ir <= n && Sifted(t, s[ir := s[1]], 1, ir - 1, s[ir], s[1])
    ensures Kept(t, was, n)
  {
    hide HeapFrom, AtMost;
    PickedAbove(s, t, ir);
    Swapped(s, ir, 1);
    assert t[n + 1..] == s[n + 1..];
  }

  // The largest element has gone to ir, and the one it displaced has been sifted in from the root.
  lemma Picked(s: seq<real>, was: seq<real>, t: seq<real>, n: nat, ir: nat)
    requires Sorting(s, was, n, 1, ir) && 2 < ir
    requires Sifted(t, s[ir := s[1]], 1, ir - 1, s[ir], s[1])
    ensures Sorting(t, was, n, 1, ir - 1)
  {
    hide HeapFrom, Kept;
    PickedAbove(s, t, ir);
    PickedKept(s, was, t, n, ir);
    SiftedHeap(t, s[ir := s[1]], ir - 1, s[ir], s[1]);
    if ir < n { RootBelow(s, was, n, ir); }
  }

  lemma SiftedHeap(t: seq<real>, u: seq<real>, ir: nat, v: real, top: real)
    requires Sifted(t, u, 1, ir, v, top)
    ensures ir < |t| && HeapFrom(t, 1, ir) && AtMost(t, 1, ir, top)
  {
  }

  lemma RootBelow(s: seq<real>, was: seq<real>, n: nat, ir: nat)
    requires Sorting(s, was, n, 1, ir) && ir < n
    ensures forall k :: ir < k <= n ==> s[1] <= s[k]
  {
    hide HeapFrom, Kept;
    assert s[1] <= s[ir + 1];
  }

  lemma BeforePick(s: seq<real>, was: seq<real>, n: nat, ir: nat)
    requires Sorting(s, was, n, 1, ir) && 2 < ir
    ensures var u := s[ir := s[1]];
      HeapFrom(u, 2, ir - 1) && AtMost(u, 1, ir - 1, s[1]) && s[ir] <= s[1]
  {
    forall k | 1 <= k <= ir ensures s[k] <= s[1] {
      RootIsLargest(s, ir, k);
    }
  }

  lemma LastPick(s: seq<real>, was: seq<real>, n: nat)
    requires Sorting(s, was, n, 1, 2)
    ensures var t := s[2 := s[1]][1 := s[2]]; SortedRange(t, 1, n) && Kept(t, was, n)
  {
    var t := s[2 := s[1]][1 := s[2]];
    Swapped(s, 2, 1);
    RootIsLargest(s, 2, 2);
    assert t[n + 1..] == s[n + 1..];
    assert forall k :: 2 < k <= n ==> s[3] <= s[k];
  }

  lemma StartsSorting(s: seq<real>, n: nat)
    requires 2 <= n < |s|
    ensures Sorting(s, s, n, n / 2 + 1, n)
  {
  }

  lemma BeforePlant(s: seq<real>, was: seq<real>, n: nat, l: nat, ir: nat)
    requires Sorting(s, was, n, l, ir) && 1 < l
    ensures 1 <= l - 1 <= ir < |s| && ir == n && HeapFrom(s, l, ir) && AtMost(s, l - 1, ir, Largest(s))
      && s[l - 1] <= Largest(s)
  {
  }

  lemma KeptRange(s: seq<real>, was: seq<real>, n: nat)
    requires Kept(s, was, n)
    ensures n < |s| == |was| && multiset(s[1..n + 1]) == multiset(was[1..n + 1])
    ensures s[0] == was[0] && s[n + 1..] == was[n + 1..]
  {
    Parts(s, n);
    Parts(was, n);
    var outer := multiset{s[0]} + multiset(s[n + 1..]);
    Cancelled(multiset(s[1..n + 1]), multiset(was[1..n + 1]), outer, multiset(s));
  }

  lemma Cancelled(a: multiset<real>, b: multiset<real>, c: multiset<real>, sum: multiset<real>)
    requires a + c == sum && b + c == sum
    ensures a == b
  {
    assert a == a + c - c && b == b + c - c;
  }

  lemma Parts(s: seq<real>, n: nat)
    requires n < |s|
    ensures multiset(s) == multiset{s[0]} + multiset(s[1..n + 1]) + multiset(s[n + 1..])
  {
    assert s == [s[0]] + s[1..n + 1] + s[n + 1..];
  }

  // ---------------------------------------------------------------- when the outer loop ends

  // What decides how the outer loop goes on. The elements have no part in it: the inner loop always ends.
  datatype Pass = Pass(l: int, ir: int)

  // One pass of the outer loop, for any n: None when it returns.
  function Next(p: Pass): Option<Pass>
  {
    if p.l > 1 then Some(Pass(p.l - 1, p.ir))
    else if p.ir - 1 == 1 then None
    else Some(Pass(p.l, p.ir - 1))
  }

  // Where the outer loop is after k passes: None once it has returned.
  function After(n: int, k: nat): Option<Pass>
  {
    if k == 0 then Some(Pass(n / 2 + 1, n))
    else
      match After(n, k - 1)
      case None => None
      case Some(p) => Next(p)
  }

  // With fewer than two elements the end of the range is past already and moves away; the inner loop is never entered.
  lemma {:induction false} NeverReturns(n: int, k: nat)
    requires n < 2
    ensures After(n, k).Some?
    ensures var p := After(n, k).value; p.l == n / 2 + 1 <= 1 && p.ir == n - k && 2 * p.l > p.ir - 1
  {
    if k > 0 { NeverReturns(n, k - 1); }
  }

  lemma {:induction false} CountsDown(n: int, k: nat)
    requires n >= 2 && k < n / 2 + n - 1
    ensures After(n, k) == Some(if k <= n / 2 then Pass(n / 2 + 1 - k, n) else Pass(1, n - (k - n / 2)))
  {
    if k > 0 { CountsDown(n, k - 1); }
  }

  ghost predicate Returns(n: int)
  {
    exists k: nat :: After(n, k).None?
  }

  /** The sort returns exactly for two elements or more. */
  lemma ReturnsIff(n: int)
    ensures Returns(n) <==> n >= 2
  {
    if n >= 2 {
      var last := n / 2 + n - 2;
      CountsDown(n, last);
      assert After(n, last + 1).None?;
    } else {
      forall k: nat ensures After(n, k).Some? {
        NeverReturns(n, k);
      }
    }
  }

  // A pass of the first phase: one more element is planted.
  method Plant(a: array<real>, ghost was: seq<real>, n: nat, l: nat, ir: nat)
    requires Sorting(a[..], was, n, l, ir) && 1 < l
    modifies a
    ensures Sorting(a[..], was, n, l - 1, ir)
  {
    hide *;
    ghost var s := a[..];
    BeforePlant(s, was, n, l, ir);
    Sift(a, l - 1, ir, a[l - 1], Largest(s));
    Planted(s, was, a[..], n, l, ir, Largest(s));
  }

  // A pass of the second phase: the largest element goes to ir, and the one it displaces is sifted in from the root.
  method Pick(a: array<real>, ghost was: seq<real>, n: nat, ir: nat)
    requires Sorting(a[..], was, n, 1, ir) && 2 < ir
    modifies a
    ensures Sorting(a[..], was, n, 1, ir - 1)
  {
    hide *;
    ghost var s := a[..];
    SortingBounds(s, was, n, 1, ir);
    var v := a[ir];
    a[ir] := a[1];
    assert a[..] == s[ir := s[1]];
    BeforePick(s, was, n, ir);
    Sift(a, 1, ir - 1, v, s[1]);
    Picked(s, was, a[..], n, ir);
  }

  // The last pass.
  method Finish(a: array<real>, ghost was: seq<real>, n: nat)
    requires Sorting(a[..], was, n, 1, 2)
    modifies a
    ensures SortedRange(a[..], 1, n) && Kept(a[..], was, n)
  {
    hide *;
    ghost var s := a[..];
    SortingBounds(s, was, n, 1, 2);
    var v := a[2];
    a[2] := a[1];
    a[1] := v;
    assert a[..] == s[2 := s[1]][1 := s[2]];
    LastPick(s, was, n);
  }

  lemma SortingBounds(s: seq<real>, was: seq<real>, n: nat, l: nat, ir: nat)
    requires Sorting(s, was, n, l, ir)
    ensures 1 <= l && 2 <= ir <= n < |s| == |was|
  {}

  /** heapsort_r: puts the elements at 1, ..., n in order and touches nothing else, in n / 2 + n - 1 passes. For fewer
      than two elements no number of passes is enough (ReturnsIff). */
  method Sort(n: nat, a: array<real>) returns (ghost passes: nat)
    requires 2 <= n < a.Length
    modifies a
    ensures passes == n / 2 + n - 1 && After(n, passes).None? && After(n, passes - 1).Some?
    ensures SortedRange(a[..], 1, n)
    ensures multiset(a[..][1..n + 1]) == multiset(old(a[..])[1..n + 1])
    ensures a[..][0] == old(a[..])[0] && a[..][n + 1..] == old(a[..])[n + 1..]
  {
    hide *;
    var l, ir := n / 2 + 1, n;
    ghost var was, total := a[..], l + ir;
    passes := 0;
    StartsSorting(was, n);
    FirstPass(n);
    while true
      invariant 1 <= l && 2 <= ir <= n && Sorting(a[..], was, n, l, ir)
      invariant After(n, passes) == Some(Pass(l, ir)) && passes + l + ir == total
      decreases l + ir
    {
      OnePass(n, passes, l, ir);
      passes := passes + 1;
      if l > 1 {
        Plant(a, was, n, l, ir);
        l := l - 1;
      } else if ir - 1 == 1 {
        Finish(a, was, n);
        KeptRange(a[..], was, n);
        return;
      } else {
        Pick(a, was, n, ir);
        ir := ir - 1;
      }
    }
  }

  lemma FirstPass(n: nat)
    ensures After(n, 0) == Some(Pass(n / 2 + 1, n))
  {
  }

  lemma OnePass(n: nat, k: nat, l: nat, ir: nat)
    requires After(n, k) == Some(Pass(l, ir))
    ensures After(n, k + 1) ==
      (if l > 1 then Some(Pass(l - 1, ir)) else if ir - 1 == 1 then None else Some(Pass(l, ir - 1)))
  {
  }
}
