/** The line-by-line difference between wanted and actual output that the test runner reports. */
module LineDiff {
  // A reported line with its number, counted from one.
  datatype Line = Minus(number: nat, text: string) | Plus(number: nat, text: string)

  // comp_line: strcmp, or a match of the whole line against a pattern.
  type Comp = (string, string) -> bool

  // ---------------------------------------------------------------- the score of a way to go on

  // Pairs of matching lines, from i and j on, both growing.
  ghost predicate Chain(ar1: seq<string>, ar2: seq<string>, comp: Comp, i: nat, j: nat, pairs: seq<(nat, nat)>)
  {
    && (forall p :: p in pairs ==> i <= p.0 < |ar1| && j <= p.1 < |ar2| && comp(ar1[p.0], ar2[p.1]))
    && (forall a, b :: 0 <= a < b < |pairs| ==> pairs[a].0 < pairs[b].0 && pairs[a].1 < pairs[b].1)
  }

  lemma Prepended(ar1: seq<string>, ar2: seq<string>, comp: Comp, i: nat, j: nat, a: seq<(nat, nat)>, m: nat, n: nat,
      b: seq<(nat, nat)>)
    requires Chain(ar1, ar2, comp, i, j, a) && Chain(ar1, ar2, comp, m, n, b) && i <= m && j <= n
    requires forall p :: p in a ==> p.0 < m && p.1 < n
    ensures Chain(ar1, ar2, comp, i, j, a + b)
  {
    var c := a + b;
    forall x, y | 0 <= x < y < |c| ensures c[x].0 < c[y].0 && c[x].1 < c[y].1 {
      if x < |a| { assert c[x] in a; }
      if y >= |a| { assert c[y] in b; }
    }
  }

  // Some chain from i and j on has n pairs.
  ghost predicate HasChain(ar1: seq<string>, ar2: seq<string>, comp: Comp, i: nat, j: nat, n: nat)
  {
    exists pairs :: |pairs| == n && Chain(ar1, ar2, comp, i, j, pairs)
  }

  lemma {:induction false} ChainBounded(ar1: seq<string>, ar2: seq<string>, comp: Comp, i: nat, j: nat,
                                        pairs: seq<(nat, nat)>)
    requires Chain(ar1, ar2, comp, i, j, pairs) && i <= |ar1| && j <= |ar2|
    ensures i + |pairs| <= |ar1| && j + |pairs| <= |ar2|
    decreases pairs
  {
    if pairs != [] {
      var p, rest := pairs[0], pairs[1..];
      assert p in pairs;
      forall q | q in rest ensures p.0 < q.0 && p.1 < q.1 && q in pairs {
        var k :| 0 <= k < |rest| && rest[k] == q;
        assert q == pairs[k + 1];
      }
      ChainBounded(ar1, ar2, comp, p.0 + 1, p.1 + 1, rest);
    }
  }

  function Max(a: nat, b: nat): nat { if a > b then a else b }

  // How many lines match from i and j on.
  function Equal(ar1: seq<string>, ar2: seq<string>, comp: Comp, i: nat, j: nat): (n: nat)
    requires i <= |ar1| && j <= |ar2|
    ensures i + n <= |ar1| && j + n <= |ar2|
    decreases |ar1| - i
  {
    if i < |ar1| && j < |ar2| && comp(ar1[i], ar2[j]) then 1 + Equal(ar1, ar2, comp, i + 1, j + 1) else 0
  }

  // The score of going on at i and j: the lines that match at once, and the best score after leaving out lines of one
  // text, within the budget.
  function Score(ar1: seq<string>, ar2: seq<string>, comp: Comp, i: nat, j: nat, budget: real): nat
    requires i <= |ar1| && j <= |ar2|
    decreases |ar1| + 1 - i + |ar2| + 1 - j, 1
  {
    var n := Equal(ar1, ar2, comp, i, j);
    var steps := budget - n as real - 1.0;
    if steps <= 0.0 then n
    else
      n + Max(BestFirst(ar1, ar2, comp, i + n + 1, j + n, steps / 2.0),
              BestSecond(ar1, ar2, comp, i + n, j + n + 1, steps))
  }

  function BestFirst(ar1: seq<string>, ar2: seq<string>, comp: Comp, i: nat, j: nat, st: real): nat
    requires i <= |ar1| + 1 && j <= |ar2|
    decreases |ar1| + 1 - i + |ar2| + 1 - j, 2
  {
    if i >= |ar1| || st <= 0.0 then 0
    else Max(Score(ar1, ar2, comp, i, j, st - 1.0), BestFirst(ar1, ar2, comp, i + 1, j, st - 1.0))
  }

  function BestSecond(ar1: seq<string>, ar2: seq<string>, comp: Comp, i: nat, j: nat, st: real): nat
    requires i <= |ar1| && j <= |ar2| + 1
    decreases |ar1| + 1 - i + |ar2| + 1 - j, 2
  {
    if j >= |ar2| || st <= 0.0 then 0
    else Max(Score(ar1, ar2, comp, i, j, st - 1.0), BestSecond(ar1, ar2, comp, i, j + 1, st - 1.0))
  }

  /** count_array_diff */
  method CountDiff(ar1: seq<string>, ar2: seq<string>, comp: Comp, i: nat, j: nat, budget: real) returns (equal: nat)
    requires i <= |ar1| && j <= |ar2|
    ensures equal == Score(ar1, ar2, comp, i, j, budget)
    decreases |ar1| - i + |ar2| - j, 1
  {
    var idx1, idx2, steps := i, j, budget;
    equal := 0;
    while idx1 < |ar1| && idx2 < |ar2| && comp(ar1[idx1], ar2[idx2])
      invariant i <= idx1 <= |ar1| && j <= idx2 <= |ar2| && equal == idx1 - i == idx2 - j
      invariant Equal(ar1, ar2, comp, i, j) == equal + Equal(ar1, ar2, comp, idx1, idx2)
      invariant steps == budget - equal as real
    {
      idx1, idx2, equal, steps := idx1 + 1, idx2 + 1, equal + 1, steps - 1.0;
    }
    steps := steps - 1.0;
    if steps > 0.0 {
      var eq1 := SkipFirst(ar1, ar2, comp, idx1, idx2, steps / 2.0);
      var eq2 := SkipSecond(ar1, ar2, comp, idx1, idx2, steps);
      if eq1 > eq2 {
        equal := equal + eq1;
      } else if eq2 > 0 {
        equal := equal + eq2;
      }
    }
  }

  // The best score after leaving out at least one more line of the first text.
  method SkipFirst(ar1: seq<string>, ar2: seq<string>, comp: Comp, i: nat, j: nat, budget: real) returns (best: nat)
    requires i <= |ar1| && j <= |ar2|
    ensures best == BestFirst(ar1, ar2, comp, i + 1, j, budget)
    decreases |ar1| - i + |ar2| - j, 0
  {
    best := 0;
    var ofs, st := i + 1, budget;
    while ofs < |ar1|
      invariant i < ofs <= |ar1| + 1
      invariant Max(best, BestFirst(ar1, ar2, comp, ofs, j, st)) == BestFirst(ar1, ar2, comp, i + 1, j, budget)
    {
      st := st - 1.0;
      if st + 1.0 <= 0.0 { break; }
      var eq := CountDiff(ar1, ar2, comp, ofs, j, st);
      if eq > best { best := eq; }
      ofs := ofs + 1;
    }
  }

  // The best score after leaving out at least one more line of the second text.
  method SkipSecond(ar1: seq<string>, ar2: seq<string>, comp: Comp, i: nat, j: nat, budget: real) returns (best: nat)
    requires i <= |ar1| && j <= |ar2|
    ensures best == BestSecond(ar1, ar2, comp, i, j + 1, budget)
    decreases |ar1| - i + |ar2| - j, 0
  {
    best := 0;
    var ofs, st := j + 1, budget;
    while ofs < |ar2|
      invariant j < ofs <= |ar2| + 1
      invariant Max(best, BestSecond(ar1, ar2, comp, i, ofs, st)) == BestSecond(ar1, ar2, comp, i, j + 1, budget)
    {
      st := st - 1.0;
      if st + 1.0 <= 0.0 { break; }
      var eq := CountDiff(ar1, ar2, comp, i, ofs, st);
      if eq > best { best := eq; }
      ofs := ofs + 1;
    }
  }

  lemma MatchingChain(ar1: seq<string>, ar2: seq<string>, comp: Comp, i: nat, j: nat)
    returns (pairs: seq<(nat, nat)>)
    requires i <= |ar1| && j <= |ar2|
    ensures Chain(ar1, ar2, comp, i, j, pairs) && |pairs| == Equal(ar1, ar2, comp, i, j)
    ensures forall p :: p in pairs ==> p.0 < i + |pairs| && p.1 < j + |pairs|
    decreases |ar1| - i
  {
    if i < |ar1| && j < |ar2| && comp(ar1[i], ar2[j]) {
      var rest := MatchingChain(ar1, ar2, comp, i + 1, j + 1);
      Prepended(ar1, ar2, comp, i, j, [(i, j)], i + 1, j + 1, rest);
      pairs := [(i, j)] + rest;
    } else {
      pairs := [];
    }
  }

  /** The score is the number of pairs in some chain of matching lines, so no side has fewer lines left; and it is no
      less than the number of lines that match at once. */
  lemma {:induction false} ScoreIsChain(ar1: seq<string>, ar2: seq<string>, comp: Comp, i: nat, j: nat, budget: real)
    requires i <= |ar1| && j <= |ar2|
    ensures HasChain(ar1, ar2, comp, i, j, Score(ar1, ar2, comp, i, j, budget))
    ensures i + Score(ar1, ar2, comp, i, j, budget) <= |ar1| && j + Score(ar1, ar2, comp, i, j, budget) <= |ar2|
    ensures Equal(ar1, ar2, comp, i, j) <= Score(ar1, ar2, comp, i, j, budget)
    decreases |ar1| + 1 - i + |ar2| + 1 - j, 1
  {
    hide Chain, BestFirst, BestSecond;
    var pairs := MatchingChain(ar1, ar2, comp, i, j);
    var n, steps := |pairs|, budget - |pairs| as real - 1.0;
    if steps > 0.0 {
      var best1 := BestFirst(ar1, ar2, comp, i + n + 1, j + n, steps / 2.0);
      var best2 := BestSecond(ar1, ar2, comp, i + n, j + n + 1, steps);
      FirstIsChain(ar1, ar2, comp, i + n + 1, j + n, i + n, steps / 2.0);
      SecondIsChain(ar1, ar2, comp, i + n, j + n + 1, j + n, steps);
      var more :| |more| == Max(best1, best2) && Chain(ar1, ar2, comp, i + n, j + n, more);
      Prepended(ar1, ar2, comp, i, j, pairs, i + n, j + n, more);
      pairs := pairs + more;
    }
    ChainBounded(ar1, ar2, comp, i, j, pairs);
  }

  lemma {:induction false} FirstIsChain(ar1: seq<string>, ar2: seq<string>, comp: Comp, i: nat, j: nat, from: nat,
                                        st: real)
    requires from < i <= |ar1| + 1 && j <= |ar2|
    ensures HasChain(ar1, ar2, comp, from, j, BestFirst(ar1, ar2, comp, i, j, st))
    decreases |ar1| + 1 - i + |ar2| + 1 - j, 2
  {
    hide Score;
    if i < |ar1| && st > 0.0 {
      ScoreIsChain(ar1, ar2, comp, i, j, st - 1.0);
      FirstIsChain(ar1, ar2, comp, i + 1, j, from, st - 1.0);
      var pairs :| |pairs| == Score(ar1, ar2, comp, i, j, st - 1.0) && Chain(ar1, ar2, comp, i, j, pairs);
      assert Chain(ar1, ar2, comp, from, j, pairs);
    } else {
      assert Chain(ar1, ar2, comp, from, j, []);
    }
  }

  lemma {:induction false} SecondIsChain(ar1: seq<string>, ar2: seq<string>, comp: Comp, i: nat, j: nat, from: nat,
                                         st: real)
    requires i <= |ar1| && from < j <= |ar2| + 1
    ensures HasChain(ar1, ar2, comp, i, from, BestSecond(ar1, ar2, comp, i, j, st))
    decreases |ar1| + 1 - i + |ar2| + 1 - j, 2
  {
    hide Score;
    if j < |ar2| && st > 0.0 {
      ScoreIsChain(ar1, ar2, comp, i, j, st - 1.0);
      SecondIsChain(ar1, ar2, comp, i, j + 1, from, st - 1.0);
      var pairs :| |pairs| == Score(ar1, ar2, comp, i, j, st - 1.0) && Chain(ar1, ar2, comp, i, j, pairs);
      assert Chain(ar1, ar2, comp, i, from, pairs);
    } else {
      assert Chain(ar1, ar2, comp, i, from, []);
    }
  }

  // ---------------------------------------------------------------- what a difference says

  function Numbers(ls: seq<Line>): seq<nat>
  {
    seq(|ls|, k requires 0 <= k < |ls| => ls[k].number)
  }

  function Minuses(d: seq<Line>): (r: seq<Line>)
    ensures forall l :: l in r ==> l.Minus? && l in d
  {
    if d == [] then [] else Minuses(d[..|d| - 1]) + if d[|d| - 1].Minus? then [d[|d| - 1]] else []
  }

  function Pluses(d: seq<Line>): (r: seq<Line>)
    ensures forall l :: l in r ==> l.Plus? && l in d
  {
    if d == [] then [] else Pluses(d[..|d| - 1]) + if d[|d| - 1].Plus? then [d[|d| - 1]] else []
  }

  ghost predicate Ascending(ls: seq<Line>, most: nat)
  {
    && (forall a, b :: 0 <= a < b < |ls| ==> ls[a].number < ls[b].number)
    && (forall a :: 0 <= a < |ls| ==> 1 <= ls[a].number <= most)
  }

  // The first n lines of a text without those that are listed.
  function Without(ar: seq<string>, n: nat, listed: seq<Line>): seq<string>
    requires n <= |ar|
  {
    if n == 0 then []
    else if listed != [] && listed[|listed| - 1].number == n then Without(ar, n - 1, listed[..|listed| - 1])
    else Without(ar, n - 1, listed) + [ar[n - 1]]
  }

  ghost predicate Matching(a: seq<string>, b: seq<string>, comp: Comp)
  {
    |a| == |b| && forall k :: 0 <= k < |a| ==> comp(a[k], b[k])
  }

  function LineAt(w: seq<string>, k: nat): string { if k < |w| then w[k] else "" }

  // Every removed line is a wanted one and every added line is one of the output; each is listed once and in order,
  // and the lines that are not listed match one to one.
  ghost predicate Sound(ar1: seq<string>, ar2: seq<string>, w: seq<string>, comp: Comp, n1: nat, n2: nat,
      old1: seq<Line>, old2: seq<Line>)
  {
    && n1 <= |ar1| && n2 <= |ar2|
    && Ascending(old1, n1) && Ascending(old2, n2)
    && (forall l :: l in old1 ==> l.Minus? && l.text == LineAt(w, l.number - 1))
    && (forall l :: l in old2 ==> l.Plus? && l.text == LineAt(ar2, l.number - 1))
    && Matching(Without(ar1, n1, old1), Without(ar2, n2, old2), comp)
  }

  lemma WithoutListed(ar: seq<string>, n: nat, listed: seq<Line>, l: Line)
    requires n < |ar| && l.number == n + 1
    ensures Without(ar, n + 1, listed + [l]) == Without(ar, n, listed)
  {
    assert (listed + [l])[..|listed|] == listed;
  }

  lemma Removed(ar1: seq<string>, ar2: seq<string>, w: seq<string>, comp: Comp, n1: nat, n2: nat,
      old1: seq<Line>, old2: seq<Line>)
    requires Sound(ar1, ar2, w, comp, n1, n2, old1, old2) && n1 < |ar1|
    ensures Sound(ar1, ar2, w, comp, n1 + 1, n2, old1 + [Minus(n1 + 1, LineAt(w, n1))], old2)
  {
    hide Without, Matching;
    WithoutListed(ar1, n1, old1, Minus(n1 + 1, LineAt(w, n1)));
  }

  lemma Added(ar1: seq<string>, ar2: seq<string>, w: seq<string>, comp: Comp, n1: nat, n2: nat,
      old1: seq<Line>, old2: seq<Line>)
    requires Sound(ar1, ar2, w, comp, n1, n2, old1, old2) && n2 < |ar2|
    ensures Sound(ar1, ar2, w, comp, n1, n2 + 1, old1, old2 + [Plus(n2 + 1, ar2[n2])])
  {
    hide Without, Matching;
    WithoutListed(ar2, n2, old2, Plus(n2 + 1, ar2[n2]));
  }

  lemma Matched(ar1: seq<string>, ar2: seq<string>, w: seq<string>, comp: Comp, n1: nat, n2: nat,
      old1: seq<Line>, old2: seq<Line>)
    requires Sound(ar1, ar2, w, comp, n1, n2, old1, old2) && n1 < |ar1| && n2 < |ar2| && comp(ar1[n1], ar2[n2])
    ensures Sound(ar1, ar2, w, comp, n1 + 1, n2 + 1, old1, old2)
  {
  }

  lemma Pushed(d: seq<Line>, l: Line)
    ensures Minuses(d + [l]) == (if l.Minus? then Minuses(d) + [l] else Minuses(d))
    ensures Pluses(d + [l]) == (if l.Plus? then Pluses(d) + [l] else Pluses(d))
  {
    assert (d + [l])[..|d|] == d;
  }

  lemma {:induction false} NothingListed(ar: seq<string>, n: nat)
    requires n <= |ar|
    ensures Without(ar, n, []) == ar[..n]
  {
    if n > 0 {
      NothingListed(ar, n - 1);
      assert ar[..n] == ar[..n - 1] + [ar[n - 1]];
    }
  }

  lemma NothingReported(ar1: seq<string>, ar2: seq<string>, w: seq<string>, comp: Comp)
    requires Sound(ar1, ar2, w, comp, |ar1|, |ar2|, [], [])
    ensures Matching(ar1, ar2, comp)
  {
    hide Without;
    NothingListed(ar1, |ar1|);
    NothingListed(ar2, |ar2|);
    assert ar1[..|ar1|] == ar1 && ar2[..|ar2|] == ar2;
  }

  lemma Started(ar1: seq<string>, ar2: seq<string>, w: seq<string>, comp: Comp)
    ensures Sound(ar1, ar2, w, comp, 0, 0, [], [])
  {
  }

  lemma NoLines()
    ensures Minuses([]) == [] && Pluses([]) == []
  {
  }

  lemma SoundLines(ar1: seq<string>, ar2: seq<string>, w: seq<string>, comp: Comp, n1: nat, n2: nat,
      old1: seq<Line>, old2: seq<Line>)
    requires Sound(ar1, ar2, w, comp, n1, n2, old1, old2)
    ensures n1 <= |ar1| && n2 <= |ar2|
    ensures (forall l :: l in old1 ==> l.Minus?) && (forall l :: l in old2 ==> l.Plus?)
  {
  }

  lemma MatchingIs(ar1: seq<string>, ar2: seq<string>, comp: Comp)
    ensures Matching(ar1, ar2, comp) <==> |ar1| == |ar2| && forall k :: 0 <= k < |ar1| ==> comp(ar1[k], ar2[k])
  {
  }

  lemma {:induction false} AllSides(d: seq<Line>)
    ensures d == [] <==> Minuses(d) == [] && Pluses(d) == []
  {
    if d != [] {
      AllSides(d[..|d| - 1]);
    }
  }

  // ---------------------------------------------------------------- the report

  // A run of removed lines is carried on, else a run of added ones; else the lower number comes first, and of equal
  // ones the added line. The last numbers listed on either side are l1 and l2.
  predicate RemovedFirst(old1: seq<Line>, old2: seq<Line>, l1: int, l2: int)
  {
    && old1 != []
    && (old2 == [] || old1[0].number == l1 + 1 || (old2[0].number != l2 + 1 && old1[0].number < old2[0].number))
  }

  function Merged(old1: seq<Line>, old2: seq<Line>, l1: int, l2: int): seq<Line>
    decreases |old1| + |old2|
  {
    if RemovedFirst(old1, old2, l1, l2) then [old1[0]] + Merged(old1[1..], old2, old1[0].number, l2)
    else if old2 != [] then [old2[0]] + Merged(old1, old2[1..], l1, old2[0].number)
    else []
  }

  /** Every line of both sides is listed, in the order of its side. */
  lemma {:induction false} MergedSides(old1: seq<Line>, old2: seq<Line>, l1: int, l2: int)
    requires forall l :: l in old1 ==> l.Minus?
    requires forall l :: l in old2 ==> l.Plus?
    ensures Minuses(Merged(old1, old2, l1, l2)) == old1 && Pluses(Merged(old1, old2, l1, l2)) == old2
    decreases |old1| + |old2|
  {
    hide Minuses, Pluses;
    NoLines();
    if RemovedFirst(old1, old2, l1, l2) {
      MergedSides(old1[1..], old2, old1[0].number, l2);
      InFront(old1[0], Merged(old1[1..], old2, old1[0].number, l2));
    } else if old2 != [] {
      MergedSides(old1, old2[1..], l1, old2[0].number);
      InFront(old2[0], Merged(old1, old2[1..], l1, old2[0].number));
    }
  }

  lemma {:induction false} InFront(l: Line, d: seq<Line>)
    ensures Minuses([l] + d) == (if l.Minus? then [l] + Minuses(d) else Minuses(d))
    ensures Pluses([l] + d) == (if l.Plus? then [l] + Pluses(d) else Pluses(d))
  {
    hide *;
    if d == [] {
      NoLines();
      Pushed([], l);
      assert [l] + d == [] + [l] && [] + [l] == [l] + [];
    } else {
      var front, last := d[..|d| - 1], d[|d| - 1];
      InFront(l, front);
      Pushed([l] + front, last);
      Pushed(front, last);
      FrontAndLast(l, front, last);
      assert d == front + [last];
      FrontAndLast(l, Minuses(front), last);
      FrontAndLast(l, Pluses(front), last);
    }
  }

  lemma FrontAndLast(l: Line, front: seq<Line>, last: Line)
    ensures [l] + front + [last] == [l] + (front + [last])
  {}

  // Lines with consecutive numbers on one side stand together.
  ghost predicate Together(ls: seq<Line>, d: seq<Line>)
  {
    forall k :: 0 <= k < |ls| - 1 && ls[k + 1].number == ls[k].number + 1 ==> Beside(d, ls[k], ls[k + 1])
  }

  ghost predicate Beside(d: seq<Line>, a: Line, b: Line)
  {
    exists p :: 0 <= p < |d| - 1 && d[p] == a && d[p + 1] == b
  }

  lemma BesideOn(d: seq<Line>, l: Line, a: Line, b: Line)
    requires Beside(d, a, b)
    ensures Beside([l] + d, a, b)
  {
    var p :| 0 <= p < |d| - 1 && d[p] == a && d[p + 1] == b;
    assert ([l] + d)[p + 1] == a && ([l] + d)[p + 2] == b;
  }

  lemma TogetherOn(ls: seq<Line>, rest: seq<Line>, l: Line)
    requires ls != [] && Together(ls[1..], rest)
    requires |ls| > 1 && ls[1].number == ls[0].number + 1 ==> ls[0] == l && rest != [] && rest[0] == ls[1]
    ensures Together(ls, [l] + rest)
  {
    hide Beside;
    forall k | 0 <= k < |ls| - 1 && ls[k + 1].number == ls[k].number + 1 ensures Beside([l] + rest, ls[k], ls[k + 1]) {
      if k > 0 {
        assert ls[1..][k - 1] == ls[k] && ls[1..][k] == ls[k + 1];
        BesideOn(rest, l, ls[k], ls[k + 1]);
      } else {
        assert Beside([l] + rest, ls[0], ls[1]) by { BesideHead(l, rest, ls[1]); }
      }
    }
  }

  lemma BesideHead(a: Line, rest: seq<Line>, b: Line)
    requires rest != [] && rest[0] == b
    ensures Beside([a] + rest, a, b)
  {
    assert ([a] + rest)[0] == a && ([a] + rest)[1] == b;
  }

  lemma TogetherBehind(ls: seq<Line>, rest: seq<Line>, l: Line)
    requires Together(ls, rest)
    ensures Together(ls, [l] + rest)
  {
    hide Beside;
    forall k | 0 <= k < |ls| - 1 && ls[k + 1].number == ls[k].number + 1 ensures Beside([l] + rest, ls[k], ls[k + 1]) {
      BesideOn(rest, l, ls[k], ls[k + 1]);
    }
  }

  /** Consecutive lines of one side are listed one right behind the other. */
  lemma {:induction false} RunsTogether(old1: seq<Line>, old2: seq<Line>, l1: int, l2: int)
    requires old1 != [] && old2 != [] ==> old1[0].number != l1 + 1 || old2[0].number != l2 + 1
    ensures Together(old1, Merged(old1, old2, l1, l2)) && Together(old2, Merged(old1, old2, l1, l2))
    decreases |old1| + |old2|
  {
    hide Together;
    if RemovedFirst(old1, old2, l1, l2) {
      var n := old1[0].number;
      RunsTogether(old1[1..], old2, n, l2);
      MergedHead(old1[1..], old2, n, l2);
      TogetherOn(old1, Merged(old1[1..], old2, n, l2), old1[0]);
      TogetherBehind(old2, Merged(old1[1..], old2, n, l2), old1[0]);
    } else if old2 != [] {
      var n := old2[0].number;
      RunsTogether(old1, old2[1..], l1, n);
      MergedHead(old1, old2[1..], l1, n);
      TogetherOn(old2, Merged(old1, old2[1..], l1, n), old2[0]);
      TogetherBehind(old1, Merged(old1, old2[1..], l1, n), old2[0]);
    } else {
      NoneTogether();
    }
  }

  lemma NoneTogether()
    ensures Together([], [])
  {}

  // A run that can be carried on is.
  lemma MergedHead(old1: seq<Line>, old2: seq<Line>, l1: int, l2: int)
    ensures old1 != [] && old1[0].number == l1 + 1 ==>
      Merged(old1, old2, l1, l2) != [] && Merged(old1, old2, l1, l2)[0] == old1[0]
    ensures old2 != [] && old2[0].number == l2 + 1 && (old1 == [] || old1[0].number != l1 + 1) ==>
      Merged(old1, old2, l1, l2) != [] && Merged(old1, old2, l1, l2)[0] == old2[0]
  {}

  lemma MergedFirst(old1: seq<Line>, old2: seq<Line>, i: nat, j: nat, l1: int, l2: int)
    requires i <= |old1| && j <= |old2| && (i < |old1| || j < |old2|)
    ensures var m := Merged(old1[i..], old2[j..], l1, l2);
      m != [] &&
      if i < |old1| &&
        (j == |old2| || old1[i].number == l1 + 1 || (old2[j].number != l2 + 1 && old1[i].number < old2[j].number))
      then m[0] == old1[i] && m[1..] == Merged(old1[i + 1..], old2[j..], old1[i].number, l2)
      else m[0] == old2[j] && m[1..] == Merged(old1[i..], old2[j + 1..], l1, old2[j].number)
  {
    assert i < |old1| ==> old1[i..][1..] == old1[i + 1..];
    assert j < |old2| ==> old2[j..][1..] == old2[j + 1..];
  }

  // The second loop of generate_array_diff. A key is compared only with the key before it and with a key of the other
  // list, so it does not matter from where the keys count.
  method Merge(old1: seq<Line>, old2: seq<Line>) returns (diff: seq<Line>)
    requires forall l :: l in old1 ==> l.Minus?
    requires forall l :: l in old2 ==> l.Plus?
    ensures diff == Merged(old1, old2, -2, -2)
    ensures Minuses(diff) == old1 && Pluses(diff) == old2
  {
    hide *;
    ghost var merged := Merged(old1, old2, -2, -2);
    diff := [];
    var at1, at2 := 0, 0;
    var l1: int, l2: int := -2, -2;
    MergeBegins(old1, old2);
    while at1 < |old1| || at2 < |old2|
      invariant at1 <= |old1| && at2 <= |old2|
      invariant Continues(merged, diff, Merged(old1[at1..], old2[at2..], l1, l2))
      decreases |old1| - at1 + |old2| - at2
    {
      MergedFirst(old1, old2, at1, at2, l1, l2);
      ContinuesOn(merged, diff, Merged(old1[at1..], old2[at2..], l1, l2));
      if (at1 < |old1| && old1[at1].number == l1 + 1) || at2 == |old2| {
        l1, diff, at1 := old1[at1].number, diff + [old1[at1]], at1 + 1;
      } else if old2[at2].number == l2 + 1 || at1 == |old1| {
        l2, diff, at2 := old2[at2].number, diff + [old2[at2]], at2 + 1;
      } else if old1[at1].number < old2[at2].number {
        l1, diff, at1 := old1[at1].number, diff + [old1[at1]], at1 + 1;
      } else {
        l2, diff, at2 := old2[at2].number, diff + [old2[at2]], at2 + 1;
      }
    }
    MergeEnds(merged, diff, old1, old2, l1, l2);
    MergedSides(old1, old2, -2, -2);
  }

  ghost predicate Continues(whole: seq<Line>, d: seq<Line>, rest: seq<Line>)
  {
    whole == d + rest
  }

  lemma ContinuesIs(whole: seq<Line>, d: seq<Line>, rest: seq<Line>)
    ensures Continues(whole, d, rest) <==> whole == d + rest
    ensures Continues(whole, d, []) ==> whole == d
  {
    assert d + [] == d;
  }

  lemma ContinuesOn(whole: seq<Line>, d: seq<Line>, rest: seq<Line>)
    requires Continues(whole, d, rest) && rest != []
    ensures Continues(whole, d + [rest[0]], rest[1..])
  {
    assert rest == [rest[0]] + rest[1..];
  }

  lemma MergeBegins(old1: seq<Line>, old2: seq<Line>)
    ensures Continues(Merged(old1, old2, -2, -2), [], Merged(old1[0..], old2[0..], -2, -2))
  {
    assert old1[0..] == old1 && old2[0..] == old2;
    hide Merged;
  }

  lemma MergeEnds(whole: seq<Line>, d: seq<Line>, old1: seq<Line>, old2: seq<Line>, l1: int, l2: int)
    requires Continues(whole, d, Merged(old1[|old1|..], old2[|old2|..], l1, l2))
    ensures whole == d
  {
    MergedEmpty(l1, l2);
    assert old1[|old1|..] == [] && old2[|old2|..] == [];
    hide Merged;
  }

  // The lines that the comparison lists from i and j on, and where it ends.
  datatype Outcome = Outcome(removed: seq<Line>, added: seq<Line>, end1: nat, end2: nat)

  function Compared(ar1: seq<string>, ar2: seq<string>, w: seq<string>, comp: Comp, i: nat, j: nat): (o: Outcome)
    requires i <= |ar1| && j <= |ar2|
    ensures o.end1 <= |ar1| && o.end2 <= |ar2|
    decreases |ar1| - i + |ar2| - j
  {
    if i == |ar1| || j == |ar2| then Outcome([], [], i, j)
    else if comp(ar1[i], ar2[j]) then Compared(ar1, ar2, w, comp, i + 1, j + 1)
    else
      var c1, c2 := Score(ar1, ar2, comp, i + 1, j, 10.0), Score(ar1, ar2, comp, i, j + 1, 10.0);
      var m, p := Minus(i + 1, LineAt(w, i)), Plus(j + 1, ar2[j]);
      if c1 > c2 then
        var o := Compared(ar1, ar2, w, comp, i + 1, j);
        o.(removed := [m] + o.removed)
      else if c2 > 0 then
        var o := Compared(ar1, ar2, w, comp, i, j + 1);
        o.(added := [p] + o.added)
      else
        var o := Compared(ar1, ar2, w, comp, i + 1, j + 1);
        o.(removed := [m] + o.removed, added := [p] + o.added)
  }

  // The lines left when one text has come to its end.
  function LeftOver(ar1: seq<string>, ar2: seq<string>, w: seq<string>, i: nat, j: nat): seq<Line>
    requires i <= |ar1| && j <= |ar2|
  {
    seq(|ar1| - i, k requires 0 <= k < |ar1| - i => Minus(i + k + 1, LineAt(w, i + k)))
      + seq(|ar2| - j, k requires 0 <= k < |ar2| - j => Plus(j + k + 1, ar2[j + k]))
  }

  function Report(ar1: seq<string>, ar2: seq<string>, w: seq<string>, comp: Comp): seq<Line>
  {
    var o := Compared(ar1, ar2, w, comp, 0, 0);
    Merged(o.removed, o.added, -2, -2) + LeftOver(ar1, ar2, w, o.end1, o.end2)
  }

  // What is left of the outcome after the lines listed so far.
  ghost predicate Ahead(o: Outcome, old1: seq<Line>, old2: seq<Line>, rest: Outcome)
  {
    o == Outcome(old1 + rest.removed, old2 + rest.added, rest.end1, rest.end2)
  }

  lemma AheadIs(o: Outcome, old1: seq<Line>, old2: seq<Line>, rest: Outcome, next: Outcome)
    requires Ahead(o, old1, old2, rest)
    ensures forall m, p ::
      && (rest == next.(removed := [m] + next.removed) ==> Ahead(o, old1 + [m], old2, next))
      && (rest == next.(added := [p] + next.added) ==> Ahead(o, old1, old2 + [p], next))
      && (rest == next.(removed := [m] + next.removed, added := [p] + next.added) ==>
            Ahead(o, old1 + [m], old2 + [p], next))
  {
    forall m: Line ensures old1 + ([m] + next.removed) == old1 + [m] + next.removed {}
    forall p: Line ensures old2 + ([p] + next.added) == old2 + [p] + next.added {}
  }

  lemma ComparedIs(ar1: seq<string>, ar2: seq<string>, w: seq<string>, comp: Comp, i: nat, j: nat)
    requires i < |ar1| && j < |ar2|
    ensures var o := Compared(ar1, ar2, w, comp, i, j);
      var c1, c2 := Score(ar1, ar2, comp, i + 1, j, 10.0), Score(ar1, ar2, comp, i, j + 1, 10.0);
      var m, p := Minus(i + 1, LineAt(w, i)), Plus(j + 1, ar2[j]);
      var o1, o2 := Compared(ar1, ar2, w, comp, i + 1, j), Compared(ar1, ar2, w, comp, i, j + 1);
      var o12 := Compared(ar1, ar2, w, comp, i + 1, j + 1);
      o == if comp(ar1[i], ar2[j]) then o12
        else if c1 > c2 then o1.(removed := [m] + o1.removed)
        else if c2 > 0 then o2.(added := [p] + o2.added)
        else o12.(removed := [m] + o12.removed, added := [p] + o12.added)
  {
    hide Score, LineAt;
  }

  /** generate_array_diff: whatever the scores are, what it reports is sound. */
  method GenerateDiff(ar1: seq<string>, ar2: seq<string>, w: seq<string>, comp: Comp) returns (diff: seq<Line>)
    ensures diff == Report(ar1, ar2, w, comp)
    ensures Sound(ar1, ar2, w, comp, |ar1|, |ar2|, Minuses(diff), Pluses(diff))
    ensures diff == [] <==> Matching(ar1, ar2, comp)
  {
    hide *;
    MatchingIs(ar1, ar2, comp);
    Started(ar1, ar2, w, comp);
    ghost var same := Matching(ar1, ar2, comp);
    ghost var o := Compared(ar1, ar2, w, comp, 0, 0);
    var idx1, idx2 := 0, 0;
    var old1: seq<Line>, old2: seq<Line> := [], [];
    AheadFirst(o);
    while idx1 < |ar1| && idx2 < |ar2|
      invariant idx1 <= |ar1| && idx2 <= |ar2|
      invariant Sound(ar1, ar2, w, comp, idx1, idx2, old1, old2)
      invariant Ahead(o, old1, old2, Compared(ar1, ar2, w, comp, idx1, idx2))
      invariant same ==> idx1 == idx2 && old1 == old2 == []
      decreases |ar1| - idx1 + |ar2| - idx2
    {
      ComparedIs(ar1, ar2, w, comp, idx1, idx2);
      ghost var rest := Compared(ar1, ar2, w, comp, idx1, idx2);
      if comp(ar1[idx1], ar2[idx2]) {
        Matched(ar1, ar2, w, comp, idx1, idx2, old1, old2);
        idx1, idx2 := idx1 + 1, idx2 + 1;
        continue;
      }
      var c1 := CountDiff(ar1, ar2, comp, idx1 + 1, idx2, 10.0);
      var c2 := CountDiff(ar1, ar2, comp, idx1, idx2 + 1, 10.0);
      Removed(ar1, ar2, w, comp, idx1, idx2, old1, old2);
      Added(ar1, ar2, w, comp, idx1, idx2, old1, old2);
      if c1 > c2 {
        AheadIs(o, old1, old2, rest, Compared(ar1, ar2, w, comp, idx1 + 1, idx2));
        old1, idx1 := old1 + [Minus(idx1 + 1, LineAt(w, idx1))], idx1 + 1;
      } else if c2 > 0 {
        AheadIs(o, old1, old2, rest, Compared(ar1, ar2, w, comp, idx1, idx2 + 1));
        old2, idx2 := old2 + [Plus(idx2 + 1, ar2[idx2])], idx2 + 1;
      } else {
        AheadIs(o, old1, old2, rest, Compared(ar1, ar2, w, comp, idx1 + 1, idx2 + 1));
        old1, idx1 := old1 + [Minus(idx1 + 1, LineAt(w, idx1))], idx1 + 1;
        Added(ar1, ar2, w, comp, idx1, idx2, old1, old2);
        old2, idx2 := old2 + [Plus(idx2 + 1, ar2[idx2])], idx2 + 1;
      }
    }
    AheadLast(ar1, ar2, w, comp, o, old1, old2, idx1, idx2);
    SoundLines(ar1, ar2, w, comp, idx1, idx2, old1, old2);
    diff := Merge(old1, old2);
    AllSides(diff);
    LeftOverNone(ar1, ar2, w);
    ReportIs(ar1, ar2, w, comp);
    ghost var report := Report(ar1, ar2, w, comp);
    ContinuesIs(report, diff, LeftOver(ar1, ar2, w, idx1, idx2));
    while idx1 < |ar1|
      invariant idx1 <= |ar1| && idx2 <= |ar2|
      invariant Sound(ar1, ar2, w, comp, idx1, idx2, Minuses(diff), Pluses(diff))
      invariant Continues(report, diff, LeftOver(ar1, ar2, w, idx1, idx2))
      invariant same ==> idx1 == idx2 == |ar1| && diff == []
    {
      Removed(ar1, ar2, w, comp, idx1, idx2, Minuses(diff), Pluses(diff));
      Pushed(diff, Minus(idx1 + 1, LineAt(w, idx1)));
      LeftOverNext(ar1, ar2, w, idx1, idx2);
      ContinuesOn(report, diff, LeftOver(ar1, ar2, w, idx1, idx2));
      diff, idx1 := diff + [Minus(idx1 + 1, LineAt(w, idx1))], idx1 + 1;
    }
    while idx2 < |ar2|
      invariant idx1 == |ar1| && idx2 <= |ar2| && (same ==> idx2 == |ar2| && diff == [])
      invariant Sound(ar1, ar2, w, comp, idx1, idx2, Minuses(diff), Pluses(diff))
      invariant Continues(report, diff, LeftOver(ar1, ar2, w, idx1, idx2))
    {
      Added(ar1, ar2, w, comp, idx1, idx2, Minuses(diff), Pluses(diff));
      Pushed(diff, Plus(idx2 + 1, ar2[idx2]));
      LeftOverNext(ar1, ar2, w, idx1, idx2);
      ContinuesOn(report, diff, LeftOver(ar1, ar2, w, idx1, idx2));
      diff, idx2 := diff + [Plus(idx2 + 1, ar2[idx2])], idx2 + 1;
    }
    ContinuesIs(report, diff, LeftOver(ar1, ar2, w, idx1, idx2));
    NoLines();
    if diff == [] { NothingReported(ar1, ar2, w, comp); }
  }

  lemma AheadFirst(o: Outcome)
    ensures Ahead(o, [], [], o)
  {
    assert [] + o.removed == o.removed && [] + o.added == o.added;
  }

  lemma AheadLast(ar1: seq<string>, ar2: seq<string>, w: seq<string>, comp: Comp, o: Outcome, old1: seq<Line>,
                  old2: seq<Line>, i: nat, j: nat)
    requires i <= |ar1| && j <= |ar2| && (i == |ar1| || j == |ar2|)
    requires Ahead(o, old1, old2, Compared(ar1, ar2, w, comp, i, j))
    ensures o == Outcome(old1, old2, i, j)
  {
    hide Score;
    assert old1 + [] == old1 && old2 + [] == old2;
  }

  lemma ReportIs(ar1: seq<string>, ar2: seq<string>, w: seq<string>, comp: Comp)
    ensures var o := Compared(ar1, ar2, w, comp, 0, 0);
      Report(ar1, ar2, w, comp) == Merged(o.removed, o.added, -2, -2) + LeftOver(ar1, ar2, w, o.end1, o.end2)
  {
    hide Compared, Merged, LeftOver;
  }

  lemma LeftOverNone(ar1: seq<string>, ar2: seq<string>, w: seq<string>)
    ensures LeftOver(ar1, ar2, w, |ar1|, |ar2|) == []
  {}

  lemma LeftOverNext(ar1: seq<string>, ar2: seq<string>, w: seq<string>, i: nat, j: nat)
    requires i <= |ar1| && j <= |ar2| && (i < |ar1| || j < |ar2|)
    ensures var rest := LeftOver(ar1, ar2, w, i, j);
      rest != [] && if i < |ar1|
        then rest[0] == Minus(i + 1, LineAt(w, i)) && rest[1..] == LeftOver(ar1, ar2, w, i + 1, j)
        else rest[0] == Plus(j + 1, ar2[j]) && rest[1..] == LeftOver(ar1, ar2, w, i, j + 1)
  {
    hide LineAt;
  }

  // ---------------------------------------------------------------- one line more or less

  // From i and j on the texts match to their ends.
  lemma {:induction false} MatchingTail(ar1: seq<string>, ar2: seq<string>, w: seq<string>, comp: Comp, i: nat, j: nat)
    requires i <= |ar1| && j <= |ar2| && |ar1| - i == |ar2| - j
    requires forall p :: i <= p < |ar1| ==> comp(ar1[p], ar2[p - i + j])
    ensures Equal(ar1, ar2, comp, i, j) == |ar1| - i
    ensures Compared(ar1, ar2, w, comp, i, j) == Outcome([], [], |ar1|, |ar2|)
    decreases |ar1| - i
  {
    hide Score;
    if i < |ar1| {
      assert comp(ar1[i], ar2[i - i + j]);
      MatchingTail(ar1, ar2, w, comp, i + 1, j + 1);
    }
  }

  lemma {:induction false} MatchingFront(ar1: seq<string>, ar2: seq<string>, w: seq<string>, comp: Comp, i: nat, n: nat)
    requires i <= n <= |ar1| && n <= |ar2| && forall k :: 0 <= k < n ==> comp(ar1[k], ar2[k])
    ensures Compared(ar1, ar2, w, comp, i, i) == Compared(ar1, ar2, w, comp, n, n)
    decreases n - i
  {
    hide Score;
    if i < n { MatchingFront(ar1, ar2, w, comp, i + 1, n); }
  }

  /** A line more in the output is reported as that line alone. */
  lemma OneAdded(x: seq<string>, a: string, y: seq<string>, w: seq<string>, comp: Comp)
    requires (forall k :: 0 <= k < |x| ==> comp(x[k], x[k])) && (forall k :: 0 <= k < |y| ==> comp(y[k], y[k]))
    requires y != [] ==> !comp(y[0], a)
    ensures Report(x + y, x + [a] + y, w, comp) == [Plus(|x| + 1, a)]
  {
    var ar1, ar2, n := x + y, x + [a] + y, |x|;
    hide Score, Merged, Compared, LeftOver;
    MatchingFront(ar1, ar2, w, comp, 0, n);
    MatchingTail(ar1, ar2, w, comp, n, n + 1);
    ReportIs(ar1, ar2, w, comp);
    LeftOverNone(ar1, ar2, w);
    if y == [] {
      ComparedEnd(ar1, ar2, w, comp, n, n);
      LeftOverNext(ar1, ar2, w, n, n);
      MergedNone();
      assert |ar1| == n && |ar2| == n + 1 && ar2[n] == a;
      assert [] + ([Plus(n + 1, a)] + []) == [Plus(n + 1, a)];
    } else {
      ComparedIs(ar1, ar2, w, comp, n, n);
      ScoreIsChain(ar1, ar2, comp, n + 1, n, 10.0);
      ScoreIsChain(ar1, ar2, comp, n, n + 1, 10.0);
      MergedOne(Plus(n + 1, a));
      assert ar1[n] == y[0] && ar2[n] == a && [Plus(n + 1, a)] + [] == [Plus(n + 1, a)];
    }
  }

  /** A line missing in the output is reported as that line alone. */
  lemma OneRemoved(x: seq<string>, a: string, y: seq<string>, w: seq<string>, comp: Comp)
    requires (forall k :: 0 <= k < |x| ==> comp(x[k], x[k])) && (forall k :: 0 <= k < |y| ==> comp(y[k], y[k]))
    requires y != [] ==> !comp(a, y[0])
    ensures Report(x + [a] + y, x + y, w, comp) == [Minus(|x| + 1, LineAt(w, |x|))]
  {
    var ar1, ar2, n := x + [a] + y, x + y, |x|;
    hide Score, Merged, Compared, LeftOver, LineAt;
    MatchingFront(ar1, ar2, w, comp, 0, n);
    MatchingTail(ar1, ar2, w, comp, n + 1, n);
    ReportIs(ar1, ar2, w, comp);
    LeftOverNone(ar1, ar2, w);
    if y == [] {
      ComparedEnd(ar1, ar2, w, comp, n, n);
      LeftOverNext(ar1, ar2, w, n, n);
      MergedNone();
      assert |ar1| == n + 1 && |ar2| == n;
      assert [] + ([Minus(n + 1, LineAt(w, n))] + []) == [Minus(n + 1, LineAt(w, n))];
    } else {
      ComparedIs(ar1, ar2, w, comp, n, n);
      ScoreIsChain(ar1, ar2, comp, n + 1, n, 10.0);
      ScoreIsChain(ar1, ar2, comp, n, n + 1, 10.0);
      MergedOne(Minus(n + 1, LineAt(w, n)));
      assert ar1[n] == a && ar2[n] == y[0] && [Minus(n + 1, LineAt(w, n))] + [] == [Minus(n + 1, LineAt(w, n))];
    }
  }

  lemma ComparedEnd(ar1: seq<string>, ar2: seq<string>, w: seq<string>, comp: Comp, i: nat, j: nat)
    requires i <= |ar1| && j <= |ar2| && (i == |ar1| || j == |ar2|)
    ensures Compared(ar1, ar2, w, comp, i, j) == Outcome([], [], i, j)
  {
    hide Score;
  }

  lemma MergedNone()
    ensures Merged([], [], -2, -2) == []
  {}

  lemma MergedOne(l: Line)
    ensures Merged([l], [], -2, -2) == Merged([], [l], -2, -2) == [l]
  {
    MergedEmpty(l.number, -2);
    MergedEmpty(-2, l.number);
    assert [l][1..] == [];
  }

  lemma MergedEmpty(l1: int, l2: int)
    ensures Merged([], [], l1, l2) == []
  {}

  // ---------------------------------------------------------------- applying a difference

  // The first n lines of the output, from the wanted lines that were kept and the lines that were added.
  function Woven(kept: seq<string>, added: seq<Line>, n: nat): seq<string>
  {
    if n == 0 then []
    else if added != [] && added[|added| - 1].number == n then
      Woven(kept, added[..|added| - 1], n - 1) + [added[|added| - 1].text]
    else if kept != [] then Woven(kept[..|kept| - 1], added, n - 1) + [kept[|kept| - 1]]
    else Woven(kept, added, n - 1)
  }

  lemma {:induction false} WovenBack(ar: seq<string>, n: nat, added: seq<Line>)
    requires n <= |ar| && Ascending(added, n)
    requires forall l :: l in added ==> l.text == LineAt(ar, l.number - 1)
    ensures Woven(Without(ar, n, added), added, n) == ar[..n]
  {
    if n > 0 {
      assert ar[..n] == ar[..n - 1] + [ar[n - 1]];
      if added != [] && added[|added| - 1].number == n {
        assert added[|added| - 1] in added;
        WovenBack(ar, n - 1, added[..|added| - 1]);
      } else {
        var kept := Without(ar, n - 1, added);
        assert (kept + [ar[n - 1]])[..|kept|] == kept;
        WovenBack(ar, n - 1, added);
      }
    }
  }

  /** When lines are compared as they are, deleting what the difference removes from the wanted text and putting in what
      it adds gives the output. */
  lemma AppliedGivesOutput(ar1: seq<string>, ar2: seq<string>, w: seq<string>, comp: Comp, diff: seq<Line>)
    requires Sound(ar1, ar2, w, comp, |ar1|, |ar2|, Minuses(diff), Pluses(diff))
    requires forall a, b :: comp(a, b) <==> a == b
    ensures Woven(Without(ar1, |ar1|, Minuses(diff)), Pluses(diff), |ar2|) == ar2
  {
    hide Without, Minuses, Pluses, Woven;
    var kept1, kept2 := Without(ar1, |ar1|, Minuses(diff)), Without(ar2, |ar2|, Pluses(diff));
    assert kept1 == kept2;
    WovenBack(ar2, |ar2|, Pluses(diff));
    assert ar2[..|ar2|] == ar2;
  }
}
