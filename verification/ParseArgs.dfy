/** Handing the arguments of a call out to the entries of a specification string. */
module ParseArgs {
  // A parameter letter with its modifiers, the start of the optional parameters, or the place of the variable
  // arguments.
  datatype Item = Param(letter: char, mods: string) | Bar | Rest(plus: bool)

  // What an argument went to: one parameter, or a stretch of variable arguments (none: count 0).
  datatype Binding = One(index: nat, letter: char, mods: string) | Many(start: nat, count: nat)

  datatype Outcome =
    | Parsed(bound: seq<Binding>)
    | BadSpec
    | WrongCount
    | NotPassed
    | Rejected(at: nat)

  const LETTERS := "ldsbraoOzZChfAHpSPL"

  predicate Letter(c: char) { c in LETTERS }

  predicate Modifier(c: char) { c == '/' || c == '!' }

  predicate Marker(c: char) { c == '*' || c == '+' }

  predicate Legal(c: char) { Letter(c) || Modifier(c) || Marker(c) || c == '|' }

  lemma Kinds()
    ensures forall c :: Letter(c) ==> !Modifier(c) && !Marker(c) && c != '|'
  {
  }

  // How many parameters the text has, how many markers, and how many of those are a plus.
  function Letters(t: string): nat { if t == "" then 0 else Letters(t[1..]) + if Letter(t[0]) then 1 else 0 }

  function Markers(t: string): nat { if t == "" then 0 else Markers(t[1..]) + if Marker(t[0]) then 1 else 0 }

  function Pluses(t: string): nat { if t == "" then 0 else Pluses(t[1..]) + if t[0] == '+' then 1 else 0 }

  lemma NoCounts()
    ensures Letters("") == Markers("") == Pluses("") == 0
  {
  }

  lemma {:induction false} CountsAdd(s: string, t: string)
    ensures Letters(s + t) == Letters(s) + Letters(t)
    ensures Markers(s + t) == Markers(s) + Markers(t)
    ensures Pluses(s + t) == Pluses(s) + Pluses(t)
  {
    if s == "" {
      assert s + t == t;
    } else {
      CountsAdd(s[1..], t);
      assert (s + t)[1..] == s[1..] + t;
    }
  }

  lemma CountsStep(t: string, k: nat)
    requires k < |t|
    ensures Letters(t[..k + 1]) == Letters(t[..k]) + if Letter(t[k]) then 1 else 0
    ensures Markers(t[..k + 1]) == Markers(t[..k]) + if Marker(t[k]) then 1 else 0
    ensures Pluses(t[..k + 1]) == Pluses(t[..k]) + if t[k] == '+' then 1 else 0
  {
    CountsAdd(t[..k], [t[k]]);
    assert t[..k + 1] == t[..k] + [t[k]];
  }

  lemma CountsSplit(t: string, k: nat)
    requires k <= |t|
    ensures Letters(t) == Letters(t[..k]) + Letters(t[k..])
    ensures Markers(t) == Markers(t[..k]) + Markers(t[k..])
    ensures Pluses(t) == Pluses(t[..k]) + Pluses(t[k..])
  {
    hide *;
    assert t[..k] + t[k..] == t;
    CountsAdd(t[..k], t[k..]);
  }

  // The fewest arguments, the most (none when there is a marker), and the parameters behind the marker.
  datatype Counts = Counts(min: nat, max: nat, post: nat, marked: bool)

  // q is where the required parameters end.
  predicate LastBar(t: string, q: nat)
  {
    && q <= |t|
    && (q < |t| ==> t[q] == '|')
    && (forall j :: q < j < |t| ==> t[j] != '|')
    && (q == |t| ==> forall j :: 0 <= j < |t| ==> t[j] != '|')
  }

  function BarAt(t: string): (q: nat)
    ensures LastBar(t, q)
  {
    if t == "" then 0
    else
      var q := BarAt(t[1..]);
      assert forall j :: 1 <= j < |t| ==> t[j] == t[1..][j - 1];
      if q < |t| - 1 then q + 1 else if t[0] == '|' then 0 else |t|
  }

  function MarkAt(t: string): (m: nat)
    ensures m <= |t| && (forall j :: 0 <= j < m ==> !Marker(t[j])) && (m < |t| ==> Marker(t[m]))
  {
    if t == "" || Marker(t[0]) then 0
    else
      assert forall j :: 1 <= j < |t| ==> t[j] == t[1..][j - 1];
      MarkAt(t[1..]) + 1
  }

  lemma BarUnique(t: string, q: nat)
    requires LastBar(t, q)
    ensures BarAt(t) == q
  {
  }

  lemma MarkUnique(t: string, m: nat)
    requires m <= |t| && (forall j :: 0 <= j < m ==> !Marker(t[j])) && (m < |t| ==> Marker(t[m]))
    ensures MarkAt(t) == m
  {
  }

  lemma {:induction false} MarkedIff(t: string)
    ensures Markers(t) == 0 <==> forall j :: 0 <= j < |t| ==> !Marker(t[j])
  {
    if t != "" {
      MarkedIff(t[1..]);
      assert forall j :: 1 <= j < |t| ==> t[j] == t[1..][j - 1];
      assert forall j :: 0 <= j < |t| - 1 ==> t[1..][j] == t[j + 1];
    }
  }

  predicate WellMade(t: string)
  {
    (forall j :: 0 <= j < |t| ==> Legal(t[j])) && Markers(t) <= 1
  }

  function Needs(t: string): Counts
  {
    var q, m := BarAt(t), MarkAt(t);
    Counts(Letters(t[..q]) + Pluses(t[..q]), Letters(t) + Pluses(t),
      if m < |t| then Letters(t[m + 1..]) else 0, m < |t|)
  }

  // The first pass of zend_parse_va_args.
  method CountArgs(spec: string) returns (ok: bool, counts: Counts)
    ensures ok <==> WellMade(spec)
    ensures ok ==> counts == Needs(spec)
  {
    hide Letters, Markers, Pluses, Letter, BarAt, MarkAt;
    Kinds();
    assert spec[..0] == "" && Letters("") == Markers("") == Pluses("") == 0 by { NoCounts(); }
    counts := Counts(0, 0, 0, false);
    var min: int, max: nat, post: nat, marked := -1, 0, 0, false;
    ghost var q, m := 0, 0;
    var k := 0;
    while k < |spec|
      invariant k <= |spec|
      invariant forall j :: 0 <= j < k ==> Legal(spec[j])
      invariant max == Letters(spec[..k]) + Pluses(spec[..k])
      invariant Markers(spec[..k]) == if marked then 1 else 0
      invariant min < 0 ==> q == 0 && forall j :: 0 <= j < k ==> spec[j] != '|'
      invariant min >= 0 ==> q < k && spec[q] == '|' && forall j :: q < j < k ==> spec[j] != '|'
      invariant min >= 0 ==> min == Letters(spec[..q]) + Pluses(spec[..q])
      invariant !marked ==> post == 0
      invariant marked ==> m < k && Marker(spec[m]) && post == Letters(spec[..m + 1]) + Pluses(spec[..m + 1])
      invariant forall j :: 0 <= j < (if marked then m else k) ==> !Marker(spec[j])
      invariant marked ==> Pluses(spec[..k]) == Pluses(spec[..m + 1])
    {
      var c := spec[k];
      CountsStep(spec, k);
      CountsSplit(spec, k + 1);
      if Letter(c) {
        max := max + 1;
      } else if c == '|' {
        min, q := max, k;
      } else if Modifier(c) {
      } else if Marker(c) {
        if marked { return false, counts; }
        marked := true;
        if c == '+' { max := max + 1; }
        post, m := max, k;
      } else {
        return false, counts;
      }
      k := k + 1;
    }
    assert spec[..k] == spec;
    if min < 0 {
      min, q := max, k;
    }
    BarUnique(spec, q);
    MarkUnique(spec, if marked then m else k);
    if marked {
      CountsSplit(spec, m + 1);
      post := max - post;
    }
    return true, Counts(min, max, post, marked);
  }

  // ---------------------------------------------------------------- what goes where

  function UpTo(n: nat): seq<nat> { seq(n, i => i) }

  // The argument numbers a list of bindings consumes, in order.
  function Indices(b: seq<Binding>): seq<nat>
  {
    if b == [] then []
    else Indices(b[..|b| - 1]) + match b[|b| - 1]
      case One(i, _, _) => [i]
      case Many(start, count) => seq(count, j => start + j)
  }

  lemma IndicesPush(b: seq<Binding>, x: Binding, i: nat)
    requires Indices(b) == UpTo(i)
    requires x.One? ==> x.index == i
    requires x.Many? && x.count > 0 ==> x.start == i
    ensures Indices(b + [x]) == UpTo(i + if x.One? then 1 else x.count)
  {
    assert (b + [x])[..|b|] == b;
  }

  type Check = (nat, char, string) -> bool

  predicate Accepted(accepts: Check, b: Binding)
  {
    b.One? ==> b.letter != 'Z' && accepts(b.index, b.letter, b.mods)
  }

  function SkipModifiers(spec: string, p: nat): (q: nat)
    requires p <= |spec|
    ensures p <= q <= |spec| && (forall j :: p <= j < q ==> Modifier(spec[j])) && (q < |spec| ==> !Modifier(spec[q]))
    decreases |spec| - p
  {
    if p < |spec| && Modifier(spec[p]) then SkipModifiers(spec, p + 1) else p
  }

  lemma {:induction false} NothingSkipped(spec: string, p: nat)
    requires p <= |spec|
    ensures Letters(spec[SkipModifiers(spec, p)..]) == Letters(spec[p..])
    ensures Markers(spec[SkipModifiers(spec, p)..]) == Markers(spec[p..])
    decreases |spec| - p
  {
    if p < |spec| && Modifier(spec[p]) {
      NothingSkipped(spec, p + 1);
      assert spec[p..][1..] == spec[p + 1..] && spec[p..][0] == spec[p];
      Kinds();
    }
  }

  lemma Ahead(spec: string, p: nat)
    requires p < |spec|
    ensures Letters(spec[p..]) == Letters(spec[p + 1..]) + if Letter(spec[p]) then 1 else 0
    ensures Markers(spec[p..]) == Markers(spec[p + 1..]) + if Marker(spec[p]) then 1 else 0
  {
    assert spec[p..][1..] == spec[p + 1..] && spec[p..][0] == spec[p];
  }

  lemma OnlyMark(spec: string, p: nat)
    requires p < |spec| && Markers(spec) <= 1 && Marker(spec[p])
    ensures MarkAt(spec) == p && Markers(spec[p + 1..]) == 0
  {
    hide MarkAt, Markers, Marker;
    CountsSplit(spec, p);
    Ahead(spec, p);
    MarkedIff(spec[..p]);
    MarkUnique(spec, p);
  }

  lemma {:induction false} PlusesAreMarkers(t: string)
    ensures Pluses(t) <= Markers(t)
  {
    if t != "" { PlusesAreMarkers(t[1..]); }
  }

  // zend_parse_arg: reads a letter and its modifiers; the argument's own check is outside the model.
  method ParseArg(i: nat, spec: string, p: nat, accepts: Check) returns (ok: bool, q: nat)
    requires p < |spec|
    ensures p < q <= |spec| && q == SkipModifiers(spec, p + 1)
    ensures ok <==> Letter(spec[p]) && spec[p] != 'Z' && accepts(i, spec[p], spec[p + 1..q])
  {
    q := p + 1;
    while q < |spec| && Modifier(spec[q])
      invariant p < q <= |spec|
      invariant SkipModifiers(spec, q) == SkipModifiers(spec, p + 1)
    {
      q := q + 1;
    }
    ok := Letter(spec[p]) && spec[p] != 'Z' && accepts(i, spec[p], spec[p + 1..q]);
  }

  // ---------------------------------------------------------------- specifications as lists

  function ItemText(it: Item): string
  {
    match it
    case Param(c, mods) => [c] + mods
    case Bar => "|"
    case Rest(plus) => if plus then "+" else "*"
  }

  function Text(items: seq<Item>): string
  {
    if items == [] then "" else ItemText(items[0]) + Text(items[1..])
  }

  predicate GoodItem(it: Item)
  {
    it.Param? ==> Letter(it.letter) && it.letter != 'Z' && forall j :: 0 <= j < |it.mods| ==> Modifier(it.mods[j])
  }

  function Params(items: seq<Item>): (r: seq<Item>)
    ensures |r| <= |items| && forall it :: it in r ==> it.Param? && it in items
  {
    if items == [] then [] else (if items[0].Param? then [items[0]] else []) + Params(items[1..])
  }

  function Bars(items: seq<Item>): nat { if items == [] then 0 else Bars(items[1..]) + if items[0].Bar? then 1 else 0 }

  function Rests(items: seq<Item>): nat
  {
    if items == [] then 0 else Rests(items[1..]) + if items[0].Rest? then 1 else 0
  }

  // Well formed: letters with their modifiers, at most one bar and at most one marker.
  predicate WellFormed(items: seq<Item>)
  {
    (forall it :: it in items ==> GoodItem(it)) && Bars(items) <= 1 && Rests(items) <= 1
  }

  function RestAt(items: seq<Item>): (k: nat)
    ensures k <= |items| && (k < |items| ==> items[k].Rest?) && forall j :: 0 <= j < k ==> !items[j].Rest?
  {
    if items == [] || items[0].Rest? then 0 else RestAt(items[1..]) + 1
  }

  function Prefix(items: seq<Item>): (ps: seq<Item>)
    ensures forall it :: it in ps ==> it.Param?
  {
    Params(items[..RestAt(items)])
  }

  function Suffix(items: seq<Item>): (ps: seq<Item>)
    ensures forall it :: it in ps ==> it.Param?
  {
    if RestAt(items) < |items| then Params(items[RestAt(items) + 1..]) else []
  }

  function Ones(ps: seq<Item>, first: nat): seq<Binding>
    requires forall it :: it in ps ==> it.Param?
  {
    seq(|ps|, j requires 0 <= j < |ps| => assert ps[j] in ps; One(first + j, ps[j].letter, ps[j].mods))
  }

  function Min(a: nat, b: nat): nat { if a <= b then a else b }

  /** Where the arguments i, ..., n-1 are to go: the prefix first, then the variable arguments as far as the suffix
      can spare them, then the suffix. A marker that no argument reaches gets nothing, not even an empty stretch. */
  function Shares(items: seq<Item>, i: nat, n: nat): seq<Binding>
    requires i <= n
  {
    var pre, post, given := Prefix(items), Suffix(items), n - i;
    if given <= |pre| || RestAt(items) == |items| then Ones(pre[..Min(given, |pre|)], i)
    else
      var extra := if given > |pre| + |post| then given - |pre| - |post| else 0;
      Ones(pre, i) + [Many(i + |pre|, extra)] + Ones(post[..Min(given - |pre|, |post|)], i + |pre| + extra)
  }

  // The one case that goes wrong: a bar right behind a marker that gets nothing.
  predicate Stuck(items: seq<Item>, given: nat)
  {
    var k := RestAt(items);
    k + 1 < |items| && items[k + 1].Bar? && |Prefix(items)| < given <= |Prefix(items)| + |Suffix(items)|
  }

  // The same, one item at a time.
  function Handed(items: seq<Item>, i: nat, n: nat): seq<Binding>
  {
    if items == [] || i >= n then []
    else match items[0]
      case Bar => Handed(items[1..], i, n)
      case Param(c, mods) => [One(i, c, mods)] + Handed(items[1..], i + 1, n)
      case Rest(_) =>
        var post := |Params(items[1..])|;
        var extra := if n - i > post then n - i - post else 0;
        [Many(i, extra)] + Handed(items[1..], i + extra, n)
  }

  predicate Stops(items: seq<Item>, i: nat, n: nat)
  {
    if items == [] || i >= n then false
    else match items[0]
      case Bar => Stops(items[1..], i, n)
      case Param(_, _) => Stops(items[1..], i + 1, n)
      case Rest(_) => n - i <= |Params(items[1..])| && |items| > 1 && items[1].Bar?
  }

  lemma OnesCons(p: Item, ps: seq<Item>, i: nat)
    requires p.Param? && forall it :: it in ps ==> it.Param?
    ensures Ones([p] + ps, i) == [One(i, p.letter, p.mods)] + Ones(ps, i + 1)
  {
  }

  lemma {:induction false} NoRest(items: seq<Item>)
    requires Rests(items) == 0
    ensures RestAt(items) == |items| && Prefix(items) == Params(items) && Suffix(items) == []
  {
    if items != [] { NoRest(items[1..]); }
    assert items[..|items|] == items;
  }

  lemma Peel(items: seq<Item>)
    requires items != [] && !items[0].Rest?
    ensures Prefix(items) == (if items[0].Param? then [items[0]] else []) + Prefix(items[1..])
    ensures Suffix(items) == Suffix(items[1..])
    ensures RestAt(items) == RestAt(items[1..]) + 1
  {
    var k := RestAt(items);
    assert items[..k][1..] == items[1..][..k - 1] && items[..k][0] == items[0];
    if k < |items| { assert items[k + 1..] == items[1..][k..]; }
  }

  lemma SharesParam(items: seq<Item>, i: nat, n: nat)
    requires i < n && items != [] && items[0].Param?
    ensures Shares(items, i, n) == [One(i, items[0].letter, items[0].mods)] + Shares(items[1..], i + 1, n)
  {
    hide *;
    if n - i <= |Prefix(items)| || RestAt(items) == |items| {
      SharesFew(items, i, n);
    } else {
      SharesMany(items, i, n);
    }
  }

  lemma SharesFew(items: seq<Item>, i: nat, n: nat)
    requires i < n && items != [] && items[0].Param? && (n - i <= |Prefix(items)| || RestAt(items) == |items|)
    ensures Shares(items, i, n) == [One(i, items[0].letter, items[0].mods)] + Shares(items[1..], i + 1, n)
  {
    hide *;
    Peel(items);
    var pre, rest := Prefix(items), Prefix(items[1..]);
    Few(items, i, n);
    Few(items[1..], i + 1, n);
    Lesser(n - i, |pre|);
    var own := Min(n - i, |pre|);
    Taken(items[0], pre, rest, own);
    OnesCons(items[0], rest[..own - 1], i);
  }

  lemma Lesser(a: nat, b: nat)
    requires 0 < a && 0 < b
    ensures 0 < Min(a, b) <= b && Min(a - 1, b - 1) == Min(a, b) - 1
  {}

  lemma Few(items: seq<Item>, i: nat, n: nat)
    requires i <= n && (n - i <= |Prefix(items)| || RestAt(items) == |items|)
    ensures Min(n - i, |Prefix(items)|) <= |Prefix(items)|
    ensures Shares(items, i, n) == Ones(Prefix(items)[..Min(n - i, |Prefix(items)|)], i)
  {
    hide Ones, RestAt, Prefix, Suffix;
  }

  lemma Taken<T>(x: T, all: seq<T>, rest: seq<T>, n: nat)
    requires all == [x] + rest && 0 < n <= |all|
    ensures all[..n] == [x] + rest[..n - 1]
  {}

  lemma SharesMany(items: seq<Item>, i: nat, n: nat)
    requires i < n && items != [] && items[0].Param? && n - i > |Prefix(items)| && RestAt(items) != |items|
    ensures Shares(items, i, n) == [One(i, items[0].letter, items[0].mods)] + Shares(items[1..], i + 1, n)
  {
    hide Shares, Ones, RestAt, Prefix, Suffix;
    Peel(items);
    var pre, rest, post := Prefix(items), Prefix(items[1..]), Suffix(items);
    var extra := if n - i > |pre| + |post| then n - i - |pre| - |post| else 0;
    var many, last := Many(i + |pre|, extra), Ones(post[..Min(n - i - |pre|, |post|)], i + |pre| + extra);
    assert pre == [items[0]] + rest && |pre| == |rest| + 1;
    Spread(items, i, n);
    Spread(items[1..], i + 1, n);
    OnesCons(items[0], rest, i);
    Regroup(One(i, items[0].letter, items[0].mods), Ones(rest, i + 1), many, last);
  }

  lemma Spread(items: seq<Item>, i: nat, n: nat)
    requires i <= n && n - i > |Prefix(items)| && RestAt(items) != |items|
    ensures var pre, post, given := Prefix(items), Suffix(items), n - i;
      var extra := if given > |pre| + |post| then given - |pre| - |post| else 0;
      Min(given - |pre|, |post|) <= |post| &&
      Shares(items, i, n) ==
        Ones(pre, i) + [Many(i + |pre|, extra)] + Ones(post[..Min(given - |pre|, |post|)], i + |pre| + extra)
  {
    hide Ones, RestAt, Prefix, Suffix;
  }

  lemma Regroup(x: Binding, a: seq<Binding>, m: Binding, b: seq<Binding>)
    ensures [x] + a + [m] + b == [x] + (a + [m] + b)
  {}

  lemma SharesRest(items: seq<Item>, i: nat, n: nat)
    requires i < n && items != [] && items[0].Rest? && Rests(items) <= 1
    ensures var post := |Params(items[1..])|;
      var extra := if n - i > post then n - i - post else 0;
      Shares(items, i, n) == [Many(i, extra)] + Shares(items[1..], i + extra, n)
  {
    hide Ones, Suffix, Prefix, RestAt, Params;
    var rest := items[1..];
    NoRest(rest);
    FirstRest(items);
    var post := Params(rest);
    assert Ones([], i) == [] && Prefix(items) == [] by { OnesNone(i); }
    assert post[..Min(n - i, |post|)] == if n - i > |post| then post else post[..n - i];
  }

  lemma FirstRest(items: seq<Item>)
    requires items != [] && items[0].Rest?
    ensures RestAt(items) == 0 && Prefix(items) == [] && Suffix(items) == Params(items[1..])
  {
  }

  lemma OnesNone(i: nat)
    ensures Ones([], i) == []
  {
  }

  lemma SharesBar(items: seq<Item>, i: nat, n: nat)
    requires i <= n && items != [] && items[0].Bar?
    ensures Shares(items, i, n) == Shares(items[1..], i, n)
  {
    hide Ones, Suffix, Prefix, RestAt;
    Peel(items);
    assert Prefix(items) == Prefix(items[1..]);
  }

  lemma SharesNone(items: seq<Item>, i: nat, n: nat)
    requires i <= n && (items == [] || i == n)
    ensures Shares(items, i, n) == []
  {
  }

  lemma {:induction false} HandedIsShares(items: seq<Item>, i: nat, n: nat)
    requires i <= n && Rests(items) <= 1
    ensures Handed(items, i, n) == Shares(items, i, n)
  {
    hide Shares;
    if items == [] || i == n {
      SharesNone(items, i, n);
    } else if items[0].Rest? {
      SharesRest(items, i, n);
      var post := |Params(items[1..])|;
      HandedIsShares(items[1..], i + if n - i > post then n - i - post else 0, n);
    } else if items[0].Param? {
      SharesParam(items, i, n);
      HandedIsShares(items[1..], i + 1, n);
    } else {
      HandedIsShares(items[1..], i, n);
      SharesBar(items, i, n);
    }
  }

  lemma {:induction false} StopsIsStuck(items: seq<Item>, i: nat, n: nat)
    requires i <= n && Rests(items) <= 1
    ensures Stops(items, i, n) <==> Stuck(items, n - i)
  {
    if items == [] {
    } else if i == n {
    } else if items[0].Rest? {
      assert Prefix(items) == [] && Suffix(items) == Params(items[1..]);
    } else {
      Peel(items);
      StopsIsStuck(items[1..], if items[0].Param? then i + 1 else i, n);
    }
  }

  // ---------------------------------------------------------------- following the list while walking the text

  ghost predicate Tracks(spec: string, items: seq<Item>, p: nat, k: nat)
  {
    p <= |spec| && k <= |items| && spec[p..] == Text(items[k..])
  }

  // What has been handed out so far, and what the rest of the list will hand out, are together the shares.
  ghost predicate SoFar(items: seq<Item>, k: nat, bound: seq<Binding>, i: nat, n: nat, accepts: Check)
  {
    && k <= |items|
    && bound + Handed(items[k..], i, n) == Handed(items, 0, n)
    && (Stops(items[k..], i, n) <==> Stops(items, 0, n))
    && forall b :: b in bound ==> Accepted(accepts, b)
  }

  lemma Starts(items: seq<Item>, n: nat, accepts: Check)
    ensures SoFar(items, 0, [], 0, n, accepts)
  {
    assert items[0..] == items;
  }

  lemma Here(spec: string, items: seq<Item>, p: nat, k: nat)
    requires Tracks(spec, items, p, k) && p < |spec|
    ensures k < |items| && spec[p..] == ItemText(items[k]) + Text(items[k + 1..])
    ensures spec[p] == ItemText(items[k])[0]
  {
    assert |spec[p..]| > 0;
    assert items[k..][1..] == items[k + 1..] && items[k..][0] == items[k];
    assert spec[p] == spec[p..][0];
  }

  lemma Forward(spec: string, items: seq<Item>, p: nat, k: nat)
    requires Tracks(spec, items, p, k) && p < |spec|
    ensures k < |items| && p + |ItemText(items[k])| <= |spec|
    ensures spec[p..p + |ItemText(items[k])|] == ItemText(items[k])
    ensures Tracks(spec, items, p + |ItemText(items[k])|, k + 1)
  {
    Here(spec, items, p, k);
    var t, u := ItemText(items[k]), Text(items[k + 1..]);
    assert spec[p..][..|t|] == t && spec[p..][|t|..] == u;
  }

  lemma {:induction false} NoBarAhead(items: seq<Item>, k: nat)
    requires k < |items| && Bars(items) <= 1 && items[k].Bar?
    ensures forall j :: k < j < |items| ==> !items[j].Bar?
  {
    if k > 0 {
      NoBarAhead(items[1..], k - 1);
      assert forall j :: 1 <= j < |items| ==> items[j] == items[1..][j - 1];
    } else {
      NoBars(items[1..]);
      assert forall j :: 1 <= j < |items| ==> items[j] == items[1..][j - 1];
    }
  }

  lemma {:induction false} NoBars(items: seq<Item>)
    requires Bars(items) == 0
    ensures forall j :: 0 <= j < |items| ==> !items[j].Bar?
  {
    if items != [] {
      NoBars(items[1..]);
      assert forall j :: 1 <= j < |items| ==> items[j] == items[1..][j - 1];
    }
  }

  lemma {:induction false} ModifiersEnd(spec: string, p: nat, q: nat)
    requires p <= q <= |spec| && (forall j :: p <= j < q ==> Modifier(spec[j])) && (q < |spec| ==> !Modifier(spec[q]))
    ensures SkipModifiers(spec, p) == q
    decreases q - p
  {
    if p < q { ModifiersEnd(spec, p + 1, q); }
  }

  lemma NoModifierFirst(it: Item)
    requires GoodItem(it)
    ensures ItemText(it) != "" && !Modifier(ItemText(it)[0])
  {
    Kinds();
  }

  lemma ReadsParam(spec: string, items: seq<Item>, p: nat, k: nat)
    requires Tracks(spec, items, p, k) && p < |spec| && k < |items| && items[k].Param?
    requires forall it :: it in items ==> GoodItem(it)
    ensures spec[p] == items[k].letter && Letter(spec[p]) && spec[p] != 'Z'
    ensures var q := SkipModifiers(spec, p + 1);
      spec[p + 1..q] == items[k].mods && Tracks(spec, items, q, k + 1)
  {
    hide Text, Letter, Rests, Bars, SkipModifiers, Marker, Letters, Markers;
    Forward(spec, items, p, k);
    var mods := items[k].mods;
    var q := p + 1 + |mods|;
    assert items[k] in items;
    assert ItemText(items[k]) == [items[k].letter] + mods;
    assert spec[p] == spec[p..q][0];
    assert spec[p + 1..q] == spec[p..q][1..] == mods;
    forall j | p + 1 <= j < q ensures Modifier(spec[j]) {
      assert spec[j] == spec[p + 1..q][j - p - 1];
    }
    if q < |spec| {
      Here(spec, items, q, k + 1);
      assert items[k + 1] in items;
      NoModifierFirst(items[k + 1]);
    }
    ModifiersEnd(spec, p + 1, q);
  }

  lemma TookBar(items: seq<Item>, k: nat, bound: seq<Binding>, i: nat, n: nat, accepts: Check)
    requires SoFar(items, k, bound, i, n, accepts) && k < |items| && items[k].Bar?
    ensures SoFar(items, k + 1, bound, i, n, accepts)
  {
    assert items[k..][1..] == items[k + 1..];
  }

  lemma TookParam(items: seq<Item>, k: nat, bound: seq<Binding>, i: nat, n: nat, accepts: Check)
    requires SoFar(items, k, bound, i, n, accepts) && k < |items| && items[k].Param? && i < n
    ensures var b := One(i, items[k].letter, items[k].mods);
      && (bound + [b]) <= Handed(items, 0, n)
      && (Accepted(accepts, b) ==> SoFar(items, k + 1, bound + [b], i + 1, n, accepts))
  {
    assert items[k..][1..] == items[k + 1..];
    var b := One(i, items[k].letter, items[k].mods);
    assert bound + ([b] + Handed(items[k + 1..], i + 1, n)) == bound + [b] + Handed(items[k + 1..], i + 1, n);
  }

  lemma TookRest(items: seq<Item>, k: nat, bound: seq<Binding>, i: nat, n: nat, accepts: Check)
    requires SoFar(items, k, bound, i, n, accepts) && k < |items| && items[k].Rest? && i < n && Rests(items) <= 1
    ensures var post := |Params(items[k + 1..])|;
      var extra := if n - i > post then n - i - post else 0;
      && (extra > 0 || !(k + 1 < |items| && items[k + 1].Bar?) ==>
            SoFar(items, k + 1, bound + [Many(i, extra)], i + extra, n, accepts))
      && (extra == 0 && k + 1 < |items| && items[k + 1].Bar? ==> Stops(items, 0, n))
  {
    assert items[k..][1..] == items[k + 1..];
    var post := |Params(items[k + 1..])|;
    var extra := if n - i > post then n - i - post else 0;
    var m := Many(i, extra);
    assert bound + ([m] + Handed(items[k + 1..], i + extra, n)) == bound + [m] + Handed(items[k + 1..], i + extra, n);
    LaterRests(items, k);
    NoStop(items[k + 1..], i + extra, n);
  }

  lemma {:induction false} LaterRests(items: seq<Item>, k: nat)
    requires k < |items| && items[k].Rest? && Rests(items) <= 1
    ensures Rests(items[k + 1..]) == 0
  {
    if k > 0 {
      assert items[1..][k..] == items[k + 1..];
      LaterRests(items[1..], k - 1);
    }
  }

  lemma {:induction false} NoStop(items: seq<Item>, i: nat, n: nat)
    requires Rests(items) == 0
    ensures !Stops(items, i, n)
  {
    if items != [] && i < n { NoStop(items[1..], if items[0].Param? then i + 1 else i, n); }
  }

  lemma {:induction false} TextLetters(items: seq<Item>)
    requires forall it :: it in items ==> GoodItem(it)
    ensures Letters(Text(items)) == |Params(items)| && Markers(Text(items)) == Rests(items)
  {
    if items != [] {
      TextLetters(items[1..]);
      CountsAdd(ItemText(items[0]), Text(items[1..]));
      ItemCounts(items[0]);
    }
  }

  lemma ItemCounts(it: Item)
    requires GoodItem(it)
    ensures Letters(ItemText(it)) == if it.Param? then 1 else 0
    ensures Markers(ItemText(it)) == if it.Rest? then 1 else 0
  {
    Kinds();
    match it
    case Param(c, mods) =>
      CountsAdd([c], mods);
      ModsCount(mods);
    case Bar =>
    case Rest(plus) =>
  }

  lemma {:induction false} ModsCount(mods: string)
    requires forall j :: 0 <= j < |mods| ==> Modifier(mods[j])
    ensures Letters(mods) == Markers(mods) == 0
  {
    if mods != "" {
      ModsCount(mods[1..]);
      Kinds();
    }
  }

  // ---------------------------------------------------------------- the second pass

  ghost predicate FirstRefused(accepts: Check, b: seq<Binding>, at: nat)
  {
    exists j :: 0 <= j < |b| && b[j].One? && b[j].index == at && !Accepted(accepts, b[j]) &&
      forall h :: 0 <= h < j ==> Accepted(accepts, b[h])
  }

  ghost predicate AllAccepted(accepts: Check, b: seq<Binding>)
  {
    forall x :: x in b ==> Accepted(accepts, x)
  }

  // There is something left in the text for the arguments still to come.
  ghost predicate Room(spec: string, p: nat, left: nat)
  {
    p <= |spec| && (Markers(spec[p..]) == 0 ==> left <= Letters(spec[p..]))
  }

  lemma HasRoom(spec: string, p: nat, left: nat)
    requires Room(spec, p, left) && left > 0
    ensures p < |spec|
    ensures spec[p] == '|' ==> Room(spec, p + 1, left) && p + 1 < |spec|
  {
    hide Markers, Letters, Letter;
    NoCounts();
    Kinds();
    assert |spec[p..]| == |spec| - p;
    if spec[p] == '|' {
      Ahead(spec, p);
      assert |spec[p + 1..]| == |spec| - p - 1;
    }
  }

  lemma PastMarker(spec: string, p: nat)
    requires p < |spec| && Markers(spec) <= 1 && Marker(spec[p])
    ensures Needs(spec).post == Letters(spec[p + 1..]) && Markers(spec[p + 1..]) == 0
  {
    OnlyMark(spec, p);
    hide Letters, Markers, MarkAt, BarAt, Pluses, Marker;
  }

  lemma RoomPastMarker(spec: string, p: nat, left: nat)
    requires p < |spec| && Markers(spec[p + 1..]) == 0 && left <= Letters(spec[p + 1..])
    ensures Room(spec, p + 1, left)
  {
  }

  lemma RoomPastParam(spec: string, p: nat, left: nat)
    requires p < |spec| && Room(spec, p, left) && left > 0 && Letter(spec[p])
    ensures Room(spec, SkipModifiers(spec, p + 1), left - 1)
  {
    Ahead(spec, p);
    NothingSkipped(spec, p + 1);
    Kinds();
  }

  // The place in the list, what has been handed out, and that it is the reading of the text.
  ghost predicate On(spec: string, items: seq<Item>, p: nat, k: nat, bound: seq<Binding>, i: nat, n: nat,
                     accepts: Check)
  {
    spec == Text(items) && WellFormed(items) && Tracks(spec, items, p, k) && SoFar(items, k, bound, i, n, accepts)
  }

  lemma OnStart(spec: string, items: seq<Item>, n: nat, accepts: Check)
    requires spec == Text(items) && WellFormed(items)
    ensures On(spec, items, 0, 0, [], 0, n, accepts)
  {
    Starts(items, n, accepts);
    assert spec[0..] == spec && items[0..] == items;
  }

  lemma ItemHead(it: Item)
    requires GoodItem(it)
    ensures ItemText(it) != "" && (ItemText(it)[0] == '|' <==> it.Bar?) && (Marker(ItemText(it)[0]) <==> it.Rest?)
  {
    hide Letter;
    Kinds();
  }

  lemma ShortText(it: Item)
    requires !it.Param?
    ensures |ItemText(it)| == 1
  {
  }

  lemma RestLetters(spec: string, items: seq<Item>, p: nat, k: nat)
    requires Tracks(spec, items, p, k) && WellFormed(items)
    ensures Letters(spec[p..]) == |Params(items[k..])|
  {
    assert forall it :: it in items[k..] ==> it in items;
    TextLetters(items[k..]);
  }

  lemma BarHere(spec: string, items: seq<Item>, p: nat, k: nat)
    requires Tracks(spec, items, p, k) && k < |items| && items[k].Bar?
    ensures p < |spec| && spec[p] == '|' && !Letter(spec[p])
  {
    assert items[k..][0] == items[k];
    assert |spec[p..]| > 0;
    assert spec[p] == spec[p..][0];
  }

  lemma GoodAt(items: seq<Item>, k: nat)
    requires WellFormed(items) && k < |items|
    ensures GoodItem(items[k])
  {
    assert items[k] in items;
  }

  lemma OnBar(spec: string, items: seq<Item>, p: nat, k: nat, bound: seq<Binding>, i: nat, n: nat, accepts: Check)
    requires On(spec, items, p, k, bound, i, n, accepts) && p < |spec|
    ensures k < |items| && (spec[p] == '|' <==> items[k].Bar?)
    ensures items[k].Bar? ==> On(spec, items, p + 1, k + 1, bound, i, n, accepts)
    ensures items[k].Bar? ==> forall j :: k < j < |items| ==> !items[j].Bar?
  {
    hide SoFar, Tracks, Text, Letter, Handed, Stops, ItemText, GoodItem, Bars, Rests, Letters, Params;
    Here(spec, items, p, k);
    GoodAt(items, k);
    ItemHead(items[k]);
    if items[k].Bar? {
      Forward(spec, items, p, k);
      ShortText(items[k]);
      TookBar(items, k, bound, i, n, accepts);
      NoBarAhead(items, k);
    }
  }

  lemma OnMarker(spec: string, items: seq<Item>, p: nat, k: nat, bound: seq<Binding>, i: nat, n: nat, accepts: Check)
    requires On(spec, items, p, k, bound, i, n, accepts) && p < |spec| && i < n
    ensures k < |items| && (Marker(spec[p]) <==> items[k].Rest?)
    ensures items[k].Rest? ==>
      var post := Letters(spec[p + 1..]);
      var extra := if n - i > post then n - i - post else 0;
      && Tracks(spec, items, p + 1, k + 1)
      && (extra > 0 || !(k + 1 < |items| && items[k + 1].Bar?) ==>
            On(spec, items, p + 1, k + 1, bound + [Many(i, extra)], i + extra, n, accepts))
      && (extra == 0 && k + 1 < |items| && items[k + 1].Bar? ==> Stops(items, 0, n))
  {
    hide SoFar, Tracks, Text, Letter, Handed, Stops, ItemText, GoodItem, Bars, Rests, Letters, Params;
    Here(spec, items, p, k);
    GoodAt(items, k);
    ItemHead(items[k]);
    if items[k].Rest? {
      Forward(spec, items, p, k);
      ShortText(items[k]);
      TookRest(items, k, bound, i, n, accepts);
      RestLetters(spec, items, p + 1, k + 1);
    }
  }

  lemma OnParam(spec: string, items: seq<Item>, p: nat, k: nat, bound: seq<Binding>, i: nat, n: nat, accepts: Check)
    requires On(spec, items, p, k, bound, i, n, accepts) && p < |spec| && i < n && k < |items| && items[k].Param?
    ensures var q := SkipModifiers(spec, p + 1);
      var b := One(i, spec[p], spec[p + 1..q]);
      && Letter(spec[p]) && spec[p] != 'Z'
      && (accepts(i, spec[p], spec[p + 1..q]) ==> On(spec, items, q, k + 1, bound + [b], i + 1, n, accepts))
      && (!accepts(i, spec[p], spec[p + 1..q]) ==> FirstRefused(accepts, Handed(items, 0, n), i))
  {
    hide Handed, Stops, SkipModifiers, Text, Letter;
    ReadsParam(spec, items, p, k);
    TookParam(items, k, bound, i, n, accepts);
    var q := SkipModifiers(spec, p + 1);
    var b := One(i, spec[p], spec[p + 1..q]);
    if !accepts(i, spec[p], spec[p + 1..q]) {
      var all := Handed(items, 0, n);
      assert all[|bound|] == (bound + [b])[|bound|] == b;
      assert forall h :: 0 <= h < |bound| ==> all[h] == (bound + [b])[h] && all[h] in bound;
    }
  }

  lemma OnEnd(spec: string, items: seq<Item>, p: nat, k: nat, bound: seq<Binding>, n: nat, accepts: Check)
    requires On(spec, items, p, k, bound, n, n, accepts)
    ensures bound == Handed(items, 0, n) && AllAccepted(accepts, bound) && !Stops(items, 0, n)
  {
    assert Handed(items[k..], n, n) == [] && !Stops(items[k..], n, n);
  }

  // The second pass of zend_parse_va_args.
  method Walk(spec: string, numArgs: nat, post: nat, accepts: Check, ghost items: seq<Item>) returns (r: Outcome)
    requires WellMade(spec) && post == Needs(spec).post
    requires Room(spec, 0, numArgs)
    ensures r.Parsed? || r.Rejected?
    ensures r.Parsed? ==> Indices(r.bound) == UpTo(numArgs)
    ensures spec == Text(items) && WellFormed(items) && r.Parsed? ==>
      r.bound == Handed(items, 0, numArgs) && AllAccepted(accepts, r.bound) && !Stops(items, 0, numArgs)
    ensures spec == Text(items) && WellFormed(items) && r.Rejected? ==>
      FirstRefused(accepts, Handed(items, 0, numArgs), r.at) || Stops(items, 0, numArgs)
  {
    hide *;
    var p: nat, i: nat, left: int := 0, 0, numArgs;
    var bound: seq<Binding> := [];
    ghost var k := 0;
    ghost var listed := spec == Text(items) && WellFormed(items);
    if listed { OnStart(spec, items, numArgs, accepts); }
    NoIndices();
    WellMadeParts(spec);
    while left > 0
      invariant left >= 0 && i + left == numArgs && Indices(bound) == UpTo(i)
      invariant Room(spec, p, left)
      invariant listed ==> On(spec, items, p, k, bound, i, numArgs, accepts)
      decreases left
    {
      left := left - 1;
      HasRoom(spec, p, left + 1);
      if listed { OnBar(spec, items, p, k, bound, i, numArgs, accepts); }
      if spec[p] == '|' {
        p, k := p + 1, k + 1;
      }
      ghost var stuck := false;
      if listed { OnMarker(spec, items, p, k, bound, i, numArgs, accepts); }
      MarkerIs(spec[p]);
      if spec[p] == '*' || spec[p] == '+' {
        PastMarker(spec, p);
        MinIs(left + 1, post);
        var numVarargs := left + 1 - post;
        IndicesPush(bound, Many(i, if numVarargs > 0 then numVarargs else 0), i);
        RoomPastMarker(spec, p, Min(left + 1, post));
        if numVarargs > 0 {
          bound := bound + [Many(i, numVarargs)];
          left := left + 1 - numVarargs;
          i := i + numVarargs;
          p, k := p + 1, k + 1;
          continue;
        }
        bound := bound + [Many(i, 0)];
        p, k := p + 1, k + 1;
        HasRoom(spec, p, left + 1);
        NoMarkHere(spec, p);
        stuck := listed && k < |items| && items[k].Bar?;
        if stuck { BarHere(spec, items, p, k); }
      }
      if listed && !stuck {
        OnBar(spec, items, p, k, bound, i, numArgs, accepts);
        OnMarker(spec, items, p, k, bound, i, numArgs, accepts);
        OnParam(spec, items, p, k, bound, i, numArgs, accepts);
      }
      var ok, q := ParseArg(i, spec, p, accepts);
      if !ok { return Rejected(i); }
      IndicesPush(bound, One(i, spec[p], spec[p + 1..q]), i);
      RoomPastParam(spec, p, left + 1);
      bound := bound + [One(i, spec[p], spec[p + 1..q])];
      p, i, k := q, i + 1, k + 1;
    }
    if listed { OnEnd(spec, items, p, k, bound, numArgs, accepts); }
    return Parsed(bound);
  }

  lemma NoIndices()
    ensures Indices([]) == UpTo(0)
  {
  }

  lemma WellMadeParts(spec: string)
    requires WellMade(spec)
    ensures Markers(spec) <= 1
  {
  }

  lemma MarkerIs(c: char)
    ensures Marker(c) <==> c == '*' || c == '+'
  {
  }

  lemma NoMarkHere(spec: string, p: nat)
    requires p < |spec| && Markers(spec[p..]) == 0
    ensures !Marker(spec[p])
  {
    Ahead(spec, p);
  }

  lemma MinIs(a: nat, b: nat)
    ensures Min(a, b) == if a <= b then a else b
  {
  }

  // ---------------------------------------------------------------- the counts, read off the list

  function Weight(it: Item): nat { if it.Param? || it == Rest(true) then 1 else 0 }

  function Most(items: seq<Item>): nat { if items == [] then 0 else Most(items[1..]) + Weight(items[0]) }

  // The parameters in front of the bar; a plus stands for one argument.
  function Least(items: seq<Item>): nat
  {
    if items == [] || items[0].Bar? then 0 else Least(items[1..]) + Weight(items[0])
  }

  lemma NoBarText(it: Item)
    requires GoodItem(it) && !it.Bar?
    ensures forall j :: 0 <= j < |ItemText(it)| ==> ItemText(it)[j] != '|'
  {
    Kinds();
  }

  lemma NoMarkerText(it: Item)
    requires GoodItem(it) && !it.Rest?
    ensures forall j :: 0 <= j < |ItemText(it)| ==> !Marker(ItemText(it)[j])
  {
    Kinds();
  }

  lemma BarLater(a: string, u: string)
    requires forall j :: 0 <= j < |a| ==> a[j] != '|'
    ensures BarAt(a + u) == |a| + BarAt(u)
  {
    BarUnique(a + u, |a| + BarAt(u));
  }

  lemma MarkLater(a: string, u: string)
    requires forall j :: 0 <= j < |a| ==> !Marker(a[j])
    ensures MarkAt(a + u) == |a| + MarkAt(u)
  {
    MarkUnique(a + u, |a| + MarkAt(u));
  }

  lemma {:induction false} TextBars(items: seq<Item>)
    requires (forall it :: it in items ==> GoodItem(it)) && Bars(items) == 0
    ensures forall j :: 0 <= j < |Text(items)| ==> Text(items)[j] != '|'
  {
    if items != [] {
      TextBars(items[1..]);
      NoBarText(items[0]);
    }
  }

  lemma ItemWeight(it: Item)
    requires GoodItem(it)
    ensures Letters(ItemText(it)) + Pluses(ItemText(it)) == Weight(it)
  {
    ItemCounts(it);
    PlusesAreMarkers(ItemText(it));
  }

  lemma {:induction false} TextMost(items: seq<Item>)
    requires forall it :: it in items ==> GoodItem(it)
    ensures Letters(Text(items)) + Pluses(Text(items)) == Most(items)
  {
    if items != [] {
      TextMost(items[1..]);
      CountsAdd(ItemText(items[0]), Text(items[1..]));
      ItemWeight(items[0]);
    }
  }

  lemma {:induction false} TextLeast(items: seq<Item>)
    requires (forall it :: it in items ==> GoodItem(it)) && Bars(items) <= 1
    ensures var t := Text(items); Letters(t[..BarAt(t)]) + Pluses(t[..BarAt(t)]) == Least(items)
  {
    hide Letter, Letters, Pluses, Markers, Legal, BarAt, ItemText, GoodItem;
    var t := Text(items);
    if items == [] {
      NoCounts();
      assert t[..BarAt(t)] == "";
    } else {
      var a, u := ItemText(items[0]), Text(items[1..]);
      assert t == a + u;
      if items[0].Bar? {
        TextBars(items[1..]);
        BarText(items[0]);
        BarUnique(t, 0);
        NoCounts();
        assert t[..0] == "";
      } else {
        TextLeast(items[1..]);
        NoBarText(items[0]);
        BarLater(a, u);
        assert t[..BarAt(t)] == a + u[..BarAt(u)];
        CountsAdd(a, u[..BarAt(u)]);
        ItemWeight(items[0]);
      }
    }
  }

  lemma BarText(it: Item)
    requires it.Bar?
    ensures ItemText(it) == "|"
  {
  }

  lemma {:induction false} TextPost(items: seq<Item>)
    requires (forall it :: it in items ==> GoodItem(it)) && Rests(items) <= 1
    ensures var t := Text(items);
      (MarkAt(t) < |t| <==> RestAt(items) < |items|) &&
      (MarkAt(t) < |t| ==> Letters(t[MarkAt(t) + 1..]) == |Suffix(items)|)
  {
    hide Letter, Letters, Pluses, Markers, Legal, ItemText, GoodItem, Params, Prefix, Marker;
    if items != [] {
      var t := Text(items);
      var a, u := ItemText(items[0]), Text(items[1..]);
      assert t == a + u;
      if items[0].Rest? {
        GoodAt1(items);
        ItemHead(items[0]);
        ShortText(items[0]);
        MarkUnique(t, 0);
        assert t[1..] == u;
        TextLetters(items[1..]);
        assert RestAt(items) == 0;
      } else {
        TextPost(items[1..]);
        NoMarkerText(items[0]);
        MarkLater(a, u);
        Peel(items);
        if MarkAt(u) < |u| { assert t[MarkAt(t) + 1..] == u[MarkAt(u) + 1..]; }
      }
    }
  }

  lemma GoodAt1(items: seq<Item>)
    requires items != [] && forall it :: it in items ==> GoodItem(it)
    ensures GoodItem(items[0])
  {
  }

  lemma {:induction false} TextLegal(items: seq<Item>)
    requires forall it :: it in items ==> GoodItem(it)
    ensures forall j :: 0 <= j < |Text(items)| ==> Legal(Text(items)[j])
  {
    if items != [] {
      TextLegal(items[1..]);
      ItemLegal(items[0]);
    }
  }

  lemma ItemLegal(it: Item)
    requires GoodItem(it)
    ensures forall j :: 0 <= j < |ItemText(it)| ==> Legal(ItemText(it)[j])
  {
  }

  // What the first pass finds in a well-formed specification.
  lemma NeedsOf(items: seq<Item>)
    requires WellFormed(items)
    ensures WellMade(Text(items))
    ensures var c := Needs(Text(items));
      && c.min == Least(items)
      && c.max == Most(items)
      && (c.marked <==> RestAt(items) < |items|)
      && c.post == |Suffix(items)|
  {
    hide Letter, Letters, Pluses, Markers, Legal, ItemText, GoodItem, Text, BarAt, MarkAt, Least, Most, RestAt, Bars,
      Rests, Params;
    TextLegal(items);
    TextLetters(items);
    TextLeast(items);
    TextMost(items);
    TextPost(items);
  }

  predicate Fits(c: Counts, n: nat) { c.min <= n && (c.marked || n <= c.max) }

  lemma RoomAtStart(spec: string, n: nat)
    requires WellMade(spec) && Fits(Needs(spec), n)
    ensures Room(spec, 0, n)
  {
    assert spec[0..] == spec;
    PlusesAreMarkers(spec);
    MarkedIff(spec);
  }

  /** zend_parse_va_args: a parse that succeeds hands out every argument once and in order; for a well-formed
      specification it hands them out as Shares says, and it succeeds exactly when the count fits, every argument passes
      its own check and no bar stands right behind a marker that gets nothing. */
  method ParseVaArgs(spec: string, numArgs: nat, argCount: nat, accepts: Check,
                     ghost items: seq<Item>)
    returns (r: Outcome)
    ensures r.BadSpec? <==> !WellMade(spec)
    ensures r.WrongCount? <==> WellMade(spec) && !Fits(Needs(spec), numArgs)
    ensures r.NotPassed? <==> WellMade(spec) && Fits(Needs(spec), numArgs) && numArgs > argCount
    ensures r.Parsed? ==> Indices(r.bound) == UpTo(numArgs)
    ensures spec == Text(items) && WellFormed(items) ==>
      (r.Parsed? <==>
        (Fits(Needs(spec), numArgs) && numArgs <= argCount &&
         AllAccepted(accepts, Shares(items, 0, numArgs)) && !Stuck(items, numArgs)))
    ensures spec == Text(items) && WellFormed(items) && r.Parsed? ==> r.bound == Shares(items, 0, numArgs)
    ensures spec == Text(items) && WellFormed(items) && r.Rejected? ==>
      FirstRefused(accepts, Shares(items, 0, numArgs), r.at) || Stuck(items, numArgs)
  {
    hide *;
    ghost var listed := spec == Text(items) && WellFormed(items);
    if listed {
      NeedsOf(items);
      OnlyOne(items);
      HandedIsShares(items, 0, numArgs);
      StopsIsStuck(items, 0, numArgs);
    }
    FitsIs(Needs(spec), numArgs);
    var ok, counts := CountArgs(spec);
    if !ok { return BadSpec; }
    if numArgs < counts.min || (!counts.marked && numArgs > counts.max) { return WrongCount; }
    if numArgs > argCount { return NotPassed; }
    RoomAtStart(spec, numArgs);
    r := Walk(spec, numArgs, counts.post, accepts, items);
    if listed && r.Rejected? && !Stops(items, 0, numArgs) {
      RefusedIsRefused(accepts, Handed(items, 0, numArgs), r.at);
    }
  }

  lemma FitsIs(c: Counts, n: nat)
    ensures Fits(c, n) <==> c.min <= n && (c.marked || n <= c.max)
  {
  }

  lemma OnlyOne(items: seq<Item>)
    requires WellFormed(items)
    ensures Rests(items) <= 1
  {
  }

  lemma RefusedIsRefused(accepts: Check, b: seq<Binding>, at: nat)
    requires FirstRefused(accepts, b, at)
    ensures !AllAccepted(accepts, b)
  {
  }

  lemma Unfolds(it: Item, rest: seq<Item>)
    ensures Text([it] + rest) == ItemText(it) + Text(rest)
    ensures Params([it] + rest) == (if it.Param? then [it] else []) + Params(rest)
    ensures Bars([it] + rest) == Bars(rest) + (if it.Bar? then 1 else 0)
    ensures Rests([it] + rest) == Rests(rest) + (if it.Rest? then 1 else 0)
    ensures Least([it] + rest) == if it.Bar? then 0 else Least(rest) + Weight(it)
    ensures RestAt([it] + rest) == if it.Rest? then 0 else RestAt(rest) + 1
  {
    hide ItemText, Weight;
    assert ([it] + rest)[1..] == rest;
  }

  lemma Nothing()
    ensures Text([]) == "" && Params([]) == [] && Bars([]) == 0 && Rests([]) == 0 && Least([]) == 0
  {}

  lemma ExampleTexts()
    ensures ItemText(Rest(false)) == "*" && ItemText(Bar) == "|" && ItemText(Param('s', "")) == "s"
    ensures "*" + ("|" + ("s" + "")) == "*|s"
    ensures Weight(Rest(false)) == 0 && GoodItem(Rest(false)) && GoodItem(Bar) && GoodItem(Param('s', ""))
  {}

  lemma ExampleItems(items: seq<Item>)
    requires items == [Rest(false)] + ([Bar] + ([Param('s', "")] + []))
    ensures Text(items) == "*|s" && Bars(items) == 1 && Rests(items) == 1 && Least(items) == 0 && RestAt(items) == 0
    ensures Params([Bar] + ([Param('s', "")] + [])) == [Param('s', "")]
  {
    hide *;
    ExampleTexts();
    Nothing();
    Unfolds(Param('s', ""), []);
    Unfolds(Bar, [Param('s', "")] + []);
    Unfolds(Rest(false), [Bar] + ([Param('s', "")] + []));
    assert [Param('s', "")] + [] == [Param('s', "")];
  }

  lemma ExampleStuck(items: seq<Item>)
    requires items == [Rest(false), Bar, Param('s', "")] && RestAt(items) == 0
    requires Params([Bar, Param('s', "")]) == [Param('s', "")]
    ensures |Suffix(items)| == 1 && Stuck(items, 1)
  {
    hide Params, RestAt;
    assert items[..0] == [] && items[1..] == [Bar, Param('s', "")];
    Nothing();
  }

  lemma ExampleFormed(items: seq<Item>)
    requires items == [Rest(false), Bar, Param('s', "")] && Bars(items) == 1 && Rests(items) == 1
    ensures WellFormed(items)
  {
    hide Bars, Rests, GoodItem;
    ExampleTexts();
  }

  // "any number of arguments, then perhaps a string", called with one argument: the string is refused.
  lemma StuckExample()
    ensures var items := [Rest(false), Bar, Param('s', "")];
      Text(items) == "*|s" && WellFormed(items) && Fits(Needs("*|s"), 1) && Stuck(items, 1)
  {
    hide *;
    var items := [Rest(false), Bar, Param('s', "")];
    assert items == [Rest(false)] + ([Bar] + ([Param('s', "")] + []));
    assert [Bar, Param('s', "")] == [Bar] + ([Param('s', "")] + []);
    ExampleItems(items);
    ExampleFormed(items);
    ExampleStuck(items);
    NeedsOf(items);
    OneFits(Needs("*|s"));
  }

  lemma OneFits(c: Counts)
    requires c.min == 0 && c.marked
    ensures Fits(c, 1)
  {}
}
