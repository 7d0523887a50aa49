/** Sets of page runs inside one chunk, by start page and length. */
module Spans {
  import opened Sizes
  import opened Bitset

  // Runs start behind the header page, fit into the chunk and do not overlap.
  ghost predicate WellPlaced(spans: map<nat, nat>)
  {
    && (forall s :: s in spans ==> 1 <= s && 0 < spans[s] && s + spans[s] <= PAGES)
    && (forall s, t :: s in spans && t in spans && s < t ==> s + spans[s] <= t)
  }

  ghost predicate Covered(spans: map<nat, nat>, p: nat)
  {
    exists s :: s in spans && s <= p < s + spans[s]
  }

  ghost function Pages(spans: map<nat, nat>): set<nat>
  {
    set p: nat | p < PAGES && Covered(spans, p)
  }

  // Pages p .. p+len-1 exist and belong to no run.
  ghost predicate Vacant(spans: map<nat, nat>, p: nat, len: nat)
  {
    1 <= p && p + len <= PAGES && Interval(p, len) !! Pages(spans)
  }

  lemma Separate(spans: map<nat, nat>, s: nat, len: nat, t: nat)
    requires WellPlaced(spans) && 0 < len && Vacant(spans, s, len) && t in spans
    ensures t + spans[t] <= s || s + len <= t
  {
    assert t in Pages(spans) by { assert Covered(spans, t); }
    assert t !in Interval(s, len);
    assert s in Interval(s, len);
    assert s !in Pages(spans);
  }

  lemma AddedPlaced(spans: map<nat, nat>, s: nat, len: nat)
    requires WellPlaced(spans) && 0 < len && Vacant(spans, s, len)
    ensures s !in spans && WellPlaced(spans[s := len])
  {
    forall t | t in spans ensures t + spans[t] <= s || s + len <= t { Separate(spans, s, len, t); }
  }

  lemma AddedPages(spans: map<nat, nat>, s: nat, len: nat)
    requires WellPlaced(spans) && 0 < len && Vacant(spans, s, len)
    ensures Pages(spans[s := len]) == Pages(spans) + Interval(s, len)
  {
    AddedPlaced(spans, s, len);
    var after := spans[s := len];
    forall p: nat | p < PAGES ensures Covered(after, p) <==> Covered(spans, p) || s <= p < s + len {
      if Covered(spans, p) { var t :| t in spans && t <= p < t + spans[t]; assert t in after && after[t] == spans[t]; }
      if s <= p < s + len { assert s in after; }
    }
  }

  lemma RemovedPlaced(spans: map<nat, nat>, s: nat)
    requires WellPlaced(spans) && s in spans
    ensures WellPlaced(spans - {s})
    ensures 1 <= s && 0 < spans[s] && s + spans[s] <= PAGES
    ensures Interval(s, spans[s]) <= Pages(spans)
  {
    forall p: nat | s <= p < s + spans[s] ensures Covered(spans, p) {}
  }

  lemma NotCovered(spans: map<nat, nat>, s: nat, p: nat)
    requires WellPlaced(spans) && s in spans && s <= p < s + spans[s]
    ensures !Covered(spans - {s}, p)
  {
    var after := spans - {s};
    forall t | t in after ensures !(t <= p < t + after[t]) { assert t in spans && after[t] == spans[t]; }
  }

  // Taking runs away uncovers at least the first page of each.
  lemma FewerPages(spans: map<nat, nat>, gone: set<nat>, p: nat)
    requires WellPlaced(spans) && p in gone && p in spans
    ensures Pages(spans - gone) <= Pages(spans) - {p} && 1 <= p && p in Pages(spans)
  {
    var after := spans - gone;
    assert Covered(spans, p);
    forall q | q in Pages(after) ensures q in Pages(spans) && q != p {
      var t :| t in after && t <= q < t + after[t];
      assert t in spans && spans[t] == after[t];
    }
  }

  lemma RemovedVacant(spans: map<nat, nat>, s: nat)
    requires WellPlaced(spans) && s in spans
    ensures Interval(s, spans[s]) !! Pages(spans - {s})
  {
    var after := spans - {s};
    forall p: nat | p in Pages(after) ensures p !in Interval(s, spans[s]) {
      if s <= p < s + spans[s] { NotCovered(spans, s, p); }
    }
  }

  lemma RemovedPages(spans: map<nat, nat>, s: nat)
    requires WellPlaced(spans) && s in spans
    ensures Pages(spans - {s}) == Pages(spans) - Interval(s, spans[s])
  {
    var after := spans - {s};
    hide *;
    RemovedVacant(spans, s);
    RemovedPlaced(spans, s);
    AddBack(spans, after, s);
  }

  lemma AddBack(spans: map<nat, nat>, after: map<nat, nat>, s: nat)
    requires WellPlaced(after) && s in spans && spans == after[s := spans[s]]
    requires 1 <= s && 0 < spans[s] && s + spans[s] <= PAGES && Interval(s, spans[s]) !! Pages(after)
    ensures Pages(after) == Pages(spans) - Interval(s, spans[s])
  {
    hide Pages, WellPlaced;
    AddedPages(after, s, spans[s]);
  }

  lemma Split(s: nat, len: nat, total: nat)
    requires len <= total
    ensures Interval(s, total) == Interval(s, len) + Interval(s + len, total - len)
    ensures Interval(s, len) !! Interval(s + len, total - len)
  {}

  // A run cut back to its first len pages.
  lemma Shrunk(spans: map<nat, nat>, s: nat, len: nat)
    requires WellPlaced(spans) && s in spans && 0 < len < spans[s]
    ensures WellPlaced(spans[s := len])
    ensures Pages(spans[s := len]) == Pages(spans) - Interval(s + len, spans[s] - len)
    ensures Interval(s + len, spans[s] - len) <= Pages(spans)
  {
    hide *;
    Split(s, len, spans[s]);
    RemovedVacant(spans, s);
    RemovedPages(spans, s);
    RemovedPlaced(spans, s);
    Resized(spans, s, len, Interval(s, spans[s]), Interval(s, len), Interval(s + len, spans[s] - len));
  }

  lemma Resized(spans: map<nat, nat>, s: nat, len: nat, whole: set<nat>, kept: set<nat>, cut: set<nat>)
    requires s in spans && WellPlaced(spans - {s}) && 1 <= s && 0 < len && s + len <= PAGES
    requires whole == kept + cut && kept !! cut && kept == Interval(s, len)
    requires whole <= Pages(spans) && Pages(spans - {s}) == Pages(spans) - whole
    ensures WellPlaced(spans[s := len])
    ensures Pages(spans[s := len]) == Pages(spans) - cut
    ensures cut <= Pages(spans)
  {
    hide *;
    Replace(spans - {s}, s, len);
    assert (spans - {s})[s := len] == spans[s := len];
  }

  // A run grown over the vacant pages behind it.
  lemma Grown(spans: map<nat, nat>, s: nat, len: nat)
    requires WellPlaced(spans) && s in spans && spans[s] < len
    requires s + len <= PAGES && Interval(s + spans[s], len - spans[s]) !! Pages(spans)
    ensures WellPlaced(spans[s := len])
    ensures Pages(spans[s := len]) == Pages(spans) + Interval(s + spans[s], len - spans[s])
  {
    hide *;
    Split(s, spans[s], len);
    RemovedVacant(spans, s);
    RemovedPages(spans, s);
    RemovedPlaced(spans, s);
    Stretched(spans, s, len, Interval(s, spans[s]), Interval(s + spans[s], len - spans[s]));
  }

  lemma Stretched(spans: map<nat, nat>, s: nat, len: nat, kept: set<nat>, more: set<nat>)
    requires s in spans && WellPlaced(spans - {s}) && 1 <= s && 0 < len && s + len <= PAGES
    requires Interval(s, len) == kept + more && more !! Pages(spans)
    requires kept <= Pages(spans) && Pages(spans - {s}) == Pages(spans) - kept
    ensures WellPlaced(spans[s := len])
    ensures Pages(spans[s := len]) == Pages(spans) + more
  {
    hide *;
    Replace(spans - {s}, s, len);
    assert (spans - {s})[s := len] == spans[s := len];
  }

  lemma Replace(cut: map<nat, nat>, s: nat, len: nat)
    requires WellPlaced(cut) && 1 <= s && 0 < len && s + len <= PAGES && Interval(s, len) !! Pages(cut)
    ensures WellPlaced(cut[s := len])
    ensures Pages(cut[s := len]) == Pages(cut) + Interval(s, len)
  {
    hide Pages, WellPlaced;
    AddedPlaced(cut, s, len);
    AddedPages(cut, s, len);
  }
}
