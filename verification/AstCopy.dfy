/** Copying a syntax tree into one block of memory, measuring it first, and giving the copy's references back. */
module AstCopy {
  import opened Wrappers

  const ZVAL: nat := 64
  const CONSTANT: nat := 65

  // A value that a leaf holds: counted by references, or not.
  datatype Val = Uncounted(n: int) | Counted(id: nat)

  datatype Ast =
    | Leaf(kind: nat, attr: nat, val: Val)
    | Branch(kind: nat, attr: nat, kids: seq<Option<Ast>>)

  // zend_ast_is_list
  predicate IsList(kind: nat)
  {
    kind / 128 % 2 == 1
  }

  // zend_ast_get_num_children
  function NumChildren(kind: nat): nat
  {
    kind / 256
  }

  // Kinds are what they say; declarations and compile-time nodes, kinds 66 to 70, are not copied.
  ghost predicate WellFormed(t: Ast)
  {
    match t
    case Leaf(kind, _, _) => kind == ZVAL || kind == CONSTANT
    case Branch(kind, _, kids) =>
      && !(64 <= kind <= 70) && (IsList(kind) ==> kind < 256) && (!IsList(kind) ==> |kids| == NumChildren(kind))
      && forall i :: 0 <= i < |kids| && kids[i].Some? ==> WellFormed(kids[i].value)
  }

  // sizeof(zend_ast_zval), zend_ast_size and zend_ast_list_size for 64 bits
  const LEAF_SIZE: nat := 24

  function NodeSize(children: nat): nat { 8 + 8 * children }

  function ListSize(children: nat): nat { 16 + 8 * children }

  // n bytes, filled up to what the record behind them is aligned to.
  function Padded(n: nat): nat { (n + 7) / 8 * 8 }

  /** The sizes are those of the records: a kind and an attribute of 2 bytes each, a line number or a count of 4 bytes,
      values of 16 bytes and pointers of 8. */
  lemma RecordSizes(children: nat)
    ensures LEAF_SIZE == Padded(2 + 2) + 16
    ensures NodeSize(children) == Padded(2 + 2 + 4) + 8 * children
    ensures ListSize(children) == Padded(2 + 2 + 4 + 4) + 8 * children
  {}

  function HeaderSize(kind: nat, children: nat): (n: nat)
    ensures 0 < n
  {
    if kind == ZVAL || kind == CONSTANT then LEAF_SIZE
    else if IsList(kind) then ListSize(children)
    else NodeSize(children)
  }

  function TreeSize(t: Ast): (n: nat)
    ensures 0 < n
    decreases t, 1
  {
    match t
    case Leaf(kind, _, _) => LEAF_SIZE
    case Branch(kind, _, kids) => HeaderSize(kind, |kids|) + KidsSize(t, |kids|)
  }

  // The sizes of the first n children.
  function KidsSize(t: Ast, n: nat): nat
    requires t.Branch? && n <= |t.kids|
    decreases t, 0, n
  {
    if n == 0 then 0
    else KidsSize(t, n - 1) + match t.kids[n - 1] case None => 0 case Some(k) => TreeSize(k)
  }

  /** zend_ast_tree_size */
  method MeasureTree(t: Ast) returns (size: nat)
    requires WellFormed(t)
    ensures size == TreeSize(t)
    decreases t
  {
    if t.kind == ZVAL || t.kind == CONSTANT {
      size := LEAF_SIZE;
    } else if IsList(t.kind) {
      size := ListSize(|t.kids|);
      var i := 0;
      while i < |t.kids|
        invariant i <= |t.kids| && size == ListSize(|t.kids|) + KidsSize(t, i)
      {
        if t.kids[i].Some? {
          var n := MeasureTree(t.kids[i].value);
          size := size + n;
        }
        i := i + 1;
      }
    } else {
      var children := NumChildren(t.kind);
      size := NodeSize(children);
      var i := 0;
      while i < children
        invariant i <= children && size == NodeSize(children) + KidsSize(t, i)
      {
        if t.kids[i].Some? {
          var n := MeasureTree(t.kids[i].value);
          size := size + n;
        }
        i := i + 1;
      }
    }
  }

  // ---- the block of memory ----

  // What is written at an address: a leaf, or a header with pointers to children.
  datatype Record =
    | LeafRecord(kind: nat, attr: nat, val: Val)
    | BranchRecord(kind: nat, attr: nat, child: seq<Option<nat>>)

  function RecordSize(r: Record): (n: nat)
    ensures 0 < n
  {
    match r
    case LeafRecord(_, _, _) => LEAF_SIZE
    case BranchRecord(kind, _, child) => HeaderSize(kind, |child|)
  }

  // Where the children lie if the first comes at address at, one behind the other.
  ghost function Places(t: Ast, n: nat, at: nat): seq<Option<nat>>
    requires t.Branch? && n <= |t.kids|
  {
    seq(n, i requires 0 <= i < n => if t.kids[i].Some? then Some(at + KidsSize(t, i)) else None)
  }

  // The records a copy of t at address at consists of.
  ghost function Packed(t: Ast, at: nat): map<nat, Record>
    decreases t, 1
  {
    match t
    case Leaf(kind, attr, val) => map[at := LeafRecord(kind, attr, val)]
    case Branch(kind, attr, kids) =>
      var first := at + HeaderSize(kind, |kids|);
      PackedKids(t, |kids|, first)[at := BranchRecord(kind, attr, Places(t, |kids|, first))]
  }

  // The records of the first n children of t.
  ghost function PackedKids(t: Ast, n: nat, at: nat): map<nat, Record>
    requires t.Branch? && n <= |t.kids|
    decreases t, 0, n
  {
    if n == 0 then map[]
    else
      var before := PackedKids(t, n - 1, at);
      match t.kids[n - 1]
      case None => before
      case Some(k) => before + Packed(k, at + KidsSize(t, n - 1))
  }

  // The counted values of a tree, each as often as it occurs.
  ghost function References(t: Ast): multiset<nat>
    decreases t, 1
  {
    match t
    case Leaf(_, _, Counted(id)) => multiset{id}
    case Leaf(_, _, Uncounted(_)) => multiset{}
    case Branch(_, _, kids) => KidsReferences(t, 0)
  }

  // Those of the children from index n on.
  ghost function KidsReferences(t: Ast, n: nat): multiset<nat>
    requires t.Branch? && n <= |t.kids|
    decreases t, 0, |t.kids| - n
  {
    if n == |t.kids| then multiset{}
    else (match t.kids[n] case None => multiset{} case Some(k) => References(k)) + KidsReferences(t, n + 1)
  }

  class Memory {
    var cells: map<nat, Record>
    ghost var refs: multiset<nat> // the references that are held to counted values

    /** zend_ast_tree_copy: the copy is written from address buf on, and takes a reference to each counted value. */
    method TreeCopy(t: Ast, buf: nat) returns (end: nat)
      requires WellFormed(t)
      modifies this
      ensures end == buf + TreeSize(t)
      ensures cells == old(cells) + Packed(t, buf)
      ensures refs == old(refs) + References(t)
      decreases t, 1
    {
      if t.kind == ZVAL || t.kind == CONSTANT {
        cells := cells[buf := LeafRecord(t.kind, t.attr, t.val)];
        refs := refs + References(t);
        end := buf + LEAF_SIZE;
      } else if IsList(t.kind) {
        end := CopyKids(t, buf, |t.kids|, buf + ListSize(|t.kids|));
      } else {
        var children := NumChildren(t.kind);
        end := CopyKids(t, buf, children, buf + NodeSize(children));
      }
    }

    // The two loops over children, which only differ in how the header tells their number.
    method CopyKids(t: Ast, buf: nat, children: nat, first: nat) returns (end: nat)
      requires WellFormed(t) && t.Branch? && children == |t.kids| && first == buf + HeaderSize(t.kind, children)
      modifies this
      ensures end == buf + TreeSize(t)
      ensures cells == old(cells) + Packed(t, buf)
      ensures refs == old(refs) + References(t)
      decreases t, 0
    {
      hide *;
      var child: seq<Option<nat>> := [];
      end := first;
      NoKids(t, first);
      assert cells == old(cells) + map[];
      var i := 0;
      while i < children
        invariant i <= children && end == first + KidsSize(t, i)
        invariant child == Places(t, i, first)
        invariant cells == old(cells) + PackedKids(t, i, first)
        invariant old(refs) + KidsReferences(t, 0) == refs + KidsReferences(t, i)
      {
        NextKid(t, i, first);
        ghost var held, more := refs, KidsReferences(t, i + 1);
        if t.kids[i].Some? {
          ghost var before := PackedKids(t, i, first);
          var k := t.kids[i].value;
          child := child + [Some(end)];
          end := TreeCopy(k, end);
          assert old(cells) + before + Packed(k, first + KidsSize(t, i))
            == old(cells) + (before + Packed(k, first + KidsSize(t, i)));
          assert held + (References(k) + more) == held + References(k) + more;
        } else {
          child := child + [None];
          assert held + (multiset{} + more) == held + more;
        }
        i := i + 1;
      }
      AllKids(t, buf);
      ghost var kids := PackedKids(t, children, first);
      var root := BranchRecord(t.kind, t.attr, child);
      assert (old(cells) + kids)[buf := root] == old(cells) + kids[buf := root];
      cells := cells[buf := root];
    }

    /** zend_ast_destroy on a tree that is laid out in memory: every reference it took is released. */
    method Destroy(at: Option<nat>, ghost t: Option<Ast>)
      requires at.Some? <==> t.Some?
      requires t.Some? ==> WellFormed(t.value) && Represents(cells, at.value, t.value) && References(t.value) <= refs
      modifies this`refs
      ensures refs == old(refs) - OptionReferences(t)
      decreases if t.Some? then 1 else 0, t, 1
    {
      hide *;
      OptionIs(t);
      if at.None? { return; }
      RepresentedRoot(cells, at.value, t.value);
      var r := cells[at.value];
      if r.kind >= 256 {
        DestroyKids(r.child, t.value);
      } else if r.kind == ZVAL {
        refs := refs - References(t.value);
      } else if IsList(r.kind) {
        if |r.child| > 0 {
          DestroyKids(r.child, t.value);
        }
      } else if r.kind == CONSTANT {
        refs := refs - References(t.value);
      }
    }

    // The children from the second on, and last the first.
    method DestroyKids(child: seq<Option<nat>>, ghost t: Ast)
      requires WellFormed(t) && t.Branch? && 0 < |t.kids| && KidsRepresented(cells, child, t) && References(t) <= refs
      modifies this`refs
      ensures refs == old(refs) - References(t)
      decreases 1, Some(t), 0
    {
      hide *;
      KidsAre(cells, child, t);
      ghost var first := OptionReferences(t.kids[0]);
      FirstKid(t);
      var i := 1;
      while i < |child|
        invariant 1 <= i <= |child| && first + KidsReferences(t, i) <= refs
        invariant refs + KidsReferences(t, 1) == old(refs) + KidsReferences(t, i)
      {
        KidAt(cells, child, t, i);
        ghost var held, more := refs, KidsReferences(t, i + 1);
        Destroy(child[i], t.kids[i]);
        TakenAway(held, OptionReferences(t.kids[i]), first, more, KidsReferences(t, 1), old(refs));
        i := i + 1;
      }
      KidAt(cells, child, t, 0);
      AllKids(t, 0);
      assert first <= refs;
      TakenLast(refs, first, KidsReferences(t, 1), old(refs));
      Destroy(child[0], t.kids[0]);
    }
  }

  ghost function OptionReferences(t: Option<Ast>): multiset<nat>
  {
    match t case None => multiset{} case Some(k) => References(k)
  }

  lemma OptionIs(t: Option<Ast>)
    ensures OptionReferences(t) == match t case None => multiset{} case Some(k) => References(k)
  {}

  // A tree is laid out in memory at an address: its header there, its children where the header says.
  ghost predicate Represents(mem: map<nat, Record>, at: nat, t: Ast)
    decreases t
  {
    at in mem &&
    match t
    case Leaf(kind, attr, val) => mem[at] == LeafRecord(kind, attr, val)
    case Branch(kind, attr, kids) =>
      && mem[at].BranchRecord? && mem[at].kind == kind && mem[at].attr == attr && |mem[at].child| == |kids|
      && forall i :: 0 <= i < |kids| ==>
        (mem[at].child[i].Some? <==> kids[i].Some?)
          && (kids[i].Some? ==> Represents(mem, mem[at].child[i].value, kids[i].value))
  }

  ghost predicate KidsRepresented(mem: map<nat, Record>, child: seq<Option<nat>>, t: Ast)
    requires t.Branch?
  {
    |child| == |t.kids| && forall i :: 0 <= i < |child| ==>
      (child[i].Some? <==> t.kids[i].Some?) && (child[i].Some? ==> Represents(mem, child[i].value, t.kids[i].value))
  }

  lemma KidsAre(mem: map<nat, Record>, child: seq<Option<nat>>, t: Ast)
    requires t.Branch? && KidsRepresented(mem, child, t)
    ensures |child| == |t.kids|
  {}

  lemma RepresentedRoot(mem: map<nat, Record>, at: nat, t: Ast)
    requires WellFormed(t) && Represents(mem, at, t)
    ensures at in mem && mem[at].kind == t.kind && mem[at].attr == t.attr
    ensures t.Leaf? ==> t.kind == ZVAL == 64 || t.kind == CONSTANT == 65
    ensures t.Leaf? ==> !IsList(t.kind)
    ensures t.Branch? ==> mem[at].BranchRecord? && KidsRepresented(mem, mem[at].child, t) && t.kind !in {ZVAL, CONSTANT}
    ensures t.Branch? && t.kind >= 256 ==> 0 < |t.kids|
    ensures t.Branch? && t.kind < 256 && !IsList(t.kind) ==> t.kids == [] && References(t) == multiset{}
    ensures t.Branch? && t.kids == [] ==> References(t) == multiset{}
  {}

  lemma KidAt(mem: map<nat, Record>, child: seq<Option<nat>>, t: Ast, i: nat)
    requires WellFormed(t) && t.Branch? && KidsRepresented(mem, child, t) && i < |child|
    ensures i < |t.kids| && (child[i].Some? <==> t.kids[i].Some?)
    ensures t.kids[i].Some? ==> WellFormed(t.kids[i].value) && Represents(mem, child[i].value, t.kids[i].value)
    ensures KidsReferences(t, i) == OptionReferences(t.kids[i]) + KidsReferences(t, i + 1)
    ensures t.kids[i].Some? ==> OptionReferences(t.kids[i]) == References(t.kids[i].value)
  {
    hide References, Represents;
  }

  lemma FirstKid(t: Ast)
    requires t.Branch? && 0 < |t.kids|
    ensures References(t) == OptionReferences(t.kids[0]) + KidsReferences(t, 1)
  {
    AllKids(t, 0);
    match t.kids[0] {
      case None =>
      case Some(k) =>
    }
    hide References;
  }

  lemma TakenLast(held: multiset<nat>, first: multiset<nat>, others: multiset<nat>, before: multiset<nat>)
    requires held + others == before + multiset{} && first <= held
    ensures held - first == before - (first + others)
  {
    forall x ensures (held - first)[x] == (before - (first + others))[x] {
      assert (held + others)[x] == (before + multiset{})[x] && first[x] <= held[x];
    }
  }

  lemma TakenAway(held: multiset<nat>, gone: multiset<nat>, first: multiset<nat>, more: multiset<nat>,
                  all: multiset<nat>, before: multiset<nat>)
    requires first + (gone + more) <= held && held + all == before + (gone + more)
    ensures first + more <= held - gone && held - gone + all == before + more
  {
    forall x ensures (first + more)[x] <= (held - gone)[x] && (held - gone + all)[x] == (before + more)[x] {
      assert (first + (gone + more))[x] <= held[x] && (held + all)[x] == (before + (gone + more))[x];
    }
  }

  lemma NoKids(t: Ast, first: nat)
    requires t.Branch?
    ensures KidsSize(t, 0) == 0 && Places(t, 0, first) == [] && PackedKids(t, 0, first) == map[]
  {}

  lemma NextKid(t: Ast, i: nat, first: nat)
    requires WellFormed(t) && t.Branch? && i < |t.kids|
    ensures match t.kids[i]
      case None =>
        KidsSize(t, i + 1) == KidsSize(t, i) && Places(t, i + 1, first) == Places(t, i, first) + [None]
        && PackedKids(t, i + 1, first) == PackedKids(t, i, first)
        && KidsReferences(t, i) == multiset{} + KidsReferences(t, i + 1)
      case Some(k) =>
        KidsSize(t, i + 1) == KidsSize(t, i) + TreeSize(k)
        && Places(t, i + 1, first) == Places(t, i, first) + [Some(first + KidsSize(t, i))]
        && PackedKids(t, i + 1, first) == PackedKids(t, i, first) + Packed(k, first + KidsSize(t, i))
        && KidsReferences(t, i) == References(k) + KidsReferences(t, i + 1)
        && WellFormed(k)
  {
    hide TreeSize, Packed, References;
  }

  lemma AllKids(t: Ast, buf: nat)
    requires t.Branch?
    ensures var n, first := |t.kids|, buf + HeaderSize(t.kind, |t.kids|);
      && TreeSize(t) == HeaderSize(t.kind, n) + KidsSize(t, n)
      && Packed(t, buf) == PackedKids(t, n, first)[buf := BranchRecord(t.kind, t.attr, Places(t, n, first))]
      && References(t) == KidsReferences(t, 0) && KidsReferences(t, n) == multiset{}
  {
    hide KidsSize, PackedKids, Places;
  }

  // ---- the copy ----

  // The records lie in [lo, hi), do not overlap, and leave no byte between them.
  ghost predicate Tiles(cells: map<nat, Record>, lo: nat, hi: nat)
  {
    && (forall a :: a in cells ==> lo <= a && a + RecordSize(cells[a]) <= hi)
    && (forall a, b :: a in cells && b in cells && a < b ==> a + RecordSize(cells[a]) <= b)
    && (forall x: nat :: lo <= x < hi ==> Covered(cells, x))
  }

  ghost predicate Covered(cells: map<nat, Record>, x: nat)
  {
    exists a :: a in cells && a <= x < a + RecordSize(cells[a])
  }

  lemma TilesJoin(a: map<nat, Record>, b: map<nat, Record>, lo: nat, mid: nat, hi: nat)
    requires Tiles(a, lo, mid) && Tiles(b, mid, hi) && lo <= mid <= hi
    ensures Tiles(a + b, lo, hi) && a.Keys !! b.Keys && a + b == b + a
  {
    hide RecordSize;
    var c := a + b;
    assert forall k :: k in a ==> k < mid;
    assert forall k :: k in b ==> mid <= k;
    forall x: nat | lo <= x < hi ensures Covered(c, x) {
      if x < mid {
        assert Covered(a, x);
        var k :| k in a && k <= x < k + RecordSize(a[k]);
        assert k in c && c[k] == a[k];
      } else {
        assert Covered(b, x);
        var k :| k in b && k <= x < k + RecordSize(b[k]);
        assert k in c && c[k] == b[k];
      }
    }
  }

  lemma OneTile(at: nat, r: Record)
    ensures Tiles(map[at := r], at, at + RecordSize(r))
  {
    forall x: nat | at <= x < at + RecordSize(r) ensures Covered(map[at := r], x) { assert at in map[at := r]; }
  }

  /** The copy of a tree fills exactly TreeSize bytes: its records lie one behind the other without gaps. */
  lemma {:induction false} PackedTiles(t: Ast, at: nat)
    requires WellFormed(t)
    ensures Tiles(Packed(t, at), at, at + TreeSize(t))
    decreases t, 1
  {
    hide *;
    if t.Leaf? {
      LeafPacked(t, at);
      OneTile(at, LeafRecord(t.kind, t.attr, t.val));
    } else {
      var first, n := at + HeaderSize(t.kind, |t.kids|), |t.kids|;
      var root := BranchRecord(t.kind, t.attr, Places(t, n, first));
      AllKids(t, at);
      PlacesCount(t, n, first);
      OneTile(at, root);
      KidsTile(t, n, first);
      TilesJoin(map[at := root], PackedKids(t, n, first), at, first, first + KidsSize(t, n));
      assert PackedKids(t, n, first)[at := root] == PackedKids(t, n, first) + map[at := root];
    }
  }

  lemma {:induction false} KidsTile(t: Ast, n: nat, first: nat)
    requires WellFormed(t) && t.Branch? && n <= |t.kids|
    ensures Tiles(PackedKids(t, n, first), first, first + KidsSize(t, n))
    decreases t, 0, n
  {
    hide *;
    NoKids(t, first);
    if n == 0 {
      NoTiles(first);
    } else {
      NextKid(t, n - 1, first);
      KidsTile(t, n - 1, first);
      if t.kids[n - 1].Some? {
        var k, mid := t.kids[n - 1].value, first + KidsSize(t, n - 1);
        PackedTiles(k, mid);
        TilesJoin(PackedKids(t, n - 1, first), Packed(k, mid), first, mid, mid + TreeSize(k));
      }
    }
  }

  lemma NoTiles(at: nat)
    ensures Tiles(map[], at, at)
  {}

  lemma LeafPacked(t: Ast, at: nat)
    requires WellFormed(t) && t.Leaf?
    ensures Packed(t, at) == map[at := LeafRecord(t.kind, t.attr, t.val)]
      && TreeSize(t) == RecordSize(LeafRecord(t.kind, t.attr, t.val))
  {}

  lemma PlacesCount(t: Ast, n: nat, first: nat)
    requires t.Branch? && n == |t.kids|
    ensures RecordSize(BranchRecord(t.kind, t.attr, Places(t, n, first))) == HeaderSize(t.kind, n)
  {}

  ghost predicate Within(cells: map<nat, Record>, mem: map<nat, Record>)
  {
    forall a :: a in cells ==> a in mem && mem[a] == cells[a]
  }

  // The records of child i are among those of the first n children.
  lemma {:induction false} KidWithin(t: Ast, i: nat, n: nat, first: nat)
    requires WellFormed(t) && t.Branch? && i < n <= |t.kids| && t.kids[i].Some?
    ensures Within(Packed(t.kids[i].value, first + KidsSize(t, i)), PackedKids(t, n, first))
    decreases n
  {
    hide *;
    NextKid(t, n - 1, first);
    if i == n - 1 {
      WithinSelf(PackedKids(t, n - 1, first), Packed(t.kids[i].value, first + KidsSize(t, i)));
    } else {
      KidWithin(t, i, n - 1, first);
      if t.kids[n - 1].Some? {
        var k, mid := t.kids[n - 1].value, first + KidsSize(t, n - 1);
        KidsTile(t, n - 1, first);
        PackedTiles(k, mid);
        TilesJoin(PackedKids(t, n - 1, first), Packed(k, mid), first, mid, mid + TreeSize(k));
        WithinMore(Packed(t.kids[i].value, first + KidsSize(t, i)), PackedKids(t, n - 1, first), Packed(k, mid));
      }
    }
  }

  lemma WithinSelf(a: map<nat, Record>, b: map<nat, Record>)
    ensures Within(b, a + b)
  {}

  lemma WithinMore(c: map<nat, Record>, a: map<nat, Record>, b: map<nat, Record>)
    requires Within(c, a) && a.Keys !! b.Keys
    ensures Within(c, a + b)
  {}

  lemma WithinTrans(a: map<nat, Record>, b: map<nat, Record>, c: map<nat, Record>)
    requires Within(a, b) && Within(b, c)
    ensures Within(a, c)
  {}

  /** Reading the copy back gives the tree that was copied. */
  lemma {:induction false} CopyRepresents(t: Ast, at: nat, mem: map<nat, Record>)
    requires WellFormed(t) && Within(Packed(t, at), mem)
    ensures Represents(mem, at, t)
    decreases t
  {
    hide *;
    if t.Leaf? {
      LeafPacked(t, at);
      LeafRepresented(t, at, mem);
    } else {
      var first, n := at + HeaderSize(t.kind, |t.kids|), |t.kids|;
      AllKids(t, at);
      KidsWithin(t, at, mem);
      forall i | 0 <= i < n && t.kids[i].Some? ensures Represents(mem, first + KidsSize(t, i), t.kids[i].value) {
        KidWithin(t, i, n, first);
        WithinTrans(Packed(t.kids[i].value, first + KidsSize(t, i)), PackedKids(t, n, first), mem);
        NextKid(t, i, first);
        CopyRepresents(t.kids[i].value, first + KidsSize(t, i), mem);
      }
      BranchRepresented(t, at, mem, first);
    }
  }

  lemma LeafRepresented(t: Ast, at: nat, mem: map<nat, Record>)
    requires t.Leaf? && Within(map[at := LeafRecord(t.kind, t.attr, t.val)], mem)
    ensures Represents(mem, at, t)
  {
    assert at in map[at := LeafRecord(t.kind, t.attr, t.val)];
  }

  lemma KidsWithin(t: Ast, at: nat, mem: map<nat, Record>)
    requires WellFormed(t) && t.Branch? && Within(Packed(t, at), mem)
    ensures var first, n := at + HeaderSize(t.kind, |t.kids|), |t.kids|;
      Within(PackedKids(t, n, first), mem) && at in mem && mem[at] == BranchRecord(t.kind, t.attr, Places(t, n, first))
  {
    hide Packed, PackedKids, KidsSize, TreeSize, Places, Tiles;
    var first, n := at + HeaderSize(t.kind, |t.kids|), |t.kids|;
    AllKids(t, at);
    KidsTile(t, n, first);
    TilesFrom(PackedKids(t, n, first), first, first + KidsSize(t, n));
    assert at in Packed(t, at);
    forall a | a in PackedKids(t, n, first) ensures a in mem && mem[a] == PackedKids(t, n, first)[a] {
      assert a in Packed(t, at) && a != at;
    }
  }

  lemma TilesFrom(cells: map<nat, Record>, lo: nat, hi: nat)
    requires Tiles(cells, lo, hi)
    ensures forall a :: a in cells ==> lo <= a
  {}

  lemma BranchRepresented(t: Ast, at: nat, mem: map<nat, Record>, first: nat)
    requires t.Branch? && at in mem && mem[at] == BranchRecord(t.kind, t.attr, Places(t, |t.kids|, first))
    requires forall i :: 0 <= i < |t.kids| && t.kids[i].Some? ==>
      Represents(mem, first + KidsSize(t, i), t.kids[i].value)
    ensures Represents(mem, at, t)
  {
    hide KidsSize;
  }

  /** Memory holds one tree at an address: what a copy represents can be nothing else than the tree it was made from. */
  lemma {:induction false} ReadUnique(mem: map<nat, Record>, at: nat, t: Ast, u: Ast)
    requires Represents(mem, at, t) && Represents(mem, at, u)
    ensures t == u
    decreases t
  {
    if t.Branch? {
      forall i | 0 <= i < |t.kids| ensures t.kids[i] == u.kids[i] {
        if t.kids[i].Some? { ReadUnique(mem, mem[at].child[i].value, t.kids[i].value, u.kids[i].value); }
      }
      assert t.kids == u.kids;
    }
  }

  /** zend_ast_copy and then zend_ast_destroy on the copy: the block is as large as it was measured, the copy reads back
      as the tree, and all references are as before. */
  method CopyAndDestroy(m: Memory, t: Ast, buf: nat)
    requires WellFormed(t)
    modifies m
    ensures m.cells == old(m.cells) + Packed(t, buf) && Represents(m.cells, buf, t)
    ensures m.refs == old(m.refs)
  {
    hide *;
    var size := MeasureTree(t);
    var end := m.TreeCopy(t, buf);
    assert end == buf + size;
    WithinSelf(old(m.cells), Packed(t, buf));
    CopyRepresents(t, buf, m.cells);
    OptionIs(Some(t));
    m.Destroy(Some(buf), Some(t));
  }
}
