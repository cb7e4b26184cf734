/** The free list of Kernighan and Ritchie's allocator (user/umalloc.c) as values. Addresses and sizes are
    in units of a header. */
module MallocState {

  /** ptr: the link in each header; size: the size in each header; free: the addresses on the free list;
      alloc: the blocks that malloc has handed out; blk: for each cell obtained from sbrk, the block it is
      in. base is the empty block that the list begins with. */
  datatype State = State(base: nat, ptr: map<nat, nat>, size: map<nat, nat>, free: set<nat>, alloc: set<nat>,
                        blk: map<nat, nat>)

  /** The link of free block b goes to the next free block in order of address, or from the last one back
      to base. */
  ghost predicate Linked(s: State, b: nat) {
    && b in s.ptr && s.ptr[b] in s.free && s.base <= b
    && if s.ptr[b] > b then forall x :: x in s.free ==> !(b < x < s.ptr[b])
       else s.ptr[b] == s.base && forall x :: x in s.free ==> x <= b
  }

  ghost predicate Circle(s: State) {
    s.base in s.free && forall b {:trigger Linked(s, b)} :: b in s.free ==> Linked(s, b)
  }

  /** base is empty, no other free block is, and no free block but those in `near` touches the next one. */
  ghost predicate Gaps(s: State, near: set<nat>) {
    && (forall b :: b in s.free ==> b in s.size && b in s.ptr && (s.size[b] == 0 <==> b == s.base))
    && (forall b :: b in s.free && s.ptr[b] > b ==>
       b + s.size[b] <= s.ptr[b] && (b !in near ==> b + s.size[b] != s.ptr[b]))
  }

  ghost predicate Block(s: State, b: nat) { b in s.alloc || (b in s.free && b != s.base) }

  ghost predicate BlockOk(s: State, b: nat) {
    s.base < b && b in s.size && s.size[b] > 0 && forall c :: b <= c < b + s.size[b] ==> c in s.blk && s.blk[c] == b
  }

  ghost predicate CellOk(s: State, c: nat)
    requires c in s.blk
  {
    Block(s, s.blk[c]) && s.blk[c] in s.size && s.blk[c] <= c < s.blk[c] + s.size[s.blk[c]]
  }

  /** The free and the allocated blocks tile the cells: each cell is in the one block that blk says, and
      each block has all its cells. */
  ghost predicate Tiled(s: State) {
    && (forall c {:trigger CellOk(s, c)} :: c in s.blk ==> CellOk(s, c))
    && (forall b {:trigger BlockOk(s, b)} :: Block(s, b) ==> BlockOk(s, b))
    && s.alloc !! s.free
  }

  ghost predicate Inv(s: State) { Circle(s) && Gaps(s, {}) && Tiled(s) }

  // Cells from lo up to hi are in block b now.
  ghost function Move(blk: map<nat, nat>, lo: nat, hi: nat, b: nat): (m: map<nat, nat>)
    ensures m.Keys == blk.Keys && forall c :: c in blk ==> m[c] == if lo <= c < hi then b else blk[c]
  {
    map c | c in blk :: if lo <= c < hi then b else blk[c]
  }

  // ---- Freeing ----

  /** b goes behind p. */
  ghost predicate Behind(s: State, p: nat, b: nat) {
    p in s.free && p in s.ptr && p < b && (b < s.ptr[p] || s.ptr[p] <= p)
  }

  ghost function Insert(s: State, p: nat, b: nat): (s': State)
    requires p in s.ptr
  {
    s.(ptr := s.ptr[b := s.ptr[p]][p := b], free := s.free + {b}, alloc := s.alloc - {b})
  }

  lemma InsertKeeps(s: State, p: nat, b: nat)
    requires Inv(s) && Behind(s, p, b) && b in s.alloc
    ensures Circle(Insert(s, p, b)) && Gaps(Insert(s, p, b), {p, b}) && Tiled(Insert(s, p, b))
  {
    hide Circle, Gaps, Tiled;
    InsertCircle(s, p, b);
    InsertGaps(s, p, b);
    InsertTiles(s, p, b);
  }

  lemma InsertCircle(s: State, p: nat, b: nat)
    requires Inv(s) && Behind(s, p, b) && b in s.alloc
    ensures Circle(Insert(s, p, b))
  {
    hide Gaps;
    var s' := Insert(s, p, b);
    assert Linked(s, p);
    forall x | x in s'.free
      ensures Linked(s', x)
    {
      assert x in s.free ==> Linked(s, x);
    }
  }

  lemma InsertTiles(s: State, p: nat, b: nat)
    requires Inv(s) && Behind(s, p, b) && b in s.alloc
    ensures Tiled(Insert(s, p, b))
  {
    hide Circle, Gaps;
    var s' := Insert(s, p, b);
    assert Block(s, b) && BlockOk(s, b);
    forall x | Block(s', x)
      ensures BlockOk(s', x)
    {
      assert Block(s, x) && BlockOk(s, x);
    }
    forall c | c in s'.blk
      ensures CellOk(s', c)
    {
      assert CellOk(s, c);
    }
  }

  lemma InsertGaps(s: State, p: nat, b: nat)
    requires Inv(s) && Behind(s, p, b) && b in s.alloc
    ensures Gaps(Insert(s, p, b), {p, b})
  {
    assert Block(s, b) && BlockOk(s, b);
    Apart(s, p, b);
    assert Linked(s, p);
    if s.ptr[p] > p {
      Apart(s, b, s.ptr[p]);
    }
  }

  /** Blocks do not overlap. */
  lemma Apart(s: State, a: nat, b: nat)
    requires Tiled(s) && (Block(s, a) || (a == s.base && a in s.size && s.size[a] == 0)) && Block(s, b) && a < b
    ensures a in s.size && a + s.size[a] <= b
  {
    assert BlockOk(s, b) && s.blk[b] == b;
    if Block(s, a) {
      assert BlockOk(s, a);
    }
  }

  /** The free block behind b is made part of b. */
  ghost function Merge(s: State, b: nat): (s': State)
    requires b in s.ptr && b in s.size && s.ptr[b] in s.ptr && s.ptr[b] in s.size
  {
    var n := s.ptr[b];
    s.(ptr := s.ptr[b := s.ptr[n]], size := s.size[b := s.size[b] + s.size[n]], free := s.free - {n},
      blk := Move(s.blk, n, n + s.size[n], b))
  }

  ghost predicate CanMerge(s: State, b: nat, near: set<nat>) {
    && Circle(s) && Gaps(s, near) && Tiled(s) && b in s.free && b != s.base && b in s.ptr && b in s.size && s.ptr[b] > b
    && b + s.size[b] == s.ptr[b]
  }

  lemma MergeKeeps(s: State, b: nat, near: set<nat>)
    requires CanMerge(s, b, near) && s.ptr[b] !in near
    ensures s.ptr[b] in s.ptr && s.ptr[b] in s.size
    ensures Circle(Merge(s, b)) && Gaps(Merge(s, b), near - {b}) && Tiled(Merge(s, b))
  {
    assert Linked(s, b);
    MergeCircle(s, b, near);
    MergeGaps(s, b, near);
    MergeTiles(s, b, near);
  }

  lemma MergeCircle(s: State, b: nat, near: set<nat>)
    requires CanMerge(s, b, near) && s.ptr[b] in s.ptr && s.ptr[b] in s.size
    ensures Circle(Merge(s, b))
  {
    hide Gaps, Tiled;
    var n, s' := s.ptr[b], Merge(s, b);
    assert Linked(s, b) && Linked(s, n);
    forall x | x in s'.free
      ensures Linked(s', x)
    {
      assert Linked(s, x);
    }
  }

  lemma MergeGaps(s: State, b: nat, near: set<nat>)
    requires CanMerge(s, b, near) && s.ptr[b] in s.ptr && s.ptr[b] in s.size && s.ptr[b] !in near
    ensures Gaps(Merge(s, b), near - {b})
  {
    hide Tiled;
    assert Linked(s, b) && Linked(s, s.ptr[b]);
  }

  lemma MergeTiles(s: State, b: nat, near: set<nat>)
    requires CanMerge(s, b, near) && s.ptr[b] in s.ptr && s.ptr[b] in s.size
    ensures Tiled(Merge(s, b))
  {
    var n, s' := s.ptr[b], Merge(s, b);
    assert Linked(s, b);
    assert Block(s, b) && Block(s, n) && BlockOk(s, b) && BlockOk(s, n);
    forall x | Block(s', x)
      ensures BlockOk(s', x)
    {
      assert Block(s, x) && BlockOk(s, x);
      forall c | x <= c < x + s'.size[x]
        ensures c in s'.blk && s'.blk[c] == x
      {
        assert c in s.blk && s.blk[c] == if x == b && c >= n then n else x;
      }
    }
    forall c | c in s'.blk
      ensures CellOk(s', c)
    {
      assert CellOk(s, c);
    }
  }

  // b put behind p, and merged with the block after it if they touch.
  ghost function Once(s: State, p: nat, b: nat): (s': State)
    requires Inv(s) && Behind(s, p, b) && b in s.alloc
  {
    InsertKeeps(s, p, b);
    var s1 := Insert(s, p, b);
    assert Linked(s1, b);
    if s1.ptr[b] > b && b + s1.size[b] == s1.ptr[b] then assert Linked(s1, s1.ptr[b]); Merge(s1, b) else s1
  }

  lemma OnceKeeps(s: State, p: nat, b: nat)
    requires Inv(s) && Behind(s, p, b) && b in s.alloc
    ensures var s2 := Once(s, p, b);
            && Circle(s2) && Gaps(s2, {p}) && Tiled(s2) && b in s2.free && p in s2.free && s2.alloc == s.alloc - {b}
               && s2.blk.Keys == s.blk.Keys
            && s2.base == s.base && p in s2.ptr && s2.ptr[p] == b
            && (forall x :: x in s.size && x != b ==> x in s2.size && s2.size[x] == s.size[x])
            && b in s.size && b in s2.size && s2.size[b] >= s.size[b]
  {
    InsertKeeps(s, p, b);
    var s1 := Insert(s, p, b);
    assert Linked(s1, b) && BlockOk(s, b);
    if s1.ptr[b] > b && b + s1.size[b] == s1.ptr[b] {
      assert Linked(s1, s1.ptr[b]);
      MergeKeeps(s1, b, {p, b});
    }
  }

  /** free(b): behind p, merged with the block after it and with p if they touch. */
  ghost function Freed(s: State, p: nat, b: nat): (s': State)
    requires Inv(s) && Behind(s, p, b) && b in s.alloc
  {
    OnceKeeps(s, p, b);
    var s2 := Once(s, p, b);
    if p + s2.size[p] == b then assert Linked(s2, b); Merge(s2, p) else s2
  }

  /** Some free block has n units. */
  ghost predicate Room(s: State, n: nat) { exists x :: x in s.free && x in s.size && s.size[x] >= n }

  /** Freeing keeps the list in order, leaves no two free blocks that touch, and moves no cell of another
      allocated block. */
  lemma FreedKeeps(s: State, p: nat, b: nat)
    requires Inv(s) && Behind(s, p, b) && b in s.alloc
    ensures var s' := Freed(s, p, b);
            && Inv(s') && p in s'.free && s'.alloc == s.alloc - {b} && s'.blk.Keys == s.blk.Keys && s'.base == s.base
            && (forall x :: x in s.alloc && x != b ==> x in s'.size && x in s.size && s'.size[x] == s.size[x])
            && b in s.size && Room(s', s.size[b])
  {
    hide Insert, Once;
    OnceKeeps(s, p, b);
    var s2 := Once(s, p, b);
    assert forall x :: x in s.alloc ==> x in s.size by { AllocSized(s); }
    assert Linked(s2, b);
    if p + s2.size[p] == b {
      MergeKeeps(s2, p, {p});
      assert Freed(s, p, b).size[p] >= s.size[b];
    }
  }

  lemma AllocSized(s: State)
    requires Tiled(s)
    ensures forall x :: x in s.alloc ==> x in s.size
  {
    forall x | x in s.alloc
      ensures x in s.size
    {
      assert Block(s, x) && BlockOk(s, x);
    }
  }

  // ---- Allocating ----

  /** malloc takes block p, which prev links to, off the list. */
  ghost function Unlinked(s: State, prev: nat, p: nat): (s': State)
    requires p in s.ptr
  {
    s.(ptr := s.ptr[prev := s.ptr[p]], free := s.free - {p}, alloc := s.alloc + {p})
  }

  lemma UnlinkedKeeps(s: State, prev: nat, p: nat)
    requires Inv(s) && prev in s.free && prev in s.ptr && s.ptr[prev] == p && p in s.ptr && p in s.size && s.size[p] > 0
    ensures Inv(Unlinked(s, prev, p)) && prev in Unlinked(s, prev, p).free
  {
    hide Tiled;
    assert Linked(s, prev) && Linked(s, p);
    var s' := Unlinked(s, prev, p);
    assert p != s.base && prev != p by { OtherThan(s, prev, p); }
    forall x | x in s'.free
      ensures Linked(s', x)
    {
      assert Linked(s, x);
    }
    UnlinkedTiles(s, prev, p);
  }

  lemma OtherThan(s: State, prev: nat, p: nat)
    requires Circle(s) && Gaps(s, {}) && prev in s.free && prev in s.ptr && s.ptr[prev] == p && p in s.size
             && s.size[p] > 0
    ensures p in s.free && p != s.base && p > prev
  {
    assert Linked(s, prev);
  }

  lemma UnlinkedTiles(s: State, prev: nat, p: nat)
    requires Tiled(s) && p in s.free && p != s.base && p in s.ptr
    ensures Tiled(Unlinked(s, prev, p))
  {
    var s' := Unlinked(s, prev, p);
    forall x | Block(s', x)
      ensures BlockOk(s', x)
    {
      assert Block(s, x) && BlockOk(s, x);
    }
    forall c | c in s'.blk
      ensures CellOk(s', c)
    {
      assert CellOk(s, c);
    }
  }

  /** malloc takes the last n units of block p. */
  ghost function Carved(s: State, p: nat, n: nat): (s': State)
    requires p in s.size && n < s.size[p]
  {
    var q := p + s.size[p] - n;
    s.(size := s.size[p := s.size[p] - n][q := n], alloc := s.alloc + {q}, blk := Move(s.blk, q, q + n, q))
  }

  lemma CarvedKeeps(s: State, p: nat, n: nat)
    requires Inv(s) && p in s.free && p in s.size && 0 < n < s.size[p]
    ensures Inv(Carved(s, p, n)) && p + s.size[p] - n !in s.alloc
  {
    hide Circle;
    var s', q := Carved(s, p, n), p + s.size[p] - n;
    assert Block(s, p) && BlockOk(s, p) && s.blk[q] == p;
    NotInside(s, p, q);
    CarvedCircle(s, s');
    CarvedTiles(s, p, n);
  }

  lemma NotInside(s: State, p: nat, q: nat)
    requires Tiled(s) && q in s.blk && s.blk[q] == p && p < q
    ensures !Block(s, q)
  {
    assert s.blk[q] != q;
    assert Block(s, q) ==> BlockOk(s, q);
  }

  lemma CarvedCircle(s: State, s': State)
    requires Circle(s) && s'.base == s.base && s'.ptr == s.ptr && s'.free == s.free
    ensures Circle(s')
  {
    forall x | x in s'.free
      ensures Linked(s', x)
    {
      assert Linked(s, x);
    }
  }

  lemma CarvedTiles(s: State, p: nat, n: nat)
    requires Tiled(s) && p in s.free && p != s.base && p in s.size && 0 < n < s.size[p]
    ensures Tiled(Carved(s, p, n))
  {
    var s', q := Carved(s, p, n), p + s.size[p] - n;
    assert Block(s, p) && BlockOk(s, p) && s.blk[q] == p;
    NotInside(s, p, q);
    forall x | Block(s', x)
      ensures BlockOk(s', x)
    {
      CarvedBlock(s, p, n, x);
    }
    forall c | c in s'.blk
      ensures CellOk(s', c)
    {
      assert CellOk(s, c);
    }
  }

  lemma CarvedBlock(s: State, p: nat, n: nat, x: nat)
    requires Tiled(s) && p in s.free && p != s.base && p in s.size && 0 < n < s.size[p] && Block(Carved(s, p, n), x)
    ensures BlockOk(Carved(s, p, n), x)
  {
    var s', q := Carved(s, p, n), p + s.size[p] - n;
    assert Block(s, p) && BlockOk(s, p);
    assert x != q ==> Block(s, x) && BlockOk(s, x);
    forall c | x <= c < x + s'.size[x]
      ensures c in s'.blk && s'.blk[c] == x
    {
      assert x != q ==> c in s.blk && s.blk[c] == x;
      assert x == q ==> c in s.blk && s.blk[c] == p;
    }
  }

  ghost function Cells(a: nat, n: nat): (r: set<nat>)
    ensures forall c :: c in r <==> a <= c < a + n
  {
    if n == 0 then {} else Cells(a, n - 1) + {a + n - 1}
  }

  ghost function Extend(blk: map<nat, nat>, a: nat, n: nat): (m: map<nat, nat>)
    ensures forall c :: c in m <==> c in blk || a <= c < a + n
    ensures forall c :: c in m ==> m[c] == if a <= c < a + n then a else blk[c]
  {
    map c | c in blk.Keys + Cells(a, n) :: if a <= c < a + n then a else blk[c]
  }

  /** sbrk has given n units from a on, as an allocated block for now. */
  ghost function Obtained(s: State, a: nat, n: nat): (s': State) {
    s.(size := s.size[a := n], alloc := s.alloc + {a}, blk := Extend(s.blk, a, n))
  }

  lemma ObtainedKeeps(s: State, a: nat, n: nat)
    requires Inv(s) && n > 0 && s.base < a && forall c :: c in s.blk ==> c < a
    ensures Inv(Obtained(s, a, n)) && a !in s.alloc && a !in s.free
  {
    hide Circle, Tiled, Extend;
    var s' := Obtained(s, a, n);
    NotYet(s, a);
    CarvedCircle(s, s');
    ObtainedTiles(s, a, n);
  }

  lemma ObtainedTiles(s: State, a: nat, n: nat)
    requires Tiled(s) && n > 0 && s.base < a && !Block(s, a) && a !in s.free && forall c :: c in s.blk ==> c < a
    ensures Tiled(Obtained(s, a, n))
  {
    hide Extend;
    var s' := Obtained(s, a, n);
    forall x | Block(s', x)
      ensures BlockOk(s', x)
    {
      assert x != a ==> Block(s, x) && BlockOk(s, x);
      forall c | x <= c < x + s'.size[x]
        ensures c in s'.blk && s'.blk[c] == x
      {
        assert x != a ==> c in s.blk && s.blk[c] == x;
      }
    }
    forall c | c in s'.blk
      ensures CellOk(s', c)
    {
      assert c in s.blk ==> CellOk(s, c);
    }
  }

  lemma NotYet(s: State, a: nat)
    requires Tiled(s) && s.base < a && forall c :: c in s.blk ==> c < a
    ensures !Block(s, a) && a !in s.free
  {
    assert Block(s, a) ==> BlockOk(s, a) && a in s.blk;
  }
}
