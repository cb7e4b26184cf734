/** malloc and free (user/umalloc.c; section 8.7 of Kernighan and Ritchie, The C Programming Language, 2nd
    edition). A pointer to a header is the address of a unit; a pointer that malloc returns is the one
    after it. 0 is the null pointer. */
module Malloc {
  import opened Wrappers
  import opened MallocState

  const UNIT := 16 // sizeof(Header)
  const INT := 0x8000_0000

  /** How a 64-bit number arrives in an int. */
  function Int32(x: nat): (n: int) {
    var y := x % (2 * INT);
    if y < INT then y else y - 2 * INT
  }

  function Units(nbytes: nat): (n: nat) { (nbytes + UNIT - 1) / UNIT + 1 }

  function Request(nu: nat): (n: nat) { if nu < 4096 then 4096 else nu }

  /** The number of bytes that morecore asks for arrives at sbrk as it is exactly if malloc was asked for
      at most 2 GB minus two headers. */
  lemma RequestArrives(nbytes: nat)
    requires nbytes < 2 * INT
    ensures Int32(Request(Units(nbytes)) * UNIT) == Request(Units(nbytes)) * UNIT <==> nbytes <= INT - 2 * UNIT
  {
    var u := Units(nbytes);
    assert u * UNIT < INT <==> nbytes <= INT - 2 * UNIT;
    assert u * UNIT <= 2 * INT + UNIT;
  }

  // A number of units is one even after it is cut to an int.
  lemma Aligned(n: nat)
    ensures Int32(n * UNIT) >= 0 ==> Int32(n * UNIT) % UNIT == 0
  {
  }

  class Heap {
    const base: nat // &base
    var ptr: map<nat, nat>
    var size: map<nat, nat>
    var freep: nat
    var brk: nat
    ghost var free: set<nat>
    ghost var alloc: set<nat>
    ghost var blk: map<nat, nat>
    ghost var refusals: nat // how often sbrk has refused

    ghost function S(): (s: State)
      reads this
    {
      State(base, ptr, size, free, alloc, blk)
    }

    ghost predicate Valid()
      reads this
    {
      && 0 < base < brk && (forall c :: c in blk ==> c < brk)
      && if freep == 0 then free == {} && alloc == {} && blk == map[] else freep in free && Inv(S())
    }

    constructor (base: nat, brk: nat)
      requires 0 < base < brk
      ensures Valid() && alloc == {} && blk == map[]
    {
      this.base, this.brk := base, brk;
      ptr, size, freep := map[], map[], 0;
      free, alloc, blk, refusals := {}, {}, map[], 0;
    }

    /** free: the search ends, and the block is on the list in its place, merged with its neighbours if
        they are free. */
    method Free(ap: nat)
      requires Valid() && ap > 0 && ap - 1 in alloc
      modifies this`ptr, this`size, this`freep, this`free, this`alloc, this`blk
      ensures Valid() && freep != 0 && alloc == old(alloc) - {ap - 1} && blk.Keys == old(blk).Keys
      ensures forall x :: x in alloc ==> x in size && x in old(size) && size[x] == old(size)[x]
      ensures ap - 1 in old(size) && Room(S(), old(size)[ap - 1])
    {
      hide Circle, Gaps, Tiled, Freed, Once, Room, Linked;
      var b := ap - 1;
      ghost var s := S();
      var p := FindPlace(b);
      Found(s, p, b);
      FreedKeeps(s, p, b);
      Relink(p, b);
      SameState(s, p, b, ptr, size);
      ghost var s' := Freed(s, p, b);
      free, alloc, blk := s'.free, s'.alloc, s'.blk;
      freep := p;
    }

    // The assignments of free() once p is found.
    method Relink(p: nat, b: nat)
      requires p in ptr && p in size && b in size && ptr[p] in ptr && ptr[p] in size && p != b && ptr[p] != b
      modifies this`ptr, this`size
      ensures var n := old(ptr)[p];
              var up := b + old(size)[b] == n;
              && size == Lower(p, b, old(size)[b := old(size)[b] + if up then old(size)[n] else 0])
              && ptr == old(ptr)[b := if up then old(ptr)[n] else n][p := if p + old(size)[p] == b
                 then (if up then old(ptr)[n] else n) else b]
    {
      var n := ptr[p];
      if b + size[b] == n {
        size, ptr := size[b := size[b] + size[n]], ptr[b := ptr[n]];
      } else {
        ptr := ptr[b := n];
      }
      if p + size[p] == b {
        size, ptr := size[p := size[p] + size[b]], ptr[p := ptr[b]];
      } else {
        ptr := ptr[p := b];
      }
    }

    // The search of free().
    method FindPlace(b: nat) returns (p: nat)
      requires Valid() && b in alloc
      ensures p in free && p in ptr && ((b > p && b < ptr[p]) || (p >= ptr[p] && (b > p || b < ptr[p])))
    {
      hide Circle, Gaps, Tiled;
      ghost var s := S();
      InList(s, freep);
      p := freep;
      while !(b > p && b < ptr[p])
        invariant p in free && p in ptr
        decreases Ahead(s, p, b)
      {
        InList(s, p);
        if p >= ptr[p] && (b > p || b < ptr[p]) {
          break;
        }
        Closer(s, p, b);
        InList(s, ptr[p]);
        p := ptr[p];
      }
    }

    /** sbrk(n): it may refuse; otherwise the heap ends n bytes later, if n is not negative. Other calls of
        sbrk may have left a gap before. */
    method Sbrk(n: int) returns (a: Option<nat>)
      requires n >= 0 ==> n % UNIT == 0
      modifies this`brk, this`refusals
      ensures a.None? ==> brk == old(brk)
      ensures a.Some? ==> old(brk) <= a.value && brk == a.value + if n >= 0 then n / UNIT else 0
      ensures refusals == old(refusals) + if a.None? then 1 else 0
    {
      var refused: bool := *;
      if refused {
        refusals := refusals + 1;
        return None;
      }
      var gap: nat :| true;
      a := Some(brk + gap);
      brk := brk + gap + if n >= 0 then n / UNIT else 0;
    }

    /** morecore: a free block of that many units, if sbrk gives the memory. `bad` says that sbrk was asked
        for something else than what goes into the header. */
    method MoreCore(nu: nat) returns (bad: bool, p: nat)
      requires Valid() && freep != 0 && 0 < nu < 2 * INT
      modifies this
      ensures bad ==> Int32(Request(nu) * UNIT) != Request(nu) * UNIT
      ensures !bad ==> Valid() && p == (if p == 0 then 0 else freep) && alloc == old(alloc)
      ensures !bad && p == 0 ==> S() == old(S()) && freep == old(freep)
      ensures !bad ==> refusals == old(refusals) + if p == 0 then 1 else 0
      ensures !bad && p != 0 ==> old(blk).Keys <= blk.Keys && Room(S(), nu)
      ensures !bad ==> forall x :: x in alloc ==> x in size && x in old(size) && size[x] == old(size)[x]
    {
      hide Circle, Gaps, Tiled, Int32, Room;
      ghost var s := S();
      AllocSized(s);
      var n := Request(nu);
      Aligned(n);
      var a := Sbrk(Int32(n * UNIT));
      if a.None? {
        return false, 0;
      }
      if Int32(n * UNIT) != n * UNIT {
        return true, 0;
      }
      var h := a.value;
      ObtainedKeeps(s, h, n);
      size := size[h := n];
      alloc, blk := alloc + {h}, Obtained(s, h, n).blk;
      assert S() == Obtained(s, h, n);
      Free(h + 1);
      Enough(S(), n, nu);
      bad, p := false, freep;
    }

    // Block p, or the end of it, leaves the list.
    method Take(prevp: nat, p: nat, nunits: nat) returns (q: nat, r: nat)
      requires Valid() && freep != 0 && prevp in free && prevp in ptr && ptr[prevp] == p && p in size && p in ptr
               && 0 < nunits <= size[p]
      modifies this`ptr, this`size, this`free, this`alloc, this`blk
      ensures q == prevp && q in free && Inv(S()) && r > 0 && r - 1 !in old(alloc) && alloc == old(alloc) + {r - 1}
              && blk.Keys == old(blk).Keys
      ensures r - 1 in size && size[r - 1] == nunits
      ensures forall x :: x in old(alloc) ==> x in size && x in old(size) && size[x] == old(size)[x]
    {
      hide Circle, Gaps, Tiled;
      ghost var s := S();
      AllocSized(s);
      OtherThan(s, prevp, p);
      q := prevp;
      if size[p] == nunits {
        UnlinkedKeeps(s, prevp, p);
        Disjoint(s, p);
        ptr := ptr[prevp := ptr[p]];
        free, alloc := free - {p}, alloc + {p};
        r := p + 1;
      } else {
        CarvedKeeps(s, p, nunits);
        Disjoint(s, p);
        ghost var s' := Carved(s, p, nunits);
        size := size[p := size[p] - nunits];
        var t := p + size[p];
        size := size[t := nunits];
        alloc, blk := s'.alloc, s'.blk;
        r := t + 1;
      }
    }

    /** malloc. If it returns a pointer, the block is new, has room for nbytes, and no allocated block has
        changed. It returns 0 only if no free block has room and sbrk refused. The search ends. `bad` is as
        in morecore. */
    method Malloc(nbytes: nat) returns (bad: bool, r: nat)
      requires Valid() && nbytes < 2 * INT
      modifies this
      ensures bad ==> nbytes > INT - 2 * UNIT
      ensures !bad ==> Valid() && freep != 0 && old(blk).Keys <= blk.Keys
      ensures !bad ==> forall x :: x in old(alloc) ==> x in size && x in old(size) && size[x] == old(size)[x]
      ensures !bad ==> refusals == old(refusals) + if r == 0 then 1 else 0
      ensures !bad && r == 0 ==>
              alloc == old(alloc) && blk == old(blk) && forall x :: x in free ==> x in size && size[x] < Units(nbytes)
      ensures !bad && r != 0 ==> r - 1 !in old(alloc) && alloc == old(alloc) + {r - 1}
      ensures !bad && r != 0 ==> r - 1 in size && size[r - 1] == Units(nbytes) && size[r - 1] * UNIT >= UNIT + nbytes
    {
      hide Circle, Gaps, Tiled, Linked, Left, Room;
      var nunits := Units(nbytes);
      RequestArrives(nbytes);
      if freep != 0 {
        AllocSized(S());
      }
      if freep == 0 {
        ptr, freep, size := ptr[base := base], base, size[base := 0];
        free := {base};
        OnlyBase(S());
      }
      label Start:
      var prevp := freep;
      InList(S(), prevp);
      var p := ptr[prevp];
      AllLeft(S(), freep);
      ghost var grew := false;
      while true
        invariant refusals == old(refusals) && Valid() && freep != 0 && prevp in free && prevp in ptr
                  && ptr[prevp] == p && alloc == old(alloc) && old(blk).Keys <= blk.Keys
        invariant !grew ==> S() == old@Start(S()) && freep == old@Start(freep)
        invariant forall x :: x in free && x !in Left(S(), freep, p) ==> x in size && size[x] < nunits
        invariant grew ==> Room(S(), nunits)
        invariant forall x :: x in alloc ==> x in size && x in old(size) && size[x] == old(size)[x]
        decreases !grew, Left(S(), freep, p)
      {
        InList(S(), prevp);
        InList(S(), p);
        if size[p] >= nunits {
          prevp, r := Take(prevp, p, nunits);
          freep := prevp;
          return false, r;
        }
        if p == freep {
          LastOne(S(), p);
          NoRoom(S(), nunits);
          assert !grew;
          bad, p := MoreCore(nunits);
          if bad || p == 0 {
            return bad, 0;
          }
          grew := true;
          prevp := p;
          InList(S(), p);
          p := ptr[p];
          AllLeft(S(), freep);
        } else {
          FewerLeft(S(), freep, p);
          prevp, p := p, ptr[p];
        }
      }
    }
  }

  // The free blocks from p round to q, which the search for room has not come to yet.
  ghost function Left(s: State, q: nat, p: nat): (r: set<nat>) {
    if p <= q then set x | x in s.free && p <= x <= q else set x | x in s.free && (x >= p || x <= q)
  }

  lemma Disjoint(s: State, p: nat)
    requires Tiled(s) && p in s.free
    ensures p !in s.alloc
  {
  }

  lemma OnlyBase(s: State)
    requires s.free == {s.base} && s.base in s.ptr && s.ptr[s.base] == s.base && s.base in s.size
             && s.size[s.base] == 0 && s.alloc == {} && s.blk == map[]
    ensures Inv(s)
  {
    assert Linked(s, s.base);
  }

  lemma AllLeft(s: State, q: nat)
    requires Circle(s) && q in s.free
    ensures q in s.ptr && Left(s, q, s.ptr[q]) == s.free
  {
    assert Linked(s, q);
    FromBase(s);
  }

  lemma FromBase(s: State)
    requires Circle(s)
    ensures forall x :: x in s.free ==> s.base <= x
  {
    forall x | x in s.free
      ensures s.base <= x
    {
      assert Linked(s, x);
    }
  }

  lemma LastOne(s: State, q: nat)
    ensures Left(s, q, q) <= {q}
  {
  }

  lemma FewerLeft(s: State, q: nat, p: nat)
    requires Circle(s) && q in s.free && p in s.free && p != q
    ensures p in s.ptr && Left(s, q, s.ptr[p]) == Left(s, q, p) - {p} && p in Left(s, q, p)
  {
    assert Linked(s, p) && Linked(s, q);
    FromBase(s);
  }

  lemma NoRoom(s: State, n: nat)
    requires forall x :: x in s.free ==> x in s.size && s.size[x] < n
    ensures !Room(s, n)
  {
  }

  lemma Enough(s: State, n: nat, m: nat)
    requires Room(s, n) && m <= n
    ensures Room(s, m)
  {
    var x :| x in s.free && x in s.size && s.size[x] >= n;
    assert s.size[x] >= m;
  }

  // The free blocks that a search for b's place at p may still come to.
  ghost function Ahead(s: State, p: nat, b: nat): (r: set<nat>) {
    if p < b then set x | x in s.free && p < x < b else set x | x in s.free && (x > p || x < b)
  }

  lemma InList(s: State, p: nat)
    requires Circle(s) && Gaps(s, {}) && p in s.free
    ensures Linked(s, p) && p in s.ptr && s.ptr[p] in s.free && p in s.size
  {
    assert Linked(s, p);
  }

  // An allocated block is neither base nor on the list.
  lemma NotFree(s: State, b: nat)
    requires Inv(s) && b in s.alloc
    ensures b !in s.free && b > s.base && b in s.size && s.size[b] > 0
  {
    assert Block(s, b) && BlockOk(s, b);
  }

  lemma Closer(s: State, p: nat, b: nat)
    requires Inv(s) && p in s.free && p in s.ptr && b in s.alloc && !(b > p && b < s.ptr[p])
             && !(p >= s.ptr[p] && (b > p || b < s.ptr[p]))
    ensures Ahead(s, s.ptr[p], b) < Ahead(s, p, b)
  {
    assert Linked(s, p);
    NotFree(s, b);
    assert s.ptr[p] in Ahead(s, p, b) && s.ptr[p] !in Ahead(s, s.ptr[p], b);
  }

  lemma Found(s: State, p: nat, b: nat)
    requires Inv(s) && p in s.free && p in s.ptr && b in s.alloc
    requires (b > p && b < s.ptr[p]) || (p >= s.ptr[p] && (b > p || b < s.ptr[p]))
    ensures Behind(s, p, b) && Linked(s, p) && p in s.size && b in s.size && s.size[b] > 0 && s.ptr[p] in s.ptr
            && s.ptr[p] in s.size && b !in s.free && p != b && s.ptr[p] != b
  {
    assert Linked(s, p) && Linked(s, s.ptr[p]);
    NotFree(s, b);
  }

  // Block b, of size size[b], made part of p if they touch.
  ghost function Lower(p: nat, b: nat, size: map<nat, nat>): (r: map<nat, nat>)
    requires p in size && b in size
  {
    if p + size[p] == b then size[p := size[p] + size[b]] else size
  }

  lemma SameState(s: State, p: nat, b: nat, ptr: map<nat, nat>, size: map<nat, nat>)
    requires Inv(s) && Behind(s, p, b) && b in s.alloc && b in s.size && s.size[b] > 0 && p in s.size
             && s.ptr[p] in s.ptr && s.ptr[p] in s.size
    requires p != b && s.ptr[p] != b
    requires var n := s.ptr[p];
             var up := b + s.size[b] == n;
             && size == Lower(p, b, s.size[b := s.size[b] + if up then s.size[n] else 0])
             && ptr == s.ptr[b := if up then s.ptr[n] else n][p := if p + s.size[p] == b
                then (if up then s.ptr[n] else n) else b]
    ensures Freed(s, p, b).ptr == ptr && Freed(s, p, b).size == size
  {
    hide Circle, Gaps, Tiled, Freed, Once;
    FirstHalf(s, p, b);
    SecondHalf(s, p, b);
  }

  // The first two assignments of free(), and the other two.
  lemma FirstHalf(s: State, p: nat, b: nat)
    requires Inv(s) && Behind(s, p, b) && b in s.alloc && b in s.size && s.size[b] > 0 && s.ptr[p] in s.ptr
             && s.ptr[p] in s.size
    requires p != b && s.ptr[p] != b
    ensures var n := s.ptr[p];
            var up := b + s.size[b] == n;
            && Once(s, p, b).size == (if up then s.size[b := s.size[b] + s.size[n]] else s.size)
            && Once(s, p, b).ptr == (if up then s.ptr[b := s.ptr[n]] else s.ptr[b := n])[p := b]
  {
    hide Circle, Gaps, Tiled;
    var n := s.ptr[p];
    InsertKeeps(s, p, b);
    var s1 := Insert(s, p, b);
    assert s1.ptr[b] == n && s1.size == s.size;
    if b + s.size[b] == n {
      assert Once(s, p, b) == Merge(s1, b);
      assert s.ptr[b := n][p := b][b := s.ptr[n]] == s.ptr[b := s.ptr[n]][p := b];
    } else {
      assert Once(s, p, b) == s1;
    }
  }

  lemma SecondHalf(s: State, p: nat, b: nat)
    requires Inv(s) && Behind(s, p, b) && b in s.alloc
    ensures var s2 := Once(s, p, b);
            && p in s2.size && b in s2.size && b in s2.ptr && p in s2.ptr
            && Freed(s, p, b).size == (if p + s2.size[p] == b then s2.size[p := s2.size[p] + s2.size[b]] else s2.size)
            && Freed(s, p, b).ptr == (if p + s2.size[p] == b then s2.ptr[p := s2.ptr[b]] else s2.ptr)
  {
    hide Once, Tiled;
    OnceKeeps(s, p, b);
    assert Linked(Once(s, p, b), b);
  }
}
