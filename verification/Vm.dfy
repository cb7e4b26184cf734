/** Page allocation and page tables (kernel/kalloc.c, kernel/vm.c). A page-table entry is the pair of the
    page-table page it is in and its index there; 0 stands for a null pointer. */
module Vm {
  import opened VmState
  import opened VmFree

  class Vm {
    const start: nat // the first page after the kernel
    var mem: seq<Page>
    var head: nat // kmem.freelist
    ghost var own: seq<Owner>
    ghost var free: seq<nat>
    ghost var misses: nat // how often kalloc has found no page

    ghost function V(): (v: View)
      reads this
    {
      View(start, mem, own, head, free)
    }

    /** kinit: freerange gives every page from start to stop to the free list. */
    constructor (start: nat, stop: nat)
      requires 0 < start <= stop <= TRAPFRAME && stop <= start + RAM
      ensures this.start == start && |own| == stop && Good(V()) && |free| == stop - start
      ensures forall p :: start <= p < stop ==> own[p].Free?
    {
      this.start := start;
      mem := seq(stop, _ => Junk);
      own := seq(stop, p => if p < start then Kernel else Held);
      head, free, misses := 0, [], 0;
      new;
      var p := start;
      while p + 1 <= stop
        invariant start <= p <= stop && |mem| == |own| == stop && |free| == p - start && this.start == start
        invariant FreeOk(mem, own, head, free)
        invariant forall q :: 0 <= q < stop ==>
                  if q < start then own[q] == Kernel else if q < p then own[q].Free? else own[q] == Held
      {
        ghost var v := V();
        var panicked := Kfree(p);
        p := p + 1;
      }
    }

    /** kfree; `panicked` is its check that the page is one of those it manages. */
    method Kfree(p: nat) returns (panicked: bool)
      requires FreeOk(mem, own, head, free) && p < |own| && !own[p].Free? && 0 < start
      modifies this`mem, this`head, this`own, this`free
      ensures panicked <==> p < start
      ensures V() == if panicked then old(V()) else Released(old(V()), p)
      ensures FreeOk(mem, own, head, free)
    {
      if p < start {
        return true;
      }
      ReleasedFree(V(), p);
      mem := mem[p := Run(head)]; // r->next
      own, free := own[p := Free(|free|)], free + [p];
      head := p;
      panicked := false;
    }

    /** kalloc: the head of the free list, or 0 if it is empty. */
    method Kalloc() returns (p: nat)
      requires FreeOk(mem, own, head, free)
      modifies this`mem, this`head, this`own, this`free, this`misses
      ensures p == 0 <==> |old(free)| == 0
      ensures p == 0 ==> V() == old(V())
      ensures p != 0 ==> p == old(free)[|old(free)| - 1] && V() == Taken(old(V()))
      ensures misses == old(misses) + if p == 0 then 1 else 0
    {
      p := head;
      if p != 0 {
        assert mem[free[|free| - 1]].Run?;
        head := mem[p].next;
        mem := mem[p := Junk];
        own, free := own[p := Held], free[..|free| - 1];
      } else {
        misses := misses + 1;
      }
    }

    /** walk: where the entry for va is, with page-table pages made on the way if alloc. Whether it
        succeeds or gives up half way, every translation is as before. `panicked` is its check of va. */
    method Walk(root: nat, va: nat, alloc: bool) returns (panicked: bool, t: nat)
      requires Good(V()) && Root(own, root)
      modifies this`mem, this`head, this`own, this`free, this`misses
      ensures panicked <==> va / PGSIZE >= MAXVPN
      ensures Changed(old(V()), V(), root, 0, 0, {}) && (panicked || !alloc ==> V() == old(V()))
      ensures !panicked ==> t == Low(mem, root, va / PGSIZE)
      ensures !panicked && t == 0 ==> !alloc || |free| == 0
      ensures !panicked && t != 0 ==> At(V(), root, va, 0, t)
      ensures misses == old(misses) + if !panicked && alloc && t == 0 then 1 else 0
    {
      hide Good, Step, Low, At, Changed;
      NoChange(V(), root, 0, 0);
      if va / PGSIZE >= MAXVPN {
        return true, 0;
      }
      var level := 2;
      t, panicked := root, false;
      AtRoot(V(), root, va);
      while level > 0
        invariant level <= 2 && At(V(), root, va, level, t) && Changed(old(V()), V(), root, 0, 0, {})
                  && (!alloc ==> V() == old(V()))
        invariant misses == old(misses) && t != 0
      {
        ghost var v := V();
        ValidStep(v, root, va, level, t);
        var k := PX(level, va);
        if mem[t].e[k].v {
          Descend(v, root, va, level, t);
          t := mem[t].e[k].ppn;
        } else {
          DeadEnd(v, root, va, level, t);
          if !alloc {
            return false, 0;
          }
          t := NewTable(root, va, level, t);
          if t == 0 {
            return false, 0;
          }
          ChangedTwice(old(V()), v, V(), root, 0, 0, {});
        }
        level := level - 1;
      }
      Bottom(V(), root, va, t);
    }

    // kalloc, memset and the new entry in walk.
    method NewTable(root: nat, va: nat, level: nat, t: nat) returns (p: nat)
      requires At(V(), root, va, level, t) && level > 0 && Step(mem, t, PX(level, va)) == 0
      modifies this`mem, this`head, this`own, this`free, this`misses
      ensures p == 0 ==> V() == old(V()) && |free| == 0
      ensures p != 0 ==> Changed(old(V()), V(), root, 0, 0, {}) && At(V(), root, va, level - 1, p)
      ensures misses == old(misses) + if p == 0 then 1 else 0
    {
      hide Good, Changed, Step;
      ghost var v, k := V(), PX(level, va);
      ValidStep(v, root, va, level, t);
      FreeList(v);
      p := Kalloc();
      if p != 0 {
        HungAt(v, root, va, level, t);
        mem := mem[p := Ptes(ZeroTable())];
        mem := mem[t := Ptes(mem[t].e[PX(level, va) := Pte(p, true, false, false, false, false)])];
        own := own[p := Table(root, level - 1, v.own[t].pre * NPTE + k, t)];
        assert V() == Hung(v, t, k);
      }
    }

    /** walkaddr: the physical page of a user page, 0 if there is none. */
    method WalkAddr(root: nat, va: nat) returns (p: nat)
      requires Good(V()) && Root(own, root)
      modifies this`mem, this`head, this`own, this`free, this`misses
      ensures V() == old(V())
      ensures p == UserPage(V(), root, va / PGSIZE)
      ensures misses == old(misses)
    {
      hide Good, Leaf, Low;
      if va / PGSIZE >= MAXVPN {
        return 0;
      }
      var panicked, t := Walk(root, va, false);
      Indices(va);
      if t == 0 {
        NoTable(V(), root, va / PGSIZE);
        return 0;
      }
      SlotTable(V(), root, va / PGSIZE, t);
      var e := mem[t].e[PX(0, va)];
      if !e.v {
        return 0;
      }
      if !e.u {
        return 0;
      }
      p := e.ppn;
    }

    /** mappages: n is the number of pages it mapped, one after the other from va on; it stops early,
        with -1, if there is no page for a page table, and panics at a page that is mapped already or
        beyond the address space. */
    method MapPages(root: nat, va: nat, size: nat, ppn: nat, perm: Pte) returns (panicked: bool, r: int, ghost n: nat)
      requires Good(V()) && Root(own, root) && size > 0 && perm.Leaf()
               && (perm.u ==> (va + size - 1) / PGSIZE < TRAPFRAME)
      requires forall p ::
                 ppn <= p <= ppn + (va + size - 1) / PGSIZE - va / PGSIZE && va / PGSIZE + (p - ppn) < TRAPFRAME ==>
                 Ready(V(), p)
      modifies this`mem, this`head, this`own, this`free, this`misses
      ensures Mapped(old(V()), V(), root, va / PGSIZE, ppn, n, perm)
      ensures panicked ==>
              n <= (va + size - 1) / PGSIZE - va / PGSIZE
              && (va / PGSIZE + n >= MAXVPN || old(Leaf(mem, root, va / PGSIZE + n)).v)
      ensures n <= (va + size - 1) / PGSIZE - va / PGSIZE + 1
      ensures !panicked ==> r == if n == (va + size - 1) / PGSIZE - va / PGSIZE + 1 then 0 else -1
      ensures !panicked && r != 0 ==> |free| == 0
      ensures misses == old(misses) + if !panicked && r != 0 then 1 else 0
    {
      hide Good, Leaf, Changed, Ready, Mapped, Pages;
      var first, last := va / PGSIZE, (va + size - 1) / PGSIZE;
      var a, pa := first, ppn;
      n := 0;
      ghost var v := V();
      NoPages(v, root, first, ppn, perm);
      while true
        invariant misses == old(misses) && a == first + n <= last && pa == ppn + n && (n > 0 ==> a <= MAXVPN)
        invariant Mapped(v, V(), root, first, ppn, n, perm)
        decreases last - first - n
      {
        ghost var v1 := V();
        MapContext(v, v1, root, first, ppn, n, perm);
        var ok;
        panicked, ok := MapOne(root, a * PGSIZE, pa, perm);
        if panicked || !ok {
          MapStops(v, v1, V(), root, first, ppn, n, perm);
          return panicked, -1, n;
        }
        MapContinues(v, v1, V(), root, first, ppn, n, perm);
        n := n + 1;
        if a == last {
          return false, 0, n;
        }
        a, pa := a + 1, pa + 1;
      }
    }

    // One round of mappages' loop.
    method MapOne(root: nat, a: nat, ppn: nat, perm: Pte) returns (panicked: bool, ok: bool)
      requires Good(V()) && Root(own, root) && perm.Leaf() && a % PGSIZE == 0
               && (if a / PGSIZE < TRAPFRAME then Ready(V(), ppn) else !perm.u)
      modifies this`mem, this`head, this`own, this`free, this`misses
      ensures panicked <==> a / PGSIZE >= MAXVPN || old(Leaf(mem, root, a / PGSIZE)).v
      ensures panicked || !ok ==> Changed(old(V()), V(), root, 0, 0, {})
      ensures !panicked && !ok ==> |free| == 0
      ensures !panicked && ok ==> Mapped(old(V()), V(), root, a / PGSIZE, ppn, 1, perm)
      ensures misses == old(misses) + if !panicked && !ok then 1 else 0
    {
      hide Good, Leaf, Low, Changed, At, Mapped;
      ghost var v, vpn := V(), a / PGSIZE;
      var t;
      panicked, t := Walk(root, a, true);
      if panicked {
        return true, false;
      }
      ghost var v1 := V();
      AfterWalk(v, v1, root, vpn, ppn);
      if t == 0 {
        NoTable(v1, root, vpn);
        return false, false;
      }
      SlotTable(v1, root, vpn, t);
      Indices(a);
      if mem[t].e[PX(0, a)].v {
        return true, false; // panic("remap")
      }
      MapDone(v, v1, root, vpn, t, ppn, perm);
      mem := mem[t := Ptes(mem[t].e[PX(0, a) := Flagged(perm, ppn)])];
      if vpn < TRAPFRAME {
        own := own[ppn := User(root, vpn)];
      }
      assert V() == MapTo(v1, root, vpn, t, Flagged(perm, ppn));
      ok := true;
    }

    /** uvmunmap: it panics exactly if va is not the address of a page or some page of the range is not
        mapped, and otherwise the range is unmapped. Only user pages are freed; the trampoline and the
        trapframe are not, and a range that is to be freed does not get to them. */
    method UvmUnmap(root: nat, va: nat, npages: nat, doFree: bool) returns (panicked: bool)
      requires Good(V()) && Root(own, root)
      requires if doFree then StopsBelow(V(), root, va / PGSIZE, va / PGSIZE + npages)
               else TRAPFRAME <= va / PGSIZE && va / PGSIZE + npages <= MAXVPN
      modifies this`mem, this`head, this`own, this`free, this`misses
      ensures panicked <==> va % PGSIZE != 0 || !AllMapped(old(V()), root, va / PGSIZE, va / PGSIZE + npages)
      ensures !panicked ==> Changed(old(V()), V(), root, va / PGSIZE, va / PGSIZE + npages, {})
      ensures !panicked ==> forall vpn :: va / PGSIZE <= vpn < va / PGSIZE + npages ==> !Leaf(mem, root, vpn).v
      ensures misses == old(misses)
    {
      hide Good, Leaf, Changed;
      ghost var v, lo, hi := V(), va / PGSIZE, va / PGSIZE + npages;
      if va % PGSIZE != 0 {
        return true;
      }
      var a := va;
      NoChange(v, root, lo, hi);
      while a < va + npages * PGSIZE
        invariant misses == old(misses) && a % PGSIZE == 0 && lo <= a / PGSIZE <= hi
                  && Changed(v, V(), root, lo, hi, {})
        invariant forall vpn :: lo <= vpn < a / PGSIZE ==> Leaf(v.mem, root, vpn).v && !Leaf(mem, root, vpn).v
        invariant forall vpn :: a / PGSIZE <= vpn < hi && vpn < VPNS ==> Leaf(mem, root, vpn) == Leaf(v.mem, root, vpn)
      {
        ghost var v1, vpn := V(), a / PGSIZE;
        InRange(v, v1, root, lo, hi);
        panicked := UnmapOne(root, a, doFree);
        if panicked {
          return;
        }
        Further(v, v1, V(), root, lo, hi, vpn);
        a := a + PGSIZE;
      }
      panicked := false;
    }

    // One round of uvmunmap's loop.
    method UnmapOne(root: nat, a: nat, doFree: bool) returns (panicked: bool)
      requires Good(V()) && Root(own, root) && a % PGSIZE == 0
      requires if doFree then a / PGSIZE < TRAPFRAME else TRAPFRAME <= a / PGSIZE < MAXVPN
      modifies this`mem, this`head, this`own, this`free, this`misses
      ensures panicked <==> !old(Leaf(mem, root, a / PGSIZE)).v
      ensures !panicked ==> Changed(old(V()), V(), root, a / PGSIZE, a / PGSIZE + 1, {})
      ensures !panicked ==> !Leaf(mem, root, a / PGSIZE).v
      ensures misses == old(misses)
    {
      hide Good, Leaf, Low, Changed, At, TableOk;
      ghost var v, vpn := V(), a / PGSIZE;
      var t;
      panicked, t := Walk(root, a, false);
      if t == 0 {
        NoTable(v, root, vpn);
        return true; // "uvmunmap: walk"
      }
      SlotTable(v, root, vpn, t);
      Indices(a);
      var k := PX(0, a);
      if !mem[t].e[k].v {
        return true; // "uvmunmap: not mapped"
      }
      UnmapOwner(v, root, vpn, t);
      UnmapGood(v, root, vpn, t);
      assert mem[t].e[k].Leaf(); // "uvmunmap: not a leaf"
      if doFree {
        UnmapFree(v, root, vpn, t);
        var pa := mem[t].e[k].ppn;
        FreeList(v);
        var p := Kfree(pa);
        mem := mem[t := Ptes(mem[t].e[k := NoPte()])];
        ghost var w := Released(Unmap(v, root, vpn, t), pa);
        assert mem == w.mem && own == w.own;
        assert V() == w;
      } else {
        mem := mem[t := Ptes(mem[t].e[k := NoPte()])];
        assert V() == Unmap(v, root, vpn, t);
      }
    }

    /** uvmdealloc, of a page table with n user pages: it panics exactly if oldsz needs more pages than
        there are and some are to be freed. */
    method UvmDealloc(root: nat, oldsz: nat, newsz: nat, ghost n: nat) returns (panicked: bool, r: nat)
      requires Good(V()) && Root(own, root) && n <= TRAPFRAME && Covers(V(), root, n)
      requires newsz < oldsz ==> Up(newsz) < TRAPFRAME
      modifies this`mem, this`head, this`own, this`free, this`misses
      ensures panicked <==> Up(newsz) < Up(oldsz) && n < Up(oldsz)
      ensures r == if newsz < oldsz then newsz else oldsz
      ensures !panicked ==> Changed(old(V()), V(), root, Up(r), Up(oldsz), {})
      ensures !panicked && n == Up(oldsz) ==> Covers(V(), root, Up(r))
      ensures misses == old(misses)
    {
      hide Good, Leaf, Changed;
      NoChange(V(), root, Up(oldsz), Up(oldsz));
      if newsz >= oldsz {
        return false, oldsz;
      }
      panicked, r := false, newsz;
      if Up(newsz) < Up(oldsz) {
        ghost var k := if n < Up(newsz) then Up(newsz) else n;
        CoversFits(V(), root, n);
        assert n < Up(oldsz) ==> !Leaf(mem, root, k).v;
        panicked := UvmUnmap(root, Up(newsz) * PGSIZE, Up(oldsz) - Up(newsz), true);
        if !panicked && n == Up(oldsz) {
          Outside(old(V()), V(), root, Up(newsz), Up(oldsz));
        }
      }
    }

    /** uvmalloc, from the size the page table has: it maps zeroed pages up to newsz, or, if memory runs
        out, maps nothing and keeps nothing but page-table pages. It never meets a mapped page nor the
        end of the address space. */
    method UvmAlloc(root: nat, oldsz: nat, newsz: nat) returns (r: nat)
      requires Good(V()) && Root(own, root) && Up(oldsz) <= TRAPFRAME && Covers(V(), root, Up(oldsz))
      modifies this`mem, this`head, this`own, this`free, this`misses
      ensures newsz < oldsz ==> r == oldsz && V() == old(V())
      ensures newsz >= oldsz ==> r == newsz || r == 0
      ensures newsz >= oldsz && r == newsz ==> Up(newsz) <= TRAPFRAME && Covers(V(), root, Up(newsz))
      ensures newsz >= oldsz && r == newsz ==>
              Changed(old(V()), V(), root, Up(oldsz), Up(newsz), {}) && Fresh(V(), root, Up(oldsz), Up(newsz))
      ensures newsz >= oldsz && r != newsz ==> Changed(old(V()), V(), root, 0, 0, {}) && Covers(V(), root, Up(oldsz))
      ensures misses == old(misses) + if newsz >= oldsz && r != newsz then 1 else 0
    {
      hide Good, Leaf, Changed;
      if newsz < oldsz {
        return oldsz;
      }
      ghost var v, hi := V(), if Up(newsz) < TRAPFRAME then Up(newsz) else TRAPFRAME;
      var lo := Up(oldsz);
      NoChange(v, root, lo, hi);
      var a := lo * PGSIZE;
      while a < newsz
        invariant misses == old(misses) && a % PGSIZE == 0 && lo <= a / PGSIZE <= hi
        invariant Changed(v, V(), root, lo, hi, {}) && Covers(V(), root, a / PGSIZE) && Fresh(V(), root, lo, a / PGSIZE)
        decreases newsz - a
      {
        ghost var v1, vpn := V(), a / PGSIZE;
        InRange(v, v1, root, lo, hi);
        CoversFits(v1, root, vpn);
        var ok := GrowOne(root, a);
        if !ok {
          Unchanged(v, v1, V(), root, lo, hi, vpn);
          ghost var v2 := V();
          var panicked, _ := UvmDealloc(root, a, lo * PGSIZE, vpn);
          assert !panicked;
          BackAgain(v, v2, V(), root, lo, hi, vpn);
          return 0;
        }
        GrownOne(v, v1, V(), root, lo, hi, vpn);
        a := a + PGSIZE;
      }
      r := newsz;
    }

    // One round of uvmalloc's loop: kalloc, memset, mappages.
    method GrowOne(root: nat, a: nat) returns (ok: bool)
      requires Good(V()) && Root(own, root) && a % PGSIZE == 0 && a / PGSIZE < TRAPFRAME
               && !Leaf(mem, root, a / PGSIZE).v
      modifies this`mem, this`head, this`own, this`free, this`misses
      ensures ok ==>
              Changed(old(V()), V(), root, a / PGSIZE, a / PGSIZE + 1, {})
              && Fresh(V(), root, a / PGSIZE, a / PGSIZE + 1)
      ensures !ok ==> Changed(old(V()), V(), root, 0, 0, {})
      ensures misses == old(misses) + if ok then 0 else 1
    {
      hide Good, Leaf, Changed;
      ok := CopyOne(root, a, Zeroed(), UserPerm());
    }

    // kalloc, the page filled with b, mappages of one page, kfree if that failed.
    method CopyOne(root: nat, a: nat, b: seq<Byte>, perm: Pte) returns (ok: bool)
      requires Good(V()) && Root(own, root) && a % PGSIZE == 0 && a / PGSIZE < TRAPFRAME
               && !Leaf(mem, root, a / PGSIZE).v
      requires |b| == PGSIZE && perm.Leaf()
      modifies this`mem, this`head, this`own, this`free, this`misses
      ensures ok ==> Changed(old(V()), V(), root, a / PGSIZE, a / PGSIZE + 1, {})
      ensures ok ==> Holds(V(), root, a / PGSIZE, b, perm)
      ensures !ok ==> Changed(old(V()), V(), root, 0, 0, {})
      ensures misses == old(misses) + if ok then 0 else 1
    {
      hide Good, Leaf, Changed, Ready, Mapped, Holds, Pages;
      ghost var v, vpn := V(), a / PGSIZE;
      NoChange(v, root, 0, 0);
      FreeList(v);
      var p := Kalloc();
      if p == 0 {
        return false;
      }
      FilledGood(v, b, root);
      mem := mem[p := Data(b)];
      ghost var v2 := V();
      assert v2 == Filled(v, b);
      Stepped(v, v2, root, vpn, p);
      IsReady(v2, p);
      assert (a + PGSIZE - 1) / PGSIZE == vpn;
      var panicked, r, n := MapPages(root, a, PGSIZE, p, perm);
      assert !panicked; // "remap"
      if r != 0 {
        NotMapped(v, v2, V(), root, vpn, p, perm);
        var _ := Kfree(p);
        return false;
      }
      NowMapped(v, v2, V(), root, vpn, p, b, perm);
      ok := true;
    }

    /** freewalk, of a page table without leaves: its pages go to the free list, and nothing else does. */
    method FreeWalk(t: nat, ghost r: nat, ghost level: nat, ghost pre: nat)
      requires FreeOk(mem, own, head, free) && 0 < start && SubOk(mem, own, r, level, pre, t)
      requires forall p :: 0 <= p < |own| ==> (own[p].Kernel? <==> p < start)
      modifies this`mem, this`head, this`own, this`free
      ensures FreeOk(mem, own, head, free) && |own| == |old(own)| == |mem|
      ensures forall p :: 0 <= p < |own| ==>
              if Below(old(own)[p], r, level, pre) then own[p].Free? else own[p] == old(own)[p] && mem[p] == old(mem)[p]
      decreases level
    {
      hide FreeOk, SubOk;
      ghost var m, o := mem, own;
      Top(m, o, r, level, pre, t);
      var i := 0;
      while i < NPTE
        invariant i <= NPTE && FreeOk(mem, own, head, free) && Halfway(m, o, mem, own, r, level, pre, t, i)
      {
        var pte := mem[t].e[i];
        if pte.v && !pte.Leaf() {
          ChildOk(m, o, mem, own, r, level, pre, t, i);
          ghost var m1, o1 := mem, own;
          FreeWalk(pte.ppn, r, level - 1, pre * NPTE + i);
          HalfwayOn(m, o, m1, o1, mem, own, r, level, pre, t, i);
          ghost var v := V();
          mem := mem[t := Ptes(mem[t].e[i := NoPte()])];
          FreeFrame(v, V());
        } else {
          NoLeaf(m, o, r, level, pre, t, i);
          assert !pte.v; // "freewalk: leaf"
        }
        i := i + 1;
      }
      AllDone(m, o, mem, own, r, level, pre, t);
      var panicked := Kfree(t);
    }

    /** uvmcreate: a page table that maps nothing, or 0. */
    method UvmCreate() returns (r: nat)
      requires Good(V())
      modifies this`mem, this`head, this`own, this`free, this`misses
      ensures r == 0 <==> |old(free)| == 0
      ensures r == 0 ==> V() == old(V())
      ensures r != 0 ==> Created(old(V()), V(), r)
      ensures misses == old(misses) + if r == 0 then 1 else 0
    {
      hide Good, Created, FreeChain;
      FreeList(V());
      r := Kalloc();
      if r != 0 {
        BornCreated(old(V()));
        mem := mem[r := Ptes(ZeroTable())];
        own := own[r := Table(r, 2, 0, r)];
        assert V() == Born(old(V()));
      }
    }

    /** uvmfree, of a page table that maps user pages only: none of its panics happens, and all pages are
        free again. */
    method UvmFree(root: nat, sz: nat)
      requires Good(V()) && Root(own, root) && Up(sz) <= TRAPFRAME && Covers(V(), root, Up(sz))
      requires !Leaf(mem, root, TRAPFRAME).v && !Leaf(mem, root, TRAMPOLINE).v
      modifies this`mem, this`head, this`own, this`free, this`misses
      ensures Gone(old(V()), V(), root)
      ensures misses == old(misses)
    {
      hide Good, Leaf, Changed, Gone, Freed, SubOk, Below;
      ghost var v := V();
      NoChange(v, root, 0, Up(sz));
      if sz > 0 {
        var panicked := UvmUnmap(root, 0, Up(sz), true);
        assert !panicked;
      }
      ghost var v1 := V();
      NoneLeft(v, v1, root, Up(sz));
      WholeTree(v1, root);
      FreeList(v1);
      FreeWalk(root, root, 2, 0);
      WasFreed(v1, V(), root);
      FreedGone(v1, V(), root);
      UnmapGone(v, v1, V(), root, Up(sz));
    }

    /** uvmcopy into a page table that maps no user page: the child gets a copy of every page, with the
        same permissions, or, if memory runs out, none. */
    method UvmCopy(parent: nat, child: nat, sz: nat) returns (r: int)
      requires Good(V()) && Root(own, parent) && Root(own, child) && parent != child
      requires Up(sz) <= TRAPFRAME && Covers(V(), parent, Up(sz)) && Covers(V(), child, 0)
      modifies this`mem, this`head, this`own, this`free, this`misses
      ensures r == 0 || r == -1
      ensures r == 0 ==> Changed(old(V()), V(), child, 0, Up(sz), {}) && Covers(V(), child, Up(sz))
      ensures r == 0 ==> forall vpn :: 0 <= vpn < Up(sz) ==> CopyOf(old(V()), parent, V(), child, vpn)
      ensures r != 0 ==> Changed(old(V()), V(), child, 0, 0, {}) && Covers(V(), child, 0)
      ensures misses == old(misses) + if r == 0 then 0 else 1
    {
      hide Good, Leaf, Changed, CopyOf, Covers, Copying, TableOk;
      ghost var v, n := V(), Up(sz);
      CopyStarts(v, parent, child, n);
      var i := 0;
      ghost var vpn := 0;
      while i < sz
        invariant misses == old(misses) && i == vpn * PGSIZE && vpn <= n && Copying(v, V(), parent, child, n, vpn)
        decreases sz - i
      {
        ghost var v1 := V();
        assert i / PGSIZE == vpn < n;
        CopyContext(v, v1, parent, child, n, vpn);
        var panicked, t := Walk(parent, i, false);
        UnmapOwner(v1, parent, vpn, t);
        Indices(i);
        assert !panicked && t != 0;    // "uvmcopy: pte should exist"
        var e := mem[t].e[PX(0, i)];
        assert e.v;                    // "uvmcopy: page not present"
        var ok := CopyOne(child, i, mem[e.ppn].b, e);
        if !ok {
          CopyFails(v, v1, V(), parent, child, n, vpn);
          ghost var v2 := V();
          var p := UvmUnmap(child, 0, i / PGSIZE, true);
          assert !p;
          CopyUndone(v, v2, V(), child, n, vpn);
          return -1;
        }
        CopyOn(v, v1, V(), parent, child, n, vpn);
        i, vpn := i + PGSIZE, vpn + 1;
      }
      assert vpn == n;
      CopyDone(v, V(), parent, child, n);
      r := 0;
    }

    /** uvmclear: the page stays mapped, but not for user access. */
    method UvmClear(root: nat, va: nat)
      requires Good(V()) && Root(own, root) && va / PGSIZE < TRAPFRAME && Leaf(mem, root, va / PGSIZE).v
      modifies this`mem, this`head, this`own, this`free, this`misses
      ensures Changed(old(V()), V(), root, va / PGSIZE, va / PGSIZE + 1, {})
      ensures var e := old(Leaf(mem, root, va / PGSIZE));
              Leaf(mem, root, va / PGSIZE) == Pte(e.ppn, e.v, e.r, e.w, e.x, false)
      ensures var p := old(Leaf(mem, root, va / PGSIZE)).ppn; p < |mem| && p < |old(mem)| && mem[p] == old(mem)[p]
      ensures misses == old(misses)
    {
      hide Good, Leaf, Changed;
      ghost var v, vpn := V(), va / PGSIZE;
      var panicked, t := Walk(root, va, false);
      UnmapOwner(v, root, vpn, t);
      Indices(va);
      var k := PX(0, va);
      ClearGood(v, root, vpn, t);
      var e := mem[t].e[k];
      mem := mem[t := Ptes(mem[t].e[k := Pte(e.ppn, e.v, e.r, e.w, e.x, false)])];
    }

    /** copyin: the bytes it got to before the first page that is not there for the user; it succeeds if
        these are all. */
    method CopyIn(root: nat, srcva: nat, len: nat) returns (ok: bool, dst: seq<Byte>)
      requires Good(V()) && Root(own, root)
      modifies this`mem, this`head, this`own, this`free, this`misses
      ensures V() == old(V()) && |dst| <= len && Read(V(), root, srcva, dst)
      ensures ok <==> |dst| == len
      ensures !ok ==> UserPage(V(), root, (srcva + |dst|) / PGSIZE) == 0
      ensures misses == old(misses)
    {
      hide Good, UserPage;
      dst := [];
      var va := srcva;
      while |dst| < len
        invariant misses == old(misses) && V() == old(V()) && |dst| <= len && Read(V(), root, srcva, dst)
                  && va == srcva + |dst|
        invariant |dst| == 0 || |dst| == len || va % PGSIZE == 0
      {
        var p := WalkAddr(root, va / PGSIZE * PGSIZE);
        if p == 0 {
          return false, dst;
        }
        IsData(V(), root, va / PGSIZE);
        var o := va % PGSIZE;
        var n := Least(PGSIZE - o, len - |dst|);
        ReadPage(V(), root, srcva, dst, n);
        dst := dst + mem[p].b[o..o + n];
        va := va + n;
      }
      ok := true;
    }

    /** copyout: the bytes before the first page that is not there for the user are stored; it succeeds
        if these are all. No other byte of any process changes. */
    method CopyOut(root: nat, dstva: nat, src: seq<Byte>) returns (ok: bool, ghost done: nat)
      requires Good(V()) && Root(own, root)
      modifies this`mem, this`head, this`own, this`free, this`misses
      ensures done <= |src| && Stored(old(V()), V(), root, dstva, src[..done])
      ensures ok <==> done == |src|
      ensures !ok ==> UserPage(old(V()), root, (dstva + done) / PGSIZE) == 0
      ensures misses == old(misses)
    {
      hide Good, UserPage, Stored;
      ghost var v := V();
      var k := 0;
      done := 0;
      StoredNone(v, root, dstva);
      while k < |src|
        invariant misses == old(misses) && k == done <= |src| && Stored(v, V(), root, dstva, src[..k])
        invariant k == 0 || k == |src| || (dstva + k) % PGSIZE == 0
      {
        var va := dstva + k;
        ghost var v1 := V();
        StoredGood(v, v1, root, dstva, src[..k], va / PGSIZE);
        var p := WalkAddr(root, va / PGSIZE * PGSIZE);
        if p == 0 {
          return false, done;
        }
        IsData(V(), root, va / PGSIZE);
        var o := va % PGSIZE;
        var n := Least(PGSIZE - o, |src| - k);
        mem := mem[p := Data(mem[p].b[..o] + src[k..k + n] + mem[p].b[o + n..])];
        assert V() == Store(v1, p, o, src[k..k + n]);
        StoredMore(v, v1, root, dstva, src[..k], src[k..k + n]);
        assert src[..k] + src[k..k + n] == src[..k + n];
        k, done := k + n, done + n;
      }
      assert src[..k] == src;
      ok := true;
    }

    /** copyinstr: the string, if it ends within max bytes and before the first page that is not there
        for the user; otherwise what it got to. */
    method CopyInStr(root: nat, srcva: nat, max: nat) returns (ok: bool, dst: seq<Byte>)
      requires Good(V()) && Root(own, root)
      modifies this`mem, this`head, this`own, this`free, this`misses
      ensures V() == old(V()) && |dst| <= max && Read(V(), root, srcva, dst) && 0 !in dst
      ensures ok ==> |dst| < max && Read(V(), root, srcva, dst + [0])
      ensures !ok ==> |dst| == max || UserPage(V(), root, (srcva + |dst|) / PGSIZE) == 0
      ensures misses == old(misses)
    {
      hide Good, UserPage;
      dst := [];
      var va := srcva;
      while |dst| < max
        invariant misses == old(misses) && V() == old(V()) && |dst| <= max && Read(V(), root, srcva, dst)
                  && 0 !in dst && va == srcva + |dst|
        invariant |dst| == 0 || |dst| == max || va % PGSIZE == 0
      {
        var p := WalkAddr(root, va / PGSIZE * PGSIZE);
        if p == 0 {
          return false, dst;
        }
        IsData(V(), root, va / PGSIZE);
        var o := va % PGSIZE;
        var n := Least(PGSIZE - o, max - |dst|);
        var i := 0;
        while i < n
          invariant misses == old(misses) && i <= n && |dst| + (n - i) <= max && Read(V(), root, srcva, dst)
                    && 0 !in dst && V() == old(V()) && va + i == srcva + |dst|
        {
          ReadByte(V(), root, srcva, dst, va, i);
          if mem[p].b[o + i] == 0 {
            return true, dst;
          }
          dst := dst + [mem[p].b[o + i]];
          i := i + 1;
        }
        va := va + n;
      }
      ok := false;
    }
  }

  /** The page that backs a user page, 0 if it is not mapped for user access. */
  ghost function UserPage(v: View, r: nat, vpn: nat): (p: nat) {
    if vpn < MAXVPN && Leaf(v.mem, r, vpn).v && Leaf(v.mem, r, vpn).u then Leaf(v.mem, r, vpn).ppn else 0
  }

  ghost predicate AllMapped(v: View, r: nat, lo: nat, hi: nat) {
    forall vpn :: lo <= vpn < hi ==> Leaf(v.mem, r, vpn).v
  }

  // A walk over the range meets a page that is not mapped, if nothing else stops it below the trapframe.
  ghost predicate StopsBelow(v: View, r: nat, lo: nat, hi: nat) {
    hi <= TRAPFRAME || exists k :: lo <= k < hi && k < TRAPFRAME && !Leaf(v.mem, r, k).v
  }

  /** PA2PTE(pa) | perm | PTE_V. */
  function Flagged(perm: Pte, ppn: nat): (e: Pte) { Pte(ppn, true, perm.r, perm.w, perm.x, perm.u) }

  // The pages from ppn on that the n virtual pages from vpn on get, as far as they are user pages.
  ghost function Pages(vpn: nat, ppn: nat, n: nat): (s: set<nat>)
    ensures forall p :: p in s ==> ppn <= p < ppn + n && vpn + (p - ppn) < TRAPFRAME
  {
    if n == 0 then {} else Pages(vpn, ppn, n - 1) + if vpn + n - 1 < TRAPFRAME then {ppn + n - 1} else {}
  }

  /** PGROUNDUP, in pages. */
  function Up(sz: nat): (n: nat) { (sz + PGSIZE - 1) / PGSIZE }

  function Zeroed(): (b: seq<Byte>)
    ensures |b| == PGSIZE
  {
    seq(PGSIZE, _ => 0)
  }

  function UserPerm(): (e: Pte) { Pte(0, false, true, true, true, true) }

  /** A virtual page is mapped, with these permissions, to a page that holds b. */
  ghost predicate Holds(v: View, r: nat, vpn: nat, b: seq<Byte>, perm: Pte) {
    var e := Leaf(v.mem, r, vpn);
    e == Flagged(perm, e.ppn) && e.ppn < |v.mem| && v.mem[e.ppn] == Data(b)
  }

  ghost predicate Fresh(v: View, r: nat, lo: nat, hi: nat) {
    forall vpn :: lo <= vpn < hi ==> Holds(v, r, vpn, Zeroed(), UserPerm())
  }

  // A range has been unmapped, which was the end of what was mapped.
  lemma Outside(v: View, v': View, r: nat, lo: nat, hi: nat)
    requires Root(v.own, r) && lo <= hi <= TRAPFRAME && Covers(v, r, hi) && Changed(v, v', r, lo, hi, {})
    requires forall vpn :: lo <= vpn < hi ==> !Leaf(v'.mem, r, vpn).v
    ensures Covers(v', r, lo)
  {
    hide Good, Leaf;
  }

  // Pages of r outside the range are as they were.
  lemma HoldsStill(v: View, v': View, r: nat, lo: nat, hi: nat, vpn: nat, b: seq<Byte>, perm: Pte)
    requires Good(v) && Root(v.own, r) && Changed(v, v', r, lo, hi, {}) && vpn < TRAPFRAME && !(lo <= vpn < hi)
             && Holds(v, r, vpn, b, perm)
    ensures Holds(v', r, vpn, b, perm)
  {
    hide TreeOk, FreeOk, Leaf;
    assert LeafOk(v.mem, v.own, r, vpn);
    assert KeptPage(v, v', r, lo, hi, Leaf(v.mem, r, vpn).ppn);
  }

  lemma GrownOne(v: View, v1: View, v2: View, r: nat, lo: nat, hi: nat, vpn: nat)
    requires Good(v) && Root(v.own, r) && Changed(v, v1, r, lo, hi, {}) && lo <= vpn < hi && vpn < TRAPFRAME
    requires Covers(v1, r, vpn) && Fresh(v1, r, lo, vpn) && Changed(v1, v2, r, vpn, vpn + 1, {})
             && Fresh(v2, r, vpn, vpn + 1)
    ensures Changed(v, v2, r, lo, hi, {}) && Covers(v2, r, vpn + 1) && Fresh(v2, r, lo, vpn + 1)
  {
    hide Good, Leaf, Changed;
    InRange(v, v1, r, lo, hi);
    Further(v, v1, v2, r, lo, hi, vpn);
    assert Holds(v2, r, vpn, Zeroed(), UserPerm());
    forall n | lo <= n < vpn
      ensures Holds(v2, r, n, Zeroed(), UserPerm())
    {
      assert Holds(v1, r, n, Zeroed(), UserPerm());
      HoldsStill(v1, v2, r, vpn, vpn + 1, n, Zeroed(), UserPerm());
    }
  }

  lemma Unchanged(v: View, v1: View, v2: View, r: nat, lo: nat, hi: nat, vpn: nat)
    requires Good(v) && Root(v.own, r) && Changed(v, v1, r, lo, hi, {}) && Covers(v1, r, vpn)
             && Changed(v1, v2, r, 0, 0, {})
    ensures Changed(v, v2, r, lo, hi, {}) && Covers(v2, r, vpn) && Root(v2.own, r) && Good(v2)
  {
    hide Good, Leaf;
    InRange(v, v1, r, lo, hi);
    TreeOf(v);
    ChangedEmpty(v1, v2, r, lo, hi, {}, {});
    ChangedTwice(v, v1, v2, r, lo, hi, {});
    InRange(v, v2, r, lo, hi);
  }

  // The pages mapped so far are unmapped again.
  lemma BackAgain(v: View, v1: View, v2: View, r: nat, lo: nat, hi: nat, vpn: nat)
    requires Good(v) && Root(v.own, r) && lo <= vpn <= hi <= TRAPFRAME && Covers(v, r, lo)
             && Changed(v, v1, r, lo, hi, {})
    requires Covers(v2, r, lo) && Changed(v1, v2, r, lo, vpn, {})
    ensures Changed(v, v2, r, 0, 0, {})
  {
    hide Good, Leaf;
    InRange(v, v1, r, lo, hi);
    TreeOf(v);
    ChangedWider(v1, v2, r, lo, vpn, lo, hi, {}, {});
    ChangedTwice(v, v1, v2, r, lo, hi, {});
    forall n | lo <= n < hi && n < VPNS
      ensures Leaf(v2.mem, r, n) == Leaf(v.mem, r, n) == NoPte()
    {
      NotValid(v, r, n);
      NotValid(v2, r, n);
    }
    NothingMapped(v, v2, r, lo, hi);
  }

  lemma NotValid(v: View, r: nat, vpn: nat)
    ensures Leaf(v.mem, r, vpn).v || Leaf(v.mem, r, vpn) == NoPte()
  {
  }

  // kalloc and memset before mappages.
  lemma Stepped(v: View, v2: View, r: nat, vpn: nat, p: nat)
    requires Good(v) && Root(v.own, r) && p < |v.own| && v.own[p].Free? && Changed(v, v2, r, 0, 0, {p}) && vpn < VPNS
    ensures Good(v2) && Root(v2.own, r) && Leaf(v2.mem, r, vpn) == Leaf(v.mem, r, vpn) && 0 < v2.start
            && |v2.own| == |v.own|
  {
    hide TreeOk, PageOk, FreeOk, Leaf;
    assert KeptPage(v, v2, r, 0, 0, r);
  }

  lemma IsReady(v: View, p: nat)
    requires Ready(v, p)
    ensures p < |v.own| && v.own[p] == Held
  {
  }

  lemma NowMapped(v: View, v2: View, v3: View, r: nat, vpn: nat, p: nat, b: seq<Byte>, perm: Pte)
    requires Good(v) && Root(v.own, r) && p < |v.own| && v.own[p].Free? && Changed(v, v2, r, 0, 0, {p})
             && vpn < TRAPFRAME
    requires v2.mem[p] == Data(b) && v2.own[p] == Held && Mapped(v2, v3, r, vpn, p, 1, perm)
    ensures Changed(v, v3, r, vpn, vpn + 1, {})
    ensures Holds(v3, r, vpn, b, perm)
  {
    hide TreeOk, FreeOk, Leaf;
    assert Pages(vpn, p, 1) == {p};
    ChangedEmpty(v, v2, r, vpn, vpn + 1, {p}, {p});
    ChangedTwice(v, v2, v3, r, vpn, vpn + 1, {p});
    assert KeptPage(v, v2, r, 0, 0, r) && KeptPage(v2, v3, r, vpn, vpn + 1, r);
    assert LeafOk(v3.mem, v3.own, r, vpn);
    NoException(v, v3, r, vpn, vpn + 1, p);
  }

  lemma NotMapped(v: View, v2: View, v3: View, r: nat, vpn: nat, p: nat, perm: Pte)
    requires Good(v) && Root(v.own, r) && p < |v.own| && v.own[p].Free? && Changed(v, v2, r, 0, 0, {p})
    requires v2.own[p] == Held && Mapped(v2, v3, r, vpn, p, 0, perm)
    ensures p < |v3.own| && v3.own[p] == Held && Changed(v, Released(v3, p), r, 0, 0, {})
            && FreeOk(v3.mem, v3.own, v3.head, v3.free) && v3.start <= p
  {
    hide TreeOk, PageOk, FreeOk, Leaf;
    ChangedNone(v2, v3, r, vpn);
    ChangedEmpty(v2, v3, r, 0, 0, {}, {p});
    ChangedTwice(v, v2, v3, r, 0, 0, {p});
    assert KeptPage(v2, v3, r, 0, 0, p);
    GivenBack(v, v3, r, p);
  }

  lemma ChangedNone(v: View, v': View, r: nat, n: nat)
    requires Changed(v, v', r, n, n, {})
    ensures Changed(v, v', r, 0, 0, {})
  {
    hide Good, Leaf;
    forall p | 0 <= p < |v.own|
      ensures KeptPage(v, v', r, 0, 0, p)
    {
      assert KeptPage(v, v', r, n, n, p);
    }
  }

  lemma NoneLeft(v: View, v1: View, r: nat, n: nat)
    requires Root(v.own, r) && n <= TRAPFRAME && Covers(v, r, n) && Changed(v, v1, r, 0, n, {})
    requires Good(v) && !Leaf(v.mem, r, TRAPFRAME).v && !Leaf(v.mem, r, TRAMPOLINE).v
             && forall vpn :: 0 <= vpn < n ==> !Leaf(v1.mem, r, vpn).v
    ensures Good(v1) && Root(v1.own, r) && forall vpn :: 0 <= vpn < VPNS ==> !Leaf(v1.mem, r, vpn).v
  {
    hide TreeOk, FreeOk, Leaf;
    InRange(v, v1, r, 0, n);
    forall vpn | 0 <= vpn < VPNS
      ensures !Leaf(v1.mem, r, vpn).v
    {
      assert LeafOk(v.mem, v.own, r, vpn);
    }
  }

  lemma WasFreed(v: View, v': View, r: nat)
    requires Good(v) && v'.start == v.start && |v'.own| == |v.own| == |v'.mem|
             && FreeOk(v'.mem, v'.own, v'.head, v'.free)
    requires forall p :: 0 <= p < |v.own| ==>
             if Below(v.own[p], r, 2, 0) then v'.own[p].Free? else v'.own[p] == v.own[p] && v'.mem[p] == v.mem[p]
    ensures Freed(v, v', r)
  {
    hide TreeOk, PageOk, FreeOk;
  }

  lemma UnmapGone(v: View, v1: View, v2: View, r: nat, n: nat)
    requires Good(v) && Root(v.own, r) && Covers(v, r, n) && Changed(v, v1, r, 0, n, {}) && Gone(v1, v2, r)
    requires forall vpn :: 0 <= vpn < VPNS ==> !Leaf(v1.mem, r, vpn).v
    ensures Gone(v, v2, r)
  {
    hide TreeOk, FreeOk, Leaf;
    forall p | 0 <= p < |v.own|
      ensures if Of(v.own[p], r) || v.own[p].Free? then v2.own[p].Free?
              else v2.own[p] == v.own[p] && v2.mem[p] == v.mem[p]
    {
      assert KeptPage(v, v1, r, 0, n, p);
    }
    forall q, vpn | Root(v.own, q) && q != r && 0 <= vpn < VPNS
      ensures Leaf(v2.mem, q, vpn) == Leaf(v.mem, q, vpn)
    {
      assert KeptPage(v, v1, r, 0, n, q);
    }
  }

  /** In v', the virtual page of r' is a copy of what it is in v for r. */
  ghost predicate CopyOf(v: View, r: nat, v': View, r': nat, vpn: nat) {
    var e := Leaf(v.mem, r, vpn);
    e.v && e.ppn < |v.mem| && v.mem[e.ppn].Data? && Holds(v', r', vpn, v.mem[e.ppn].b, e)
  }

  ghost predicate Copying(v: View, v1: View, parent: nat, child: nat, n: nat, k: nat) {
    Changed(v, v1, child, 0, n, {}) && Covers(v1, child, k) && forall vpn :: 0 <= vpn < k ==>
      CopyOf(v, parent, v1, child, vpn)
  }

  ghost predicate CanCopy(v: View, parent: nat, child: nat, n: nat) {
    Good(v) && Root(v.own, parent) && Root(v.own, child) && parent != child && n <= TRAPFRAME && Covers(v, parent, n)
      && Covers(v, child, 0)
  }

  lemma CopyStarts(v: View, parent: nat, child: nat, n: nat)
    requires CanCopy(v, parent, child, n)
    ensures Copying(v, v, parent, child, n, 0)
  {
    NoChange(v, child, 0, n);
  }

  lemma CopyContext(v: View, v1: View, parent: nat, child: nat, n: nat, k: nat)
    requires CanCopy(v, parent, child, n) && Copying(v, v1, parent, child, n, k) && k < n
    ensures Good(v1) && Root(v1.own, parent) && Root(v1.own, child) && Leaf(v1.mem, parent, k).v
            && !Leaf(v1.mem, child, k).v
    ensures Leaf(v1.mem, parent, k) == Leaf(v.mem, parent, k)
    ensures var p := Leaf(v.mem, parent, k).ppn; p < |v.mem| && p < |v1.mem| && v.mem[p].Data? && v1.mem[p] == v.mem[p]
  {
    hide TreeOk, FreeOk, Leaf;
    assert KeptPage(v, v1, child, 0, n, parent) && KeptPage(v, v1, child, 0, n, child);
    assert LeafOk(v.mem, v.own, parent, k);
    assert KeptPage(v, v1, child, 0, n, Leaf(v.mem, parent, k).ppn);
  }

  lemma CopyOn(v: View, v1: View, v2: View, parent: nat, child: nat, n: nat, k: nat)
    requires CanCopy(v, parent, child, n) && Copying(v, v1, parent, child, n, k) && k < n
             && Changed(v1, v2, child, k, k + 1, {})
    requires var e := Leaf(v.mem, parent, k);
             e.ppn < |v.mem| && v.mem[e.ppn].Data? && Holds(v2, child, k, v.mem[e.ppn].b, e)
    ensures Copying(v, v2, parent, child, n, k + 1)
  {
    hide Good, Leaf, Changed;
    InRange(v, v1, child, 0, n);
    Further(v, v1, v2, child, 0, n, k);
    forall vpn | 0 <= vpn < k
      ensures CopyOf(v, parent, v2, child, vpn)
    {
      assert CopyOf(v, parent, v1, child, vpn);
      var e := Leaf(v.mem, parent, vpn);
      HoldsStill(v1, v2, child, k, k + 1, vpn, v.mem[e.ppn].b, e);
    }
  }

  lemma CopyFails(v: View, v1: View, v2: View, parent: nat, child: nat, n: nat, k: nat)
    requires CanCopy(v, parent, child, n) && Copying(v, v1, parent, child, n, k) && Changed(v1, v2, child, 0, 0, {})
             && k <= TRAPFRAME
    ensures Changed(v, v2, child, 0, n, {}) && Good(v2) && Root(v2.own, child) && Covers(v2, child, k)
    ensures forall vpn :: 0 <= vpn < k ==> Leaf(v2.mem, child, vpn).v
  {
    hide Good, Leaf, Changed;
    Unchanged(v, v1, v2, child, 0, n, k);
  }

  lemma CopyUndone(v: View, v2: View, v3: View, child: nat, n: nat, k: nat)
    requires Good(v) && Root(v.own, child) && k <= n <= TRAPFRAME && Covers(v, child, 0)
             && Changed(v, v2, child, 0, n, {}) && Covers(v2, child, k)
    requires Changed(v2, v3, child, 0, k, {}) && forall vpn :: 0 <= vpn < k ==> !Leaf(v3.mem, child, vpn).v
    ensures Changed(v, v3, child, 0, 0, {}) && Covers(v3, child, 0)
  {
    hide Good, Leaf, Changed;
    InRange(v, v2, child, 0, n);
    Outside(v2, v3, child, 0, k);
    BackAgain(v, v2, v3, child, 0, n, k);
  }

  lemma CopyDone(v: View, v1: View, parent: nat, child: nat, n: nat)
    requires CanCopy(v, parent, child, n) && Copying(v, v1, parent, child, n, n)
    ensures Changed(v, v1, child, 0, n, {}) && Covers(v1, child, n) && forall vpn :: 0 <= vpn < n ==>
            CopyOf(v, parent, v1, child, vpn)
  {
  }

  // Clearing PTE_U is like unmapping the page and mapping it again without.
  lemma ClearGood(v: View, r: nat, vpn: nat, t: nat)
    requires CanUnmap(v, r, vpn, t) && vpn < TRAPFRAME
    ensures t < |v.mem| && v.mem[t].Ptes? && |v.mem[t].e| == NPTE && v.mem[t].e[vpn % NPTE] == Leaf(v.mem, r, vpn)
    ensures var e := Leaf(v.mem, r, vpn);
            var e' := Pte(e.ppn, e.v, e.r, e.w, e.x, false);
            var v' := View(v.start, Put(v.mem, t, vpn % NPTE, e'), v.own, v.head, v.free);
            Changed(v, v', r, vpn, vpn + 1, {}) && Leaf(v'.mem, r, vpn) == e' && e.ppn < |v.mem|
              && v'.mem[e.ppn] == v.mem[e.ppn]
  {
    hide Good, Leaf, Low;
    UnmapOwner(v, r, vpn, t);
    UnmapGood(v, r, vpn, t);
    var e, p := Leaf(v.mem, r, vpn), Leaf(v.mem, r, vpn).ppn;
    var e' := Pte(p, e.v, e.r, e.w, e.x, false);
    var v1 := Unmap(v, r, vpn, t);
    Cleared(v, v1, r, vpn, t, e');
    MapGood(v1, r, vpn, t, e');
    var v2 := MapTo(v1, r, vpn, t, e');
    var v' := View(v.start, Put(v.mem, t, vpn % NPTE, e'), v.own, v.head, v.free);
    var k, es := vpn % NPTE, v.mem[t].e;
    assert es[k := NoPte()][k := e'] == es[k := e'];
    assert v2.mem == v'.mem && v2.own == v.own;
    TreeOf(v);
    ChangedTwice(v, v1, v2, r, vpn, vpn + 1, {p});
    NoException(v, v2, r, vpn, vpn + 1, p);
  }

  lemma Cleared(v: View, v1: View, r: nat, vpn: nat, t: nat, e: Pte)
    requires CanUnmap(v, r, vpn, t) && vpn < TRAPFRAME
             && e == Pte(Leaf(v.mem, r, vpn).ppn, true, Leaf(v.mem, r, vpn).r, Leaf(v.mem, r, vpn).w,
             Leaf(v.mem, r, vpn).x, false)
    requires t < |v.mem| == |v.own| && v.mem[t].Ptes? && |v.mem[t].e| == NPTE && e.ppn < |v.own|
    requires v1 == Unmap(v, r, vpn, t) && Good(v1) && !Leaf(v1.mem, r, vpn).v
    ensures CanMap(v1, r, vpn, t, e)
  {
    UnmapOwner(v, r, vpn, t);
    SlotOwner(v1.mem, v1.own, t, vpn);
  }

  function Least(a: nat, b: nat): (m: nat) { if a < b then a else b }

  /** The byte at a user address. */
  ghost function UserByte(v: View, r: nat, va: nat): (b: Byte) {
    var p := UserPage(v, r, va / PGSIZE);
    if p < |v.mem| && v.mem[p].Data? && |v.mem[p].b| == PGSIZE then v.mem[p].b[va % PGSIZE] else 0
  }

  /** d is what a process with page table r reads, byte by byte, at va. */
  ghost predicate Read(v: View, r: nat, va: nat, d: seq<Byte>) {
    forall a :: va <= a < va + |d| ==> UserPage(v, r, a / PGSIZE) != 0 && d[a - va] == UserByte(v, r, a)
  }

  lemma IsData(v: View, r: nat, vpn: nat)
    requires Good(v) && Root(v.own, r) && UserPage(v, r, vpn) != 0
    ensures var p := UserPage(v, r, vpn);
            p < |v.mem| == |v.own| && v.own[p] == User(r, vpn) && v.mem[p].Data? && |v.mem[p].b| == PGSIZE
  {
    assert LeafOk(v.mem, v.own, r, vpn);
  }

  lemma SamePage(va: nat, o: nat)
    requires o < PGSIZE - va % PGSIZE
    ensures (va + o) / PGSIZE == va / PGSIZE && (va + o) % PGSIZE == va % PGSIZE + o
  {
  }

  lemma ReadPage(v: View, r: nat, va: nat, d: seq<Byte>, n: nat)
    requires Good(v) && Root(v.own, r) && Read(v, r, va, d) && n <= PGSIZE - (va + |d|) % PGSIZE
             && UserPage(v, r, (va + |d|) / PGSIZE) != 0
    ensures var p, o := UserPage(v, r, (va + |d|) / PGSIZE), (va + |d|) % PGSIZE;
            && p < |v.mem| && v.mem[p].Data? && |v.mem[p].b| == PGSIZE && Read(v, r, va, d + v.mem[p].b[o..o + n])
            && (n == PGSIZE - o ==> (va + |d| + n) % PGSIZE == 0)
  {
    hide Good, UserPage;
    var x := va + |d|;
    IsData(v, r, x / PGSIZE);
    var p, o := UserPage(v, r, x / PGSIZE), x % PGSIZE;
    var d' := d + v.mem[p].b[o..o + n];
    forall a | va <= a < va + |d'|
      ensures UserPage(v, r, a / PGSIZE) != 0 && d'[a - va] == UserByte(v, r, a)
    {
      if a >= x {
        SamePage(x, a - x);
      }
    }
  }

  lemma ReadByte(v: View, r: nat, srcva: nat, d: seq<Byte>, va: nat, i: nat)
    requires Good(v) && Root(v.own, r) && Read(v, r, srcva, d) && va + i == srcva + |d| && i < PGSIZE - va % PGSIZE
             && UserPage(v, r, va / PGSIZE) != 0
    ensures var p := UserPage(v, r, va / PGSIZE);
            p < |v.mem| && v.mem[p].Data? && |v.mem[p].b| == PGSIZE
            && Read(v, r, srcva, d + [v.mem[p].b[va % PGSIZE + i]])
  {
    hide Good, UserPage;
    IsData(v, r, va / PGSIZE);
    SamePage(va, i);
  }

  // memmove into a page.
  ghost function Store(v: View, p: nat, o: nat, d: seq<Byte>): (v': View)
    requires p < |v.mem| && v.mem[p].Data? && |v.mem[p].b| == PGSIZE && o + |d| <= PGSIZE
  {
    View(v.start, v.mem[p := Data(v.mem[p].b[..o] + d + v.mem[p].b[o + |d|..])], v.own, v.head, v.free)
  }

  /** From v to v', the bytes of r's address space from va on became d, and no other byte of any address
      space changed, nor any translation. */
  ghost predicate Stored(v: View, v': View, r: nat, va: nat, d: seq<Byte>) {
    && Good(v') && v'.own == v.own && v'.start == v.start && |v'.mem| == |v.mem| == |v.own|
    && (forall p :: 0 <= p < |v.own| ==> v'.mem[p] == v.mem[p] || (v.own[p].User? && v.own[p].root == r))
    && (forall q, vpn :: Root(v.own, q) && 0 <= vpn < VPNS ==> Leaf(v'.mem, q, vpn) == Leaf(v.mem, q, vpn))
    && Read(v', r, va, d)
    && (forall q, a :: Root(v.own, q) && 0 <= a && !(q == r && va <= a < va + |d|) ==>
       UserByte(v', q, a) == UserByte(v, q, a))
  }

  lemma StoredNone(v: View, r: nat, va: nat)
    requires Good(v)
    ensures Stored(v, v, r, va, [])
  {
  }

  lemma StoredGood(v: View, v1: View, r: nat, va: nat, d: seq<Byte>, vpn: nat)
    requires Stored(v, v1, r, va, d) && Root(v.own, r)
    ensures Good(v1) && v1.own == v.own && UserPage(v1, r, vpn) == UserPage(v, r, vpn)
  {
    hide Good, Leaf;
  }

  lemma StoreGood(v: View, p: nat, o: nat, d: seq<Byte>)
    requires Good(v) && p < |v.mem| == |v.own| && v.own[p].User? && v.mem[p].Data? && |v.mem[p].b| == PGSIZE
             && o + |d| <= PGSIZE
    ensures Good(Store(v, p, o, d)) && SameTables(v.mem, v.own, Store(v, p, o, d).mem, v.own)
  {
    hide TableOk, PageOk, FreeChain, Leaf;
    var v' := Store(v, p, o, d);
    TreeFrame(v.mem, v.own, v'.mem, v'.own);
    FreeFrame(v, v');
    StorePages(v, p, o, d);
  }

  lemma StorePages(v: View, p: nat, o: nat, d: seq<Byte>)
    requires Good(v) && p < |v.mem| == |v.own| && v.own[p].User? && v.mem[p].Data? && |v.mem[p].b| == PGSIZE
             && o + |d| <= PGSIZE
    ensures PageOk(Store(v, p, o, d).mem, v.own)
  {
    hide TreeOk, FreeOk, Leaf;
    var v' := Store(v, p, o, d);
    forall q, vpn | Root(v'.own, q) && 0 <= vpn < VPNS
      ensures LeafOk(v'.mem, v'.own, q, vpn)
    {
      LeafFrame(v.mem, v.own, v'.mem, v'.own, q, vpn);
      assert LeafOk(v.mem, v.own, q, vpn);
    }
    forall q | 0 <= q < |v'.own| && v'.own[q].User?
      ensures Root(v'.own, v'.own[q].root) && v'.own[q].vpn < TRAPFRAME
              && Leaf(v'.mem, v'.own[q].root, v'.own[q].vpn).v && Leaf(v'.mem, v'.own[q].root, v'.own[q].vpn).ppn == q
    {
      LeafFrame(v.mem, v.own, v'.mem, v'.own, v.own[q].root, v.own[q].vpn);
    }
  }

  lemma StoredMore(v: View, v1: View, r: nat, va: nat, d: seq<Byte>, e: seq<Byte>)
    requires Good(v1) && Root(v.own, r) && Stored(v, v1, r, va, d) && |e| <= PGSIZE - (va + |d|) % PGSIZE
             && UserPage(v1, r, (va + |d|) / PGSIZE) != 0
    ensures var p, o := UserPage(v1, r, (va + |d|) / PGSIZE), (va + |d|) % PGSIZE;
            && p < |v1.mem| && v1.mem[p].Data? && |v1.mem[p].b| == PGSIZE && Stored(v, Store(v1, p, o, e), r, va, d + e)
            && (|e| == PGSIZE - o ==> (va + |d| + |e|) % PGSIZE == 0)
  {
    hide Good, Leaf;
    var x := va + |d|;
    IsData(v1, r, x / PGSIZE);
    var p, o := UserPage(v1, r, x / PGSIZE), x % PGSIZE;
    var v2 := Store(v1, p, o, e);
    StoreGood(v1, p, o, e);
    forall q, vpn | Root(v.own, q) && 0 <= vpn < VPNS
      ensures Leaf(v2.mem, q, vpn) == Leaf(v.mem, q, vpn)
    {
      SameLeaf(v1, v2, q, vpn);
    }
    forall q, a | Root(v.own, q) && 0 <= a
      ensures UserPage(v2, q, a / PGSIZE) == UserPage(v1, q, a / PGSIZE)
      ensures UserByte(v2, q, a) == if q == r && x <= a < x + |e| then e[a - x] else UserByte(v1, q, a)
    {
      StoreByte(v1, v2, r, x, e, q, a);
    }
  }

  lemma StoreByte(v1: View, v2: View, r: nat, x: nat, e: seq<Byte>, q: nat, a: nat)
    requires Good(v1) && Root(v1.own, r) && Root(v1.own, q) && |e| <= PGSIZE - x % PGSIZE
             && UserPage(v1, r, x / PGSIZE) != 0
    requires var p := UserPage(v1, r, x / PGSIZE);
             p < |v1.mem| && v1.mem[p].Data? && |v1.mem[p].b| == PGSIZE && v2 == Store(v1, p, x % PGSIZE, e)
    ensures UserPage(v2, q, a / PGSIZE) == UserPage(v1, q, a / PGSIZE)
    ensures UserByte(v2, q, a) == if q == r && x <= a < x + |e| then e[a - x] else UserByte(v1, q, a)
  {
    hide Good, Leaf;
    IsData(v1, r, x / PGSIZE);
    StoreGood(v1, UserPage(v1, r, x / PGSIZE), x % PGSIZE, e);
    if a / PGSIZE < VPNS {
      SameLeaf(v1, v2, q, a / PGSIZE);
    }
    if UserPage(v1, q, a / PGSIZE) != 0 {
      IsData(v1, q, a / PGSIZE);
    }
    if x <= a < x + |e| {
      SamePage(x, a - x);
    }
  }

  lemma InRange(v: View, v1: View, r: nat, lo: nat, hi: nat)
    requires Root(v.own, r) && Changed(v, v1, r, lo, hi, {})
    ensures Good(v1) && Root(v1.own, r)
  {
    hide Good, Leaf;
    assert KeptPage(v, v1, r, lo, hi, r);
  }

  // After one more page of a range.
  lemma Further(v: View, v1: View, v2: View, r: nat, lo: nat, hi: nat, vpn: nat)
    requires Good(v) && Root(v.own, r) && Changed(v, v1, r, lo, hi, {}) && lo <= vpn < hi
             && Changed(v1, v2, r, vpn, vpn + 1, {})
    ensures Changed(v, v2, r, lo, hi, {})
    ensures forall n :: 0 <= n < VPNS && n != vpn ==> Leaf(v2.mem, r, n) == Leaf(v1.mem, r, n)
  {
    hide Good, Leaf;
    InRange(v, v1, r, lo, hi);
    TreeOf(v);
    ChangedWider(v1, v2, r, vpn, vpn + 1, lo, hi, {}, {});
    ChangedTwice(v, v1, v2, r, lo, hi, {});
  }

  lemma NoTable(v: View, r: nat, vpn: nat)
    requires Low(v.mem, r, vpn) == 0
    ensures !Leaf(v.mem, r, vpn).v
  {
  }

  lemma AfterWalk(v: View, v1: View, r: nat, vpn: nat, ppn: nat)
    requires Good(v) && Root(v.own, r) && vpn < MAXVPN && Changed(v, v1, r, 0, 0, {})
    ensures Good(v1) && Root(v1.own, r) && Leaf(v1.mem, r, vpn) == Leaf(v.mem, r, vpn)
            && (Ready(v, ppn) ==> Ready(v1, ppn))
    ensures |v1.own| == |v1.mem| && (Ready(v, ppn) ==> v1.mem[ppn] == v.mem[ppn])
  {
    hide Good, Leaf;
    assert KeptPage(v, v1, r, 0, 0, r);
    assert ppn < |v.own| ==> KeptPage(v, v1, r, 0, 0, ppn);
  }

  lemma MapDone(v: View, v1: View, r: nat, vpn: nat, t: nat, ppn: nat, perm: Pte)
    requires Good(v) && Root(v.own, r) && Changed(v, v1, r, 0, 0, {})
             && (vpn < TRAPFRAME ==> Ready(v, ppn) && v1.mem[ppn] == v.mem[ppn])
    requires CanMap(v1, r, vpn, t, Flagged(perm, ppn))
    ensures t < |v1.mem| == |v1.own| && v1.mem[t].Ptes? && |v1.mem[t].e| == NPTE && (vpn < TRAPFRAME ==> ppn < |v1.own|)
    ensures Mapped(v, MapTo(v1, r, vpn, t, Flagged(perm, ppn)), r, vpn, ppn, 1, perm)
  {
    hide Good, Leaf, Low, Changed;
    var e := Flagged(perm, ppn);
    FreeList(v1);
    MapGood(v1, r, vpn, t, e);
    Widen(v, v1, MapTo(v1, r, vpn, t, e), r, vpn, ppn);
  }

  lemma Widen(v: View, v1: View, v2: View, r: nat, vpn: nat, ppn: nat)
    requires Good(v) && Root(v.own, r) && Changed(v, v1, r, 0, 0, {}) && (vpn < TRAPFRAME ==> Ready(v, ppn))
    requires Changed(v1, v2, r, vpn, vpn + 1, if vpn < TRAPFRAME then {ppn} else {})
    ensures Changed(v, v2, r, vpn, vpn + 1, Pages(vpn, ppn, 1))
  {
    hide Changed;
    ChangedEmpty(v, v1, r, vpn, vpn + 1, {}, Pages(vpn, ppn, 1));
    assert Pages(vpn, ppn, 1) == if vpn < TRAPFRAME then {ppn} else {};
    ChangedTwice(v, v1, v2, r, vpn, vpn + 1, Pages(vpn, ppn, 1));
  }

  // An empty range is in every range.
  lemma ChangedEmpty(v: View, v': View, r: nat, lo: nat, hi: nat, except: set<nat>, except': set<nat>)
    requires Changed(v, v', r, 0, 0, except) && except <= except'
    ensures Changed(v, v', r, lo, hi, except')
  {
    hide Good, Leaf;
    forall p | 0 <= p < |v.own| && p !in except'
      ensures KeptPage(v, v', r, lo, hi, p)
    {
      assert KeptPage(v, v', r, 0, 0, p);
    }
  }

  /** The n virtual pages from vpn on are mapped to the pages from ppn on, which hold what they held. */
  ghost predicate Mapped(v: View, v': View, r: nat, vpn: nat, ppn: nat, n: nat, perm: Pte) {
    && Changed(v, v', r, vpn, vpn + n, Pages(vpn, ppn, n))
    && SamePages(v, v', vpn, ppn, n)
    && forall k :: vpn <= k < vpn + n ==> Leaf(v'.mem, r, k) == Flagged(perm, ppn + (k - vpn))
  }

  ghost predicate MapLoop(v: View, v1: View, r: nat, first: nat, ppn: nat, n: nat, perm: Pte) {
    && Good(v) && Root(v.own, r) && Mapped(v, v1, r, first, ppn, n, perm) && (n > 0 ==> first + n <= VPNS)
    && forall p :: ppn <= p <= ppn + n && first + (p - ppn) < TRAPFRAME ==> Ready(v, p)
  }

  lemma MapContext(v: View, v1: View, r: nat, first: nat, ppn: nat, n: nat, perm: Pte)
    requires MapLoop(v, v1, r, first, ppn, n, perm)
    ensures Good(v1) && Root(v1.own, r) && (first + n < TRAPFRAME ==> Ready(v1, ppn + n))
    ensures first + n < VPNS ==> Leaf(v1.mem, r, first + n) == Leaf(v.mem, r, first + n)
    ensures first + n < TRAPFRAME ==> ppn + n < |v.mem| == |v1.mem| && v1.mem[ppn + n] == v.mem[ppn + n]
  {
    hide Good, Leaf;
    var hi := first + n;
    assert r !in Pages(first, ppn, n) ==> KeptPage(v, v1, r, first, hi, r);
    assert first + n < TRAPFRAME ==> Ready(v, ppn + n) && KeptPage(v, v1, r, first, hi, ppn + n);
    NotReady(v, r, first, ppn, n);
  }

  // Pages about to be mapped are no page tables.
  lemma NotReady(v: View, r: nat, first: nat, ppn: nat, n: nat)
    requires forall p :: ppn <= p < ppn + n && first + (p - ppn) < TRAPFRAME ==> Ready(v, p)
    ensures forall p :: p in Pages(first, ppn, n) ==> p < |v.own| && v.own[p] == Held
    ensures Root(v.own, r) ==> r !in Pages(first, ppn, n)
  {
    forall p | p in Pages(first, ppn, n)
      ensures p < |v.own| && v.own[p] == Held
    {
      assert Ready(v, p);
    }
  }

  ghost predicate SamePages(v: View, v': View, vpn: nat, ppn: nat, n: nat) {
    forall p :: p in Pages(vpn, ppn, n) ==> p < |v.mem| && p < |v'.mem| && v'.mem[p] == v.mem[p]
  }

  lemma NoPages(v: View, r: nat, vpn: nat, ppn: nat, perm: Pte)
    requires Good(v)
    ensures Mapped(v, v, r, vpn, ppn, 0, perm)
  {
    NoChange(v, r, vpn, vpn);
  }

  // The pages mapped so far keep what they hold while another is mapped.
  lemma SameStill(v1: View, v2: View, r: nat, first: nat, ppn: nat, n: nat, perm: Pte, lo: nat, hi: nat,
                  except: set<nat>)
    requires Good(v1) && Root(v1.own, r) && Changed(v1, v2, r, lo, hi, except) && (lo < hi ==> first + n <= lo)
             && (n > 0 ==> first + n <= VPNS)
    requires forall p :: p in except ==> p >= ppn + n
    requires forall vpn :: first <= vpn < first + n ==> Leaf(v1.mem, r, vpn) == Flagged(perm, ppn + (vpn - first))
    ensures SamePages(v1, v2, first, ppn, n)
  {
    hide TreeOk, FreeOk, Leaf;
    forall p | p in Pages(first, ppn, n)
      ensures p < |v1.mem| && p < |v2.mem| && v2.mem[p] == v1.mem[p]
    {
      assert LeafOk(v1.mem, v1.own, r, first + (p - ppn));
      assert KeptPage(v1, v2, r, lo, hi, p);
    }
  }

  lemma MapStops(v: View, v1: View, v2: View, r: nat, first: nat, ppn: nat, n: nat, perm: Pte)
    requires MapLoop(v, v1, r, first, ppn, n, perm) && Changed(v1, v2, r, 0, 0, {})
    ensures Mapped(v, v2, r, first, ppn, n, perm)
  {
    hide Good, Leaf, Ready, Pages;
    MapContext(v, v1, r, first, ppn, n, perm);
    NotReady(v, r, first, ppn, n);
    ChangedEmpty(v1, v2, r, first, first + n, {}, Pages(first, ppn, n));
    TreeOf(v);
    ChangedTwice(v, v1, v2, r, first, first + n, Pages(first, ppn, n));
    SameStill(v1, v2, r, first, ppn, n, perm, 0, 0, {});
  }

  lemma TreeOf(v: View)
    requires Good(v)
    ensures TreeOk(v.mem, v.own)
  {
  }

  lemma MapContinues(v: View, v1: View, v2: View, r: nat, first: nat, ppn: nat, n: nat, perm: Pte)
    requires MapLoop(v, v1, r, first, ppn, n, perm) && first + n < MAXVPN
             && Mapped(v1, v2, r, first + n, ppn + n, 1, perm)
    ensures Mapped(v, v2, r, first, ppn, n + 1, perm)
  {
    hide Good, Leaf, Changed, Ready;
    MapContext(v, v1, r, first, ppn, n, perm);
    SameStill(v1, v2, r, first, ppn, n, perm, first + n, first + n + 1, Pages(first + n, ppn + n, 1));
    MapChanges(v, v1, v2, r, first, ppn, n, perm);
    if first + n < TRAPFRAME {
      assert ppn + n in Pages(first + n, ppn + n, 1);
    }
    LeavesBefore(v1, v2, r, first, n, Pages(first + n, ppn + n, 1));
  }

  lemma MapChanges(v: View, v1: View, v2: View, r: nat, first: nat, ppn: nat, n: nat, perm: Pte)
    requires MapLoop(v, v1, r, first, ppn, n, perm) && first + n < MAXVPN
             && Mapped(v1, v2, r, first + n, ppn + n, 1, perm)
    ensures Changed(v, v2, r, first, first + n + 1, Pages(first, ppn, n + 1))
  {
    hide Good, Leaf, Changed, Ready, SamePages;
    NotReady(v, r, first, ppn, n + 1);
    var all := Pages(first, ppn, n + 1);
    ChangedWider(v, v1, r, first, first + n, first, first + n + 1, Pages(first, ppn, n), all);
    assert Pages(first + n, ppn + n, 1) <= all;
    ChangedWider(v1, v2, r, first + n, first + n + 1, first, first + n + 1, Pages(first + n, ppn + n, 1), all);
    TreeOf(v);
    ChangedTwice(v, v1, v2, r, first, first + n + 1, all);
  }

  lemma LeavesBefore(v: View, v': View, r: nat, first: nat, n: nat, except: set<nat>)
    requires Root(v.own, r) && Changed(v, v', r, first + n, first + n + 1, except) && first + n < VPNS
    ensures forall k :: first <= k < first + n ==> Leaf(v'.mem, r, k) == Leaf(v.mem, r, k)
  {
    hide Good, Leaf;
  }

  lemma NoChange(v: View, r: nat, lo: nat, hi: nat)
    requires Good(v)
    ensures Changed(v, v, r, lo, hi, {}) && TreeOk(v.mem, v.own)
  {
  }

  lemma AtRoot(v: View, r: nat, va: nat)
    requires Good(v) && Root(v.own, r) && va / PGSIZE < VPNS
    ensures At(v, r, va, 2, r)
  {
  }

  lemma FreeList(v: View)
    requires Good(v)
    ensures FreeOk(v.mem, v.own, v.head, v.free) && 0 < v.start && |v.own| == |v.mem|
    ensures forall p :: 0 <= p < |v.own| ==> (v.own[p].Kernel? <==> p < v.start)
  {
  }
}
