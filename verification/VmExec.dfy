/** exec and loadseg in kernel/exec.c, as far as memory is concerned. */
module VmExec {
  import opened VmState
  import opened VmFree
  import opened Vm
  import opened VmProc

  const MAXARG := 32
  const UINT := 0x1_0000_0000
  const UINT64 := 0x1_0000_0000_0000_0000

  /** A program header: whether readi could read it, whether its type is ELF_PROG_LOAD, and its fields. */
  datatype Seg = Seg(readable: bool, load: bool, off: nat, vaddr: nat, filesz: nat, memsz: nat)

  /** The page table at pt, made since v, is one for a process of that size. */
  ghost predicate Building(v: View, w: View, tr: nat, pt: nat, tf: nat, sz: nat) {
    Good(v) && Good(w) && Around(v, w, pt) && pt < |v.own| && v.own[pt].Free? && TableFor(w, tr, pt, tf, sz)
  }

  // The pages from lo up to hi are there for the user.
  ghost predicate AllUser(w: View, pt: nat, lo: nat, hi: nat) {
    forall vpn :: lo <= vpn < hi ==> UserPage(w, pt, vpn) != 0
  }

  // ---- The image: segments over zeroes ----

  /** The size that the first k segments make. */
  ghost function Extent(segs: seq<Seg>, k: nat): (sz: nat)
    requires k <= |segs|
  {
    if k == 0 then 0
    else
      var g, sz := segs[k - 1], Extent(segs, k - 1);
      if g.load && g.vaddr + g.memsz > sz then g.vaddr + g.memsz else sz
  }

  /** What exec demands of program header k: that it can be read and, if it is to be loaded, that the
      file part is not longer than the memory part, nothing wraps around, the address is that of a page,
      the size so far is not 0, and the file has all the bytes. */
  ghost predicate SegOk(segs: seq<Seg>, file: seq<Byte>, k: nat)
    requires k < |segs|
  {
    var g := segs[k];
    g.readable && (g.load ==>
      g.filesz <= g.memsz && g.vaddr + g.memsz < UINT64 && Extent(segs, k + 1) > 0 && g.vaddr % PGSIZE == 0
                              && InFile(file, g.off % UINT, g.filesz % UINT))
  }

  ghost predicate InFile(file: seq<Byte>, off: nat, sz: nat) { sz == 0 || off + sz <= |file| }

  // Segment g puts file[off..off + size] at vaddr; its size and offset are cut off to 32 bits.
  ghost predicate Puts(g: Seg, a: nat) { g.load && g.vaddr <= a < g.vaddr + g.filesz % UINT }

  /** The byte at address a once the first k segments are loaded: that of the last segment to put one
      there, or 0. */
  ghost function Image(segs: seq<Seg>, file: seq<Byte>, k: nat, a: nat): (b: Byte)
    requires k <= |segs|
  {
    if k == 0 then 0
    else if Puts(segs[k - 1], a) then
      var x := segs[k - 1].off % UINT + (a - segs[k - 1].vaddr);
      if x < |file| then file[x] else 0
    else Image(segs, file, k - 1, a)
  }

  ghost predicate Loaded(w: View, pt: nat, segs: seq<Seg>, file: seq<Byte>, k: nat, n: nat)
    requires k <= |segs|
  {
    forall a :: 0 <= a < n * PGSIZE ==> UserByte(w, pt, a) == Image(segs, file, k, a)
  }

  // ---- Steps of the construction ----

  lemma BuildsOn(v: View, w: View, w': View, tr: nat, pt: nat, tf: nat, sz: nat, lo: nat, hi: nat, sz': nat)
    requires Building(v, w, tr, pt, tf, sz) && Changed(w, w', pt, lo, hi, {}) && hi <= TRAPFRAME
             && Up(sz') <= TRAPFRAME && Covers(w', pt, Up(sz'))
    ensures Building(v, w', tr, pt, tf, sz')
  {
    hide Good, Leaf, Covers, Around;
    ChangedAround(w, w', pt, lo, hi);
    AroundTwice(v, w, w', pt);
  }

  lemma BuildsStore(v: View, w: View, w': View, tr: nat, pt: nat, tf: nat, sz: nat, va: nat, d: seq<Byte>)
    requires Building(v, w, tr, pt, tf, sz) && Stored(w, w', pt, va, d)
    ensures Building(v, w', tr, pt, tf, sz)
  {
    hide Good, Leaf, UserByte, Read;
    StoredAround(w, w', pt, va, d);
    AroundTwice(v, w, w', pt);
  }

  /** Bytes stored in one address space are in no page of another. */
  lemma StoredAround(w: View, w': View, r: nat, va: nat, d: seq<Byte>)
    requires Good(w) && Root(w.own, r) && Stored(w, w', r, va, d)
    ensures Around(w, w', r)
  {
    hide Good, Leaf, UserByte, Read;
  }

  lemma BuildGone(v: View, w: View, w': View, tr: nat, pt: nat, tf: nat, sz: nat)
    requires Building(v, w, tr, pt, tf, sz) && Gone(w, w', pt)
    ensures Restored(v, w')
  {
    hide Good, Leaf, Covers, Restored;
    GoneAround(w, w', pt);
    AroundTwice(v, w, w', pt);
    assert Of(w.own[pt], pt);
    MadeAndGone(v, w', pt);
  }

  // ---- loadseg ----

  // d is what the file holds at off.
  ghost predicate Slice(d: seq<Byte>, file: seq<Byte>, off: nat) {
    |d| == 0 || (off + |d| <= |file| && d == file[off..off + |d|])
  }

  /** loadseg, into pages that are there for the user: its panics do not happen. d is what it stored; it
      succeeds if that is all of file[off..off + sz]. */
  method LoadSeg(vm: Vm, pt: nat, va: nat, file: seq<Byte>, off: nat, sz: nat) returns (r: int, ghost d: seq<Byte>)
    requires Good(vm.V()) && Root(vm.own, pt) && va % PGSIZE == 0 && off < UINT && sz < UINT && |file| < UINT - PGSIZE
    requires AllUser(vm.V(), pt, va / PGSIZE, Up(va + sz))
    modifies vm
    ensures Stored(old(vm.V()), vm.V(), pt, va, d) && Slice(d, file, off)
    ensures r == if |d| == sz then 0 else -1
    ensures r == 0 <==> InFile(file, off, sz)
    ensures vm.misses == old(vm.misses)
  {
    hide Good, UserPage, Stored, Slice;
    ghost var v := vm.V();
    d := [];
    StoredNone(v, pt, va);
    assert Slice(d, file, off) by { EmptySlice(file, off); }
    var i := 0;
    while i < sz
      invariant i % PGSIZE == 0 && |d| == Least(i, sz) && Stored(v, vm.V(), pt, va, d)
      invariant (i == 0 || off + Least(i, sz) <= |file|) && Slice(d, file, off) && vm.misses == old(vm.misses)
    {
      ghost var v1 := vm.V();
      StoredGood(v, v1, pt, va, d, (va + i) / PGSIZE);
      assert va / PGSIZE <= (va + i) / PGSIZE < Up(va + sz) && (va + i) % PGSIZE == 0;
      var n := Least(PGSIZE, sz - i);
      var got, e := LoadPage(vm, pt, va + i, file, (off + i) % UINT, n);
      StoredChain(v, v1, vm.V(), pt, va, d, e);
      SliceChain(d, e, file, off);
      d := d + e;
      if got != n {
        return -1, d;
      }
      i := i + PGSIZE;
    }
    r := 0;
  }

  lemma EmptySlice(file: seq<Byte>, off: nat)
    ensures Slice([], file, off)
  {
  }

  lemma SliceChain(d: seq<Byte>, e: seq<Byte>, file: seq<Byte>, off: nat)
    requires Slice(d, file, off) && Slice(e, file, off + |d|)
    ensures Slice(d + e, file, off) && (|e| > 0 ==> off + |d| + |e| <= |file|)
  {
  }

  // One round of loadseg's loop: walkaddr, and readi of n bytes into the page.
  method LoadPage(vm: Vm, pt: nat, a: nat, file: seq<Byte>, from: nat, n: nat) returns (got: nat, ghost e: seq<Byte>)
    requires Good(vm.V()) && Root(vm.own, pt) && a % PGSIZE == 0 && UserPage(vm.V(), pt, a / PGSIZE) != 0
             && 0 < n <= PGSIZE
    modifies vm
    ensures Stored(old(vm.V()), vm.V(), pt, a, e) && |e| == got && Slice(e, file, from)
    ensures got == if from > |file| then 0 else Least(n, |file| - from)
    ensures vm.misses == old(vm.misses)
  {
    hide Good, UserPage, Stored;
    ghost var v := vm.V();
    var pa := vm.WalkAddr(pt, a);
    assert pa != 0; // "loadseg: address should exist"
    IsData(v, pt, a / PGSIZE);
    got := if from > |file| then 0 else Least(n, |file| - from);
    var d := if from > |file| then [] else file[from..from + got];
    StoredNone(v, pt, a);
    StoredMore(v, v, pt, a, [], d);
    assert v.mem[pa].b[..0] + d == d && [] + d == d;
    vm.mem := vm.mem[pa := Data(d + vm.mem[pa].b[got..])];
    e := d;
  }

  lemma StoredChain(v: View, v1: View, v2: View, r: nat, va: nat, d: seq<Byte>, e: seq<Byte>)
    requires Root(v.own, r) && Stored(v, v1, r, va, d) && Stored(v1, v2, r, va + |d|, e)
    ensures Stored(v, v2, r, va, d + e)
  {
    hide Good, Leaf, UserPage, UserByte;
    forall a | va <= a < va + |d + e|
      ensures UserPage(v2, r, a / PGSIZE) != 0 && (d + e)[a - va] == UserByte(v2, r, a)
    {
      if a < va + |d| {
        assert UserByte(v2, r, a) == UserByte(v1, r, a);
        StoredGood(v1, v2, r, va + |d|, e, a / PGSIZE);
      }
    }
  }

  // ---- The loop over the program headers ----

  // The first k segments end at sz at the latest.
  ghost predicate Within(segs: seq<Seg>, k: nat, sz: nat)
    requires k <= |segs|
  {
    forall j :: 0 <= j < k && segs[j].load ==> segs[j].vaddr + segs[j].filesz % UINT <= sz
  }

  lemma {:induction false} ImageAbove(segs: seq<Seg>, file: seq<Byte>, k: nat, sz: nat, a: nat)
    requires k <= |segs| && Within(segs, k, sz) && a >= sz
    ensures Image(segs, file, k, a) == 0
  {
    if k > 0 {
      ImageAbove(segs, file, k - 1, sz, a);
    }
  }

  // What the first k segments have made of the new page table.
  ghost predicate Progress(w: View, pt: nat, segs: seq<Seg>, file: seq<Byte>, k: nat, sz: nat) {
    k <= |segs| && AllUser(w, pt, 0, Up(sz)) && Loaded(w, pt, segs, file, k, Up(sz)) && Within(segs, k, sz)
  }

  // The bytes below a range that changes stay.
  lemma ByteKept(w: View, w': View, pt: nat, lo: nat, hi: nat, a: nat)
    requires Good(w) && Root(w.own, pt) && Changed(w, w', pt, lo, hi, {}) && !(lo <= a / PGSIZE < hi)
             && UserPage(w, pt, a / PGSIZE) != 0
    ensures UserPage(w', pt, a / PGSIZE) == UserPage(w, pt, a / PGSIZE) && UserByte(w', pt, a) == UserByte(w, pt, a)
  {
    hide Good, Leaf;
    IsData(w, pt, a / PGSIZE);
    assert KeptPage(w, w', pt, lo, hi, UserPage(w, pt, a / PGSIZE));
  }

  lemma FreshByte(w: View, pt: nat, vpn: nat, a: nat)
    requires Good(w) && Root(w.own, pt) && Holds(w, pt, vpn, Zeroed(), UserPerm()) && vpn < TRAPFRAME
             && a / PGSIZE == vpn
    ensures UserPage(w, pt, vpn) != 0 && UserByte(w, pt, a) == 0
  {
    hide TreeOk, FreeOk, Leaf;
    assert LeafOk(w.mem, w.own, pt, vpn);
  }

  lemma GrowsLoaded(w: View, w': View, pt: nat, segs: seq<Seg>, file: seq<Byte>, k: nat, sz: nat, sz': nat)
    requires Good(w) && Root(w.own, pt) && Progress(w, pt, segs, file, k, sz) && sz <= sz' && Up(sz') <= TRAPFRAME
    requires Changed(w, w', pt, Up(sz), Up(sz'), {}) && Fresh(w', pt, Up(sz), Up(sz'))
    ensures Progress(w', pt, segs, file, k, sz')
  {
    hide Good, Leaf, Changed, UserPage, UserByte, Image, Holds;
    InRange(w, w', pt, Up(sz), Up(sz'));
    forall vpn | 0 <= vpn < Up(sz')
      ensures UserPage(w', pt, vpn) != 0
    {
      GrowsByte(w, w', pt, segs, file, k, sz, sz', vpn * PGSIZE);
    }
    forall a | 0 <= a < Up(sz') * PGSIZE
      ensures UserByte(w', pt, a) == Image(segs, file, k, a)
    {
      GrowsByte(w, w', pt, segs, file, k, sz, sz', a);
    }
  }

  lemma GrowsByte(w: View, w': View, pt: nat, segs: seq<Seg>, file: seq<Byte>, k: nat, sz: nat, sz': nat, a: nat)
    requires Good(w) && Good(w') && Root(w.own, pt) && Root(w'.own, pt) && Progress(w, pt, segs, file, k, sz)
             && sz <= sz' && Up(sz') <= TRAPFRAME
    requires Changed(w, w', pt, Up(sz), Up(sz'), {}) && Fresh(w', pt, Up(sz), Up(sz')) && a < Up(sz') * PGSIZE
    ensures UserPage(w', pt, a / PGSIZE) != 0 && UserByte(w', pt, a) == Image(segs, file, k, a)
  {
    hide Good, Leaf, Changed, UserPage, UserByte, Image, Holds;
    if a / PGSIZE < Up(sz) {
      assert a < Up(sz) * PGSIZE;
      ByteKept(w, w', pt, Up(sz), Up(sz'), a);
    } else {
      assert Holds(w', pt, a / PGSIZE, Zeroed(), UserPerm());
      FreshByte(w', pt, a / PGSIZE, a);
      ImageAbove(segs, file, k, sz, a);
    }
  }

  lemma StoresLoaded(w: View, w': View, pt: nat, segs: seq<Seg>, file: seq<Byte>, k: nat, sz: nat, d: seq<Byte>)
    requires Good(w) && Root(w.own, pt) && Progress(w, pt, segs, file, k, sz) && k < |segs| && segs[k].load
    requires segs[k].vaddr + segs[k].filesz % UINT <= sz && Stored(w, w', pt, segs[k].vaddr, d)
    requires |d| == segs[k].filesz % UINT && Slice(d, file, segs[k].off % UINT)
    ensures Progress(w', pt, segs, file, k + 1, sz)
  {
    hide Good, Leaf, UserPage, UserByte;
    forall vpn | 0 <= vpn < Up(sz)
      ensures UserPage(w', pt, vpn) != 0
    {
      StoredGood(w, w', pt, segs[k].vaddr, d, vpn);
    }
    forall a | 0 <= a < Up(sz) * PGSIZE
      ensures UserByte(w', pt, a) == Image(segs, file, k + 1, a)
    {
    }
  }

  lemma SkipsLoaded(w: View, pt: nat, segs: seq<Seg>, file: seq<Byte>, k: nat, sz: nat)
    requires Progress(w, pt, segs, file, k, sz) && k < |segs| && !segs[k].load
    ensures Progress(w, pt, segs, file, k + 1, sz)
  {
    hide UserPage, UserByte;
  }

  /** The loop over the program headers: if all is well, the new page table holds the image. sz is what it
      leaves in sz, which is what proc_freepagetable gets if it fails. */
  method LoadSegs(vm: Vm, pt: nat, segs: seq<Seg>, file: seq<Byte>, ghost v: View, ghost tr: nat, ghost tf: nat)
      returns (ok: bool, sz: nat)
    requires Building(v, vm.V(), tr, pt, tf, 0) && |file| < UINT - PGSIZE && forall k :: 0 <= k < |segs| ==>
             segs[k].vaddr < UINT64 && segs[k].memsz < UINT64
    modifies vm
    ensures Building(v, vm.V(), tr, pt, tf, sz)
    ensures ok <==> (forall k :: 0 <= k < |segs| ==> SegOk(segs, file, k)) && vm.misses == old(vm.misses)
    ensures vm.misses >= old(vm.misses)
    ensures ok ==> Progress(vm.V(), pt, segs, file, |segs|, sz) && sz == Extent(segs, |segs|)
  {
    hide Building, Progress;
    sz := 0;
    NoSegments(v, vm.V(), tr, pt, tf, segs, file);
    var k := 0;
    while k < |segs|
      invariant k <= |segs| && Building(v, vm.V(), tr, pt, tf, sz) && Progress(vm.V(), pt, segs, file, k, sz)
      invariant (forall j :: 0 <= j < k ==> SegOk(segs, file, j)) && sz == Extent(segs, k)
                && vm.misses == old(vm.misses)
    {
      if !segs[k].readable {
        assert !SegOk(segs, file, k);
        return false, sz;
      }
      if segs[k].load {
        ok, sz := LoadOne(vm, pt, segs, k, file, sz, v, tr, tf);
        if !ok {
          return;
        }
      } else {
        SkipsLoaded(vm.V(), pt, segs, file, k, sz);
      }
      k := k + 1;
    }
    ok := true;
  }

  lemma NoSegments(v: View, w: View, tr: nat, pt: nat, tf: nat, segs: seq<Seg>, file: seq<Byte>)
    requires Building(v, w, tr, pt, tf, 0)
    ensures Progress(w, pt, segs, file, 0, 0)
  {
  }

  // One program header to be loaded.
  method LoadOne(vm: Vm, pt: nat, segs: seq<Seg>, k: nat, file: seq<Byte>, sz: nat, ghost v: View, ghost tr: nat,
                 ghost tf: nat) returns (ok: bool, sz': nat)
    requires Building(v, vm.V(), tr, pt, tf, sz) && k < |segs| && segs[k].load && segs[k].vaddr < UINT64
             && segs[k].memsz < UINT64
    requires Progress(vm.V(), pt, segs, file, k, sz) && |file| < UINT - PGSIZE && segs[k].readable
             && sz == Extent(segs, k)
    modifies vm
    ensures Building(v, vm.V(), tr, pt, tf, sz')
    ensures ok <==> SegOk(segs, file, k) && vm.misses == old(vm.misses)
    ensures vm.misses >= old(vm.misses)
    ensures ok ==> Progress(vm.V(), pt, segs, file, k + 1, sz') && sz' == Extent(segs, k + 1)
  {
    hide Good, Leaf, Changed, Around, Covers, Fresh, Progress, Stored;
    var g := segs[k];
    if g.memsz < g.filesz {
      return false, sz;
    }
    if (g.vaddr + g.memsz) % UINT64 < g.vaddr {
      return false, sz;
    }
    ghost var w := vm.V();
    var sz1 := vm.UvmAlloc(pt, sz, g.vaddr + g.memsz);
    ghost var w1 := vm.V();
    if sz1 == 0 {
      AllocFails(v, w, w1, tr, pt, tf, sz, g.vaddr + g.memsz);
      return false, sz;
    }
    AllocWorks(v, w, w1, tr, pt, tf, sz, sz1, segs, file, k);
    if g.vaddr % PGSIZE != 0 {
      return false, sz1;
    }
    EnoughPages(w1, pt, segs, file, k, sz1, g);
    var r, d := LoadSeg(vm, pt, g.vaddr, file, g.off % UINT, g.filesz % UINT);
    BuildsStore(v, w1, vm.V(), tr, pt, tf, sz1, g.vaddr, d);
    if r < 0 {
      return false, sz1;
    }
    StoresLoaded(w1, vm.V(), pt, segs, file, k, sz1, d);
    return true, sz1;
  }

  lemma AllocFails(v: View, w: View, w1: View, tr: nat, pt: nat, tf: nat, sz: nat, newsz: nat)
    requires Building(v, w, tr, pt, tf, sz) && (newsz < sz ==> w1 == w)
    requires newsz >= sz ==>
             Covers(w1, pt, Up(sz))
             && (Changed(w, w1, pt, 0, 0, {}) || (newsz == sz && Changed(w, w1, pt, Up(sz), Up(sz), {})))
    ensures Building(v, w1, tr, pt, tf, sz)
  {
    hide Good, Leaf, Changed, Around, Covers;
    if newsz >= sz {
      if Changed(w, w1, pt, 0, 0, {}) {
        BuildsOn(v, w, w1, tr, pt, tf, sz, 0, 0, sz);
      } else {
        BuildsOn(v, w, w1, tr, pt, tf, sz, Up(sz), Up(sz), sz);
      }
    }
  }

  lemma AllocWorks(v: View, w: View, w1: View, tr: nat, pt: nat, tf: nat, sz: nat, sz1: nat, segs: seq<Seg>,
                   file: seq<Byte>, k: nat)
    requires Building(v, w, tr, pt, tf, sz) && Progress(w, pt, segs, file, k, sz) && sz <= sz1
    requires (sz1 == sz && w1 == w)
             || (Up(sz1) <= TRAPFRAME && Covers(w1, pt, Up(sz1)) && Changed(w, w1, pt, Up(sz), Up(sz1), {})
                && Fresh(w1, pt, Up(sz), Up(sz1)))
    ensures Building(v, w1, tr, pt, tf, sz1) && Progress(w1, pt, segs, file, k, sz1)
  {
    hide Good, Leaf, Changed, Around, Covers, Fresh, Progress;
    if !(sz1 == sz && w1 == w) {
      BuildsOn(v, w, w1, tr, pt, tf, sz, Up(sz), Up(sz1), sz1);
      GrowsLoaded(w, w1, pt, segs, file, k, sz, sz1);
    }
  }

  lemma EnoughPages(w: View, pt: nat, segs: seq<Seg>, file: seq<Byte>, k: nat, sz: nat, g: Seg)
    requires Progress(w, pt, segs, file, k, sz) && g.vaddr + g.memsz <= sz && g.filesz <= g.memsz
    ensures AllUser(w, pt, g.vaddr / PGSIZE, Up(g.vaddr + g.filesz % UINT))
  {
    hide UserPage;
    assert Up(g.vaddr + g.filesz % UINT) <= Up(sz);
  }

  // ---- The stack ----

  /** The size rounded up, and two pages more: the second is the stack, the first is not there for the
      user. */
  method MakeStack(vm: Vm, pt: nat, segs: seq<Seg>, file: seq<Byte>, sz: nat, ghost v: View, ghost tr: nat,
                   ghost tf: nat) returns (ok: bool, sz': nat)
    requires Building(v, vm.V(), tr, pt, tf, sz) && Progress(vm.V(), pt, segs, file, |segs|, sz)
    modifies vm
    ensures Building(v, vm.V(), tr, pt, tf, sz')
    ensures ok ==>
            sz' == (Up(sz) + 2) * PGSIZE && UserPage(vm.V(), pt, Up(sz) + 1) != 0 && UserPage(vm.V(), pt, Up(sz)) == 0
    ensures ok ==> Loaded(vm.V(), pt, segs, file, |segs|, Up(sz)) && AllUser(vm.V(), pt, 0, Up(sz))
    ensures vm.misses == old(vm.misses) + if ok then 0 else 1
  {
    hide Good, Leaf, Changed, Around, Covers, Fresh, Progress, UserPage, Loaded, AllUser;
    ghost var w := vm.V();
    sz' := Up(sz) * PGSIZE;
    RoundedUp(v, w, tr, pt, tf, sz, segs, file);
    var sz1 := vm.UvmAlloc(pt, sz', sz' + 2 * PGSIZE);
    ghost var w1 := vm.V();
    if sz1 == 0 {
      AllocFails(v, w, w1, tr, pt, tf, sz', sz' + 2 * PGSIZE);
      return false, sz';
    }
    AllocWorks(v, w, w1, tr, pt, tf, sz', sz1, segs, file, |segs|);
    sz' := sz1;
    IsMapped(w1, pt, Up(sz1), Up(sz));
    vm.UvmClear(pt, sz' - 2 * PGSIZE);
    GuardMade(v, w1, vm.V(), tr, pt, tf, sz, segs, file);
    ok := true;
  }

  lemma RoundedUp(v: View, w: View, tr: nat, pt: nat, tf: nat, sz: nat, segs: seq<Seg>, file: seq<Byte>)
    requires Building(v, w, tr, pt, tf, sz) && Progress(w, pt, segs, file, |segs|, sz)
    ensures Building(v, w, tr, pt, tf, Up(sz) * PGSIZE) && Progress(w, pt, segs, file, |segs|, Up(sz) * PGSIZE)
            && Up(Up(sz) * PGSIZE) == Up(sz)
  {
    hide Good, Leaf, Around, Covers, UserPage, UserByte, Image;
    assert sz <= Up(sz) * PGSIZE;
  }

  lemma IsMapped(w: View, pt: nat, n: nat, vpn: nat)
    requires Covers(w, pt, n) && vpn < n <= TRAPFRAME
    ensures Leaf(w.mem, pt, vpn).v
  {
    hide Leaf;
  }

  lemma GuardMade(v: View, w: View, w': View, tr: nat, pt: nat, tf: nat, sz: nat, segs: seq<Seg>, file: seq<Byte>)
    requires var n := Up(sz);
             Building(v, w, tr, pt, tf, (n + 2) * PGSIZE) && Progress(w, pt, segs, file, |segs|, (n + 2) * PGSIZE)
    requires var n := Up(sz);
             Changed(w, w', pt, n, n + 1, {}) && Leaf(w.mem, pt, n).v && Leaf(w'.mem, pt, n).v && !Leaf(w'.mem, pt, n).u
    ensures Building(v, w', tr, pt, tf, (Up(sz) + 2) * PGSIZE)
    ensures UserPage(w', pt, Up(sz) + 1) != 0 && UserPage(w', pt, Up(sz)) == 0
    ensures Loaded(w', pt, segs, file, |segs|, Up(sz)) && AllUser(w', pt, 0, Up(sz))
  {
    hide Good, Leaf, Changed, Around, UserByte, Image;
    var n := Up(sz);
    assert Up((n + 2) * PGSIZE) == n + 2;
    StillCovers(w, w', pt, n, n + 2);
    BuildsOn(v, w, w', tr, pt, tf, (n + 2) * PGSIZE, n, n + 1, (n + 2) * PGSIZE);
    forall a | 0 <= a < n * PGSIZE
      ensures UserPage(w', pt, a / PGSIZE) != 0 && UserByte(w', pt, a) == Image(segs, file, |segs|, a)
    {
      GuardByte(v, w, w', tr, pt, tf, n, a);
    }
    forall vpn | 0 <= vpn < n
      ensures UserPage(w', pt, vpn) != 0
    {
      assert vpn * PGSIZE / PGSIZE == vpn;
    }
    GuardByte(v, w, w', tr, pt, tf, n, (n + 1) * PGSIZE);
  }

  lemma GuardByte(v: View, w: View, w': View, tr: nat, pt: nat, tf: nat, n: nat, a: nat)
    requires Building(v, w, tr, pt, tf, (n + 2) * PGSIZE) && AllUser(w, pt, 0, n + 2)
             && Changed(w, w', pt, n, n + 1, {})
    requires a < (n + 2) * PGSIZE && a / PGSIZE != n
    ensures UserPage(w', pt, a / PGSIZE) != 0 && UserByte(w', pt, a) == UserByte(w, pt, a)
  {
    hide Good, Leaf, Changed, UserByte, UserPage, Around, Covers;
    ByteKept(w, w', pt, n, n + 1, a);
  }

  lemma StillCovers(w: View, w': View, pt: nat, vpn: nat, n: nat)
    requires Root(w.own, pt) && Covers(w, pt, n) && Changed(w, w', pt, vpn, vpn + 1, {}) && vpn < n <= TRAPFRAME
             && Leaf(w'.mem, pt, vpn).v
    ensures Covers(w', pt, n)
  {
    hide Good, Leaf;
  }

  // ---- The arguments ----

  /** A 64-bit number, little-endian. */
  function Le64(x: nat): (b: seq<Byte>)
    ensures |b| == 8
  {
    seq(8, i requires 0 <= i < 8 => x / Pow256(i) % 256)
  }

  function Pow256(i: nat): (p: nat)
    ensures p > 0
  {
    if i == 0 then 1 else 256 * Pow256(i - 1)
  }

  function Words(xs: seq<nat>): (b: seq<Byte>)
    ensures |b| == 8 * |xs|
  {
    if |xs| == 0 then [] else Words(xs[..|xs| - 1]) + Le64(xs[|xs| - 1])
  }

  /** The strings of argv are at ptrs, from sp up to top, each with its NUL. */
  ghost predicate Pushed(w: View, pt: nat, argv: seq<seq<Byte>>, ptrs: seq<nat>, sp: nat, top: nat) {
    && |ptrs| <= |argv| && sp <= top
    && forall k :: 0 <= k < |ptrs| ==>
       sp <= ptrs[k] && ptrs[k] + |argv[k]| + 1 <= top && ptrs[k] % 16 == 0 && Read(w, pt, ptrs[k], argv[k] + [0])
  }

  lemma ReadKept(w: View, w': View, pt: nat, x: nat, d: seq<Byte>, y: nat, e: seq<Byte>)
    requires Root(w.own, pt) && Stored(w, w', pt, x, d) && Read(w, pt, y, e) && (x + |d| <= y || y + |e| <= x)
    ensures Read(w', pt, y, e)
  {
    hide Good, Leaf, UserPage, UserByte;
    forall a | y <= a < y + |e|
      ensures UserPage(w', pt, a / PGSIZE) != 0 && e[a - y] == UserByte(w', pt, a)
    {
      StoredGood(w, w', pt, x, d, a / PGSIZE);
    }
  }

  lemma PushedKept(w: View, w': View, pt: nat, x: nat, d: seq<Byte>, argv: seq<seq<Byte>>, ptrs: seq<nat>, sp: nat,
                   top: nat)
    requires Root(w.own, pt) && Stored(w, w', pt, x, d) && Pushed(w, pt, argv, ptrs, sp, top) && x + |d| <= sp
    ensures Pushed(w', pt, argv, ptrs, x, top)
  {
    hide Good, Leaf, Read, Stored;
    forall k | 0 <= k < |ptrs|
      ensures Read(w', pt, ptrs[k], argv[k] + [0])
    {
      ReadKept(w, w', pt, x, d, ptrs[k], argv[k] + [0]);
    }
  }

  lemma LoadedKept(w: View, w': View, pt: nat, x: nat, d: seq<Byte>, segs: seq<Seg>, file: seq<Byte>, n: nat)
    requires Root(w.own, pt) && Stored(w, w', pt, x, d) && Loaded(w, pt, segs, file, |segs|, n) && n * PGSIZE <= x
    ensures Loaded(w', pt, segs, file, |segs|, n)
  {
    hide Good, Leaf, UserByte, Image, Read;
  }

  /** Page n + 1, the stack, is there for the user, and page n below it is not. */
  ghost predicate Guarded(w: View, pt: nat, n: nat) { UserPage(w, pt, n + 1) != 0 && UserPage(w, pt, n) == 0 }

  // The image is in place, and so are the arguments pushed so far.
  ghost predicate Stacked(v: View, w: View, tr: nat, pt: nat, tf: nat, sz: nat, segs: seq<Seg>, file: seq<Byte>,
                          n: nat, argv: seq<seq<Byte>>, ptrs: seq<nat>, sp: nat) {
    && Building(v, w, tr, pt, tf, sz) && Loaded(w, pt, segs, file, |segs|, n) && Pushed(w, pt, argv, ptrs, sp, sz)
       && sz == (n + 2) * PGSIZE
    && AllUser(w, pt, 0, n) && Guarded(w, pt, n)
  }

  lemma StackedKept(v: View, w: View, w': View, tr: nat, pt: nat, tf: nat, sz: nat, segs: seq<Seg>, file: seq<Byte>,
                    n: nat, argv: seq<seq<Byte>>, ptrs: seq<nat>, sp: nat, x: nat, d: seq<Byte>)
    requires Stacked(v, w, tr, pt, tf, sz, segs, file, n, argv, ptrs, sp) && Stored(w, w', pt, x, d) && x + |d| <= sp
             && n * PGSIZE <= x
    ensures Stacked(v, w', tr, pt, tf, sz, segs, file, n, argv, ptrs, x)
  {
    hide Good, Leaf, Around, Covers, Loaded, Pushed, Stored, UserPage;
    BuildsStore(v, w, w', tr, pt, tf, sz, x, d);
    LoadedKept(w, w', pt, x, d, segs, file, n);
    PushedKept(w, w', pt, x, d, argv, ptrs, sp, sz);
    forall vpn | 0 <= vpn < n
      ensures UserPage(w', pt, vpn) != 0
    {
      StoredGood(w, w', pt, x, d, vpn);
    }
    StoredGood(w, w', pt, x, d, n);
    StoredGood(w, w', pt, x, d, n + 1);
  }

  // Where what is pushed below sp starts.
  function Down(sp: int, len: nat): (sp': int) { sp - len - (sp - len) % 16 }

  /** sp after k argument strings were pushed below top. */
  function ArgSp(argv: seq<seq<Byte>>, k: nat, top: nat): (sp: int)
    requires k <= |argv|
  {
    if k == 0 then top else Down(ArgSp(argv, k - 1, top), |argv[k - 1]| + 1)
  }

  /** sp after the pointers were pushed too. */
  function LastSp(argv: seq<seq<Byte>>, top: nat): (sp: int) { Down(ArgSp(argv, |argv|, top), 8 * (|argv| + 1)) }

  /** The arguments are not too many, and fit in the one page of stack. */
  predicate ArgsFit(argv: seq<seq<Byte>>, top: nat) { |argv| <= MAXARG && LastSp(argv, top) >= top - PGSIZE }

  lemma {:induction false} SpFalls(argv: seq<seq<Byte>>, k: nat, top: nat)
    requires k <= |argv|
    ensures LastSp(argv, top) <= ArgSp(argv, k, top)
    decreases |argv| - k
  {
    if k < |argv| {
      SpFalls(argv, k + 1, top);
    }
  }

  // Bytes pushed below sp, at a multiple of 16 not below the stack page.
  method Push(vm: Vm, pt: nat, sp: nat, d: seq<Byte>, sz: nat, ghost v: View, ghost tr: nat, ghost tf: nat,
              ghost segs: seq<Seg>, ghost file: seq<Byte>, ghost n: nat, ghost argv: seq<seq<Byte>>,
              ghost ptrs: seq<nat>)
      returns (ok: bool, sp': nat)
    requires Stacked(v, vm.V(), tr, pt, tf, sz, segs, file, n, argv, ptrs, sp) && PGSIZE <= sz && sz - PGSIZE <= sp
             && |d| <= sp
    modifies vm
    ensures Building(v, vm.V(), tr, pt, tf, sz)
    ensures ok <==> Down(sp, |d|) >= sz - PGSIZE
    ensures ok ==> sp' == Down(sp, |d|) && Read(vm.V(), pt, sp', d)
    ensures ok ==> Stacked(v, vm.V(), tr, pt, tf, sz, segs, file, n, argv, ptrs, sp')
    ensures vm.misses == old(vm.misses)
  {
    hide Good, Leaf, Around, Covers, Loaded, Pushed, Stored, Read;
    ghost var w := vm.V();
    BuiltOf(v, w, tr, pt, tf, sz, segs, file, n, argv, ptrs, sp);
    sp' := sp - |d|;
    sp' := sp' - sp' % 16;
    if sp' < sz - PGSIZE {
      return false, sp';
    }
    ghost var done;
    ok, done := vm.CopyOut(pt, sp', d);
    assert d[..done] == d;
    StackedKept(v, w, vm.V(), tr, pt, tf, sz, segs, file, n, argv, ptrs, sp, sp', d);
    JustRead(w, vm.V(), pt, sp', d);
  }

  lemma JustRead(w: View, w': View, pt: nat, va: nat, d: seq<Byte>)
    requires Stored(w, w', pt, va, d)
    ensures Read(w', pt, va, d)
  {
  }

  /** The argument strings, and below them the array of pointers to them, ended by a null pointer. */
  method PushArgs(vm: Vm, pt: nat, argv: seq<seq<Byte>>, sz: nat, ghost v: View, ghost tr: nat, ghost tf: nat,
                  ghost segs: seq<Seg>, ghost file: seq<Byte>, ghost n: nat)
      returns (ok: bool, sp: nat, ptrs: seq<nat>)
    requires Stacked(v, vm.V(), tr, pt, tf, sz, segs, file, n, argv, [], sz) && 2 * PGSIZE <= sz
    requires forall k :: 0 <= k < |argv| ==> |argv[k]| < PGSIZE
    modifies vm
    ensures Building(v, vm.V(), tr, pt, tf, sz)
    ensures ok <==> ArgsFit(argv, sz)
    ensures ok ==> |ptrs| == |argv| && sp == LastSp(argv, sz) && Read(vm.V(), pt, sp, Words(ptrs + [0]))
    ensures ok ==> Stacked(v, vm.V(), tr, pt, tf, sz, segs, file, n, argv, ptrs, sp)
    ensures vm.misses == old(vm.misses)
  {
    hide Stacked, Building, Read;
    ptrs, sp := [], sz;
    BuiltOf(v, vm.V(), tr, pt, tf, sz, segs, file, n, argv, ptrs, sp);
    while |ptrs| < |argv|
      invariant |ptrs| <= |argv| && |ptrs| <= MAXARG && sz - PGSIZE <= sp <= sz
                && Stacked(v, vm.V(), tr, pt, tf, sz, segs, file, n, argv, ptrs, sp)
      invariant Building(v, vm.V(), tr, pt, tf, sz) && sp == ArgSp(argv, |ptrs|, sz) && vm.misses == old(vm.misses)
    {
      SpFalls(argv, |ptrs| + 1, sz);
      if |ptrs| >= MAXARG {
        return false, sp, ptrs;
      }
      ok, sp := Push(vm, pt, sp, argv[|ptrs|] + [0], sz, v, tr, tf, segs, file, n, argv, ptrs);
      if !ok {
        return;
      }
      OneMore(v, vm.V(), tr, pt, tf, sz, segs, file, n, argv, ptrs, sp);
      ptrs := ptrs + [sp];
    }
    ok, sp := Push(vm, pt, sp, Words(ptrs + [0]), sz, v, tr, tf, segs, file, n, argv, ptrs);
  }

  lemma BuiltOf(v: View, w: View, tr: nat, pt: nat, tf: nat, sz: nat, segs: seq<Seg>, file: seq<Byte>, n: nat,
                argv: seq<seq<Byte>>, ptrs: seq<nat>, sp: nat)
    requires Stacked(v, w, tr, pt, tf, sz, segs, file, n, argv, ptrs, sp)
    ensures Building(v, w, tr, pt, tf, sz) && sp <= sz
  {
  }

  lemma OneMore(v: View, w: View, tr: nat, pt: nat, tf: nat, sz: nat, segs: seq<Seg>, file: seq<Byte>, n: nat,
                argv: seq<seq<Byte>>, ptrs: seq<nat>, sp: nat)
    requires Stacked(v, w, tr, pt, tf, sz, segs, file, n, argv, ptrs, sp) && |ptrs| < |argv|
             && Read(w, pt, sp, argv[|ptrs|] + [0]) && sp % 16 == 0
    requires sp + |argv[|ptrs|]| + 1 <= sz
    ensures Stacked(v, w, tr, pt, tf, sz, segs, file, n, argv, ptrs + [sp], sp)
  {
    hide Building, Loaded, Read;
  }

  // ---- The whole of exec ----

  /** From v to v' the page table `from` of a process was replaced by the page table `to`: pages moved only
      between these two and the free list, and nothing of `from` is left. */
  ghost predicate Replaced(v: View, v': View, from: nat, to: nat) {
    && Good(v') && v'.start == v.start && |v'.own| == |v.own| == |v.mem| == |v'.mem|
    && (forall p :: 0 <= p < |v.own| ==>
       if v.own[p].Free? || Of(v.own[p], from) then v'.own[p].Free? || Of(v'.own[p], to)
       else v'.own[p] == v.own[p] && v'.mem[p] == v.mem[p])
    && (forall q, vpn :: Root(v.own, q) && q != from && 0 <= vpn < VPNS ==> Leaf(v'.mem, q, vpn) == Leaf(v.mem, q, vpn))
  }

  /** The size of a process after exec: the pages of the segments and two more. */
  ghost function StackTop(segs: seq<Seg>): (sz: nat) { (Up(Extent(segs, |segs|)) + 2) * PGSIZE }

  /** exec of a file with those program headers. It succeeds if and only if the headers and the arguments
      are in order and kalloc always has a page. If it fails, the process and all memory are as before. If
      it succeeds, the process's new memory holds the image of the segments over zeroes, and above it the
      arguments, and its old memory is free. */
  method Exec(pm: ProcMem, i: nat, header: bool, segs: seq<Seg>, file: seq<Byte>, argv: seq<seq<Byte>>)
      returns (r: int, sp: nat, ghost ptrs: seq<nat>, ghost n: nat)
    requires ProcsOk(pm.vm.V(), pm.trampoline, pm.procs) && i < |pm.procs| && pm.procs[i].pagetable != 0
             && |file| < UINT - PGSIZE
    requires forall k :: 0 <= k < |segs| ==> segs[k].vaddr < UINT64 && segs[k].memsz < UINT64
    requires forall k :: 0 <= k < |argv| ==> |argv[k]| < PGSIZE
    modifies pm, pm.vm
    ensures ProcsOk(pm.vm.V(), pm.trampoline, pm.procs)
    ensures r < 0 ==> r == -1 && pm.procs == old(pm.procs) && Restored(old(pm.vm.V()), pm.vm.V())
    ensures r >= 0 <==>
            header && (forall k :: 0 <= k < |segs| ==> SegOk(segs, file, k)) && ArgsFit(argv, StackTop(segs))
            && pm.vm.misses == old(pm.vm.misses)
    ensures pm.vm.misses >= old(pm.vm.misses)
    ensures r >= 0 ==>
            |pm.procs| == |old(pm.procs)| && pm.procs == old(pm.procs)[i := pm.procs[i]]
            && pm.procs[i].sz == StackTop(segs) == (n + 2) * PGSIZE
    ensures r >= 0 ==> Replaced(old(pm.vm.V()), pm.vm.V(), old(pm.procs)[i].pagetable, pm.procs[i].pagetable)
    ensures r >= 0 ==>
            Loaded(pm.vm.V(), pm.procs[i].pagetable, segs, file, |segs|, n)
            && Guarded(pm.vm.V(), pm.procs[i].pagetable, n)
    ensures r >= 0 ==> AllUser(pm.vm.V(), pm.procs[i].pagetable, 0, n) && pm.procs[i].pagetable != 0
    ensures r >= 0 ==> r == |argv| == |ptrs| && Pushed(pm.vm.V(), pm.procs[i].pagetable, argv, ptrs, sp, pm.procs[i].sz)
    ensures r >= 0 ==> Read(pm.vm.V(), pm.procs[i].pagetable, sp, Words(ptrs + [0]))
  {
    hide Good, Restored, Around, Covers, Loaded, Pushed, Read, Progress, Leaf, UserPage, AllUser, Replaced, Gone;
    ghost var v, tr, p := pm.vm.V(), pm.trampoline, pm.procs[i];
    assert SlotOk(v, tr, p, i);
    r, sp, ptrs, n := -1, 0, [], 0;
    RestoredSelf(v);
    FreeList(v);
    if !header {
      return;
    }
    var pt := pm.ProcPagetable(pm.procs[i].trapframe);
    if pt == 0 {
      ProcsRestored(v, pm.vm.V(), tr, pm.procs);
      return;
    }
    ghost var w := pm.vm.V();
    GoodNow(v, w, pt);
    var ok, sz := LoadSegs(pm.vm, pt, segs, file, v, tr, p.trapframe);
    if ok {
      n := Up(sz);
      ok, sz := MakeStack(pm.vm, pt, segs, file, sz, v, tr, p.trapframe);
      if ok {
        NothingPushed(v, pm.vm.V(), tr, pt, p.trapframe, sz, segs, file, n, argv);
        var ps;
        ok, sp, ps := PushArgs(pm.vm, pt, argv, sz, v, tr, p.trapframe, segs, file, n);
        ptrs := ps;
        r := |ps|;
      }
    }
    ghost var w1 := pm.vm.V();
    if !ok {
      r := -1;
      pm.ProcFreePagetable(pt, sz, p.trapframe);
      BuildGone(v, w1, pm.vm.V(), tr, pt, p.trapframe, sz);
      ProcsRestored(v, pm.vm.V(), tr, pm.procs);
      return;
    }
    OldTable(v, w1, tr, p, i, pt);
    var oldpt, oldsz := pm.procs[i].pagetable, pm.procs[i].sz;
    pm.procs := pm.procs[i := Proc(pm.procs[i].trapframe, pt, sz)];
    pm.ProcFreePagetable(oldpt, oldsz, p.trapframe);
    ghost var w2 := pm.vm.V();
    Swapped(v, w1, w2, p.pagetable, pt);
    NewKept(w1, w2, p.pagetable, pt, segs, file, n, argv, ptrs, sp, sz);
    NewTable(w1, w2, tr, p.pagetable, pt, p.trapframe, sz);
    ProcsReplaced(v, w2, tr, old(pm.procs), i, pt, sz);
  }

  lemma GoodNow(v: View, w: View, pt: nat)
    requires Around(v, w, pt)
    ensures Good(w)
  {
  }

  lemma NothingPushed(v: View, w: View, tr: nat, pt: nat, tf: nat, sz: nat, segs: seq<Seg>, file: seq<Byte>, n: nat,
                      argv: seq<seq<Byte>>)
    requires Building(v, w, tr, pt, tf, sz) && Loaded(w, pt, segs, file, |segs|, n) && AllUser(w, pt, 0, n)
             && sz == (n + 2) * PGSIZE && Guarded(w, pt, n)
    ensures Stacked(v, w, tr, pt, tf, sz, segs, file, n, argv, [], sz)
  {
    hide Building, Loaded;
  }

  lemma OldTable(v: View, w: View, tr: nat, p: Proc, i: nat, pt: nat)
    requires Around(v, w, pt) && pt < |v.own| && v.own[pt].Free? && |v.own| == |v.mem| && SlotOk(v, tr, p, i)
             && p.pagetable != 0
    ensures p.pagetable != pt && Good(w) && TableFor(w, tr, p.pagetable, p.trapframe, p.sz)
  {
    hide Good, Leaf;
    SlotKept(v, w, pt, tr, p, i);
  }

  lemma Swapped(v: View, w: View, w': View, from: nat, to: nat)
    requires Good(v) && Root(v.own, from) && Around(v, w, to) && to < |v.own| && v.own[to].Free? && Gone(w, w', from)
    ensures Replaced(v, w', from, to)
  {
    hide Good, Leaf;
    forall p | 0 <= p < |v.own|
      ensures if v.own[p].Free? || Of(v.own[p], from) then w'.own[p].Free? || Of(w'.own[p], to)
              else w'.own[p] == v.own[p] && w'.mem[p] == v.mem[p]
    {
      assert AroundPage(v, w, to, p);
      NotOf(v, to, p);
    }
    forall q, vpn | Root(v.own, q) && q != from && 0 <= vpn < VPNS
      ensures Leaf(w'.mem, q, vpn) == Leaf(v.mem, q, vpn)
    {
      assert AroundPage(v, w, to, q);
    }
  }

  lemma SameBytes(w: View, w': View, from: nat, to: nat, a: nat)
    requires Good(w) && Root(w.own, to) && Gone(w, w', from) && from != to
    ensures UserPage(w', to, a / PGSIZE) == UserPage(w, to, a / PGSIZE)
    ensures UserPage(w, to, a / PGSIZE) != 0 ==> UserByte(w', to, a) == UserByte(w, to, a)
  {
    hide Good, Leaf;
    if UserPage(w, to, a / PGSIZE) != 0 {
      IsData(w, to, a / PGSIZE);
    }
  }

  // Freeing the old page table leaves the bytes of the new one.
  lemma NewKept(w: View, w': View, from: nat, to: nat, segs: seq<Seg>, file: seq<Byte>, n: nat, argv: seq<seq<Byte>>,
                ptrs: seq<nat>, sp: nat, sz: nat)
    requires Good(w) && Root(w.own, to) && Gone(w, w', from) && from != to
    requires AllUser(w, to, 0, n) && Loaded(w, to, segs, file, |segs|, n) && Pushed(w, to, argv, ptrs, sp, sz)
             && Read(w, to, sp, Words(ptrs + [0])) && Guarded(w, to, n)
    ensures AllUser(w', to, 0, n) && Guarded(w', to, n) && Loaded(w', to, segs, file, |segs|, n)
            && Pushed(w', to, argv, ptrs, sp, sz) && Read(w', to, sp, Words(ptrs + [0]))
  {
    hide Good, Leaf, UserPage, UserByte, Image, Gone, Words;
    forall a | 0 <= a < n * PGSIZE
      ensures UserByte(w', to, a) == UserByte(w, to, a)
    {
      assert 0 <= a / PGSIZE < n;
      SameBytes(w, w', from, to, a);
    }
    forall vpn | 0 <= vpn < n
      ensures UserPage(w', to, vpn) != 0
    {
      SameBytes(w, w', from, to, vpn * PGSIZE);
    }
    forall k | 0 <= k < |ptrs|
      ensures Read(w', to, ptrs[k], argv[k] + [0])
    {
      StillRead(w, w', from, to, ptrs[k], argv[k] + [0]);
    }
    StillRead(w, w', from, to, sp, Words(ptrs + [0]));
    SameBytes(w, w', from, to, n * PGSIZE);
    SameBytes(w, w', from, to, (n + 1) * PGSIZE);
  }

  lemma StillRead(w: View, w': View, from: nat, to: nat, va: nat, d: seq<Byte>)
    requires Good(w) && Root(w.own, to) && Gone(w, w', from) && from != to && Read(w, to, va, d)
    ensures Read(w', to, va, d)
  {
    hide Good, Leaf, UserPage, UserByte, Gone;
    forall a | va <= a < va + |d|
      ensures UserPage(w', to, a / PGSIZE) != 0 && d[a - va] == UserByte(w', to, a)
    {
      SameBytes(w, w', from, to, a);
    }
  }

  lemma NewTable(w: View, w': View, tr: nat, from: nat, to: nat, tf: nat, sz: nat)
    requires TableFor(w, tr, to, tf, sz) && Gone(w, w', from) && from != to
    ensures TableFor(w', tr, to, tf, sz)
  {
    hide Good, Leaf;
  }

  lemma ProcsReplaced(v: View, v': View, tr: nat, procs: seq<Proc>, i: nat, pt: nat, sz: nat)
    requires ProcsOk(v, tr, procs) && i < |procs| && procs[i].pagetable != 0 && Replaced(v, v', procs[i].pagetable, pt)
    requires pt < |v.own| && v.own[pt].Free? && pt != 0 && TableFor(v', tr, pt, procs[i].trapframe, sz)
    ensures ProcsOk(v', tr, procs[i := Proc(procs[i].trapframe, pt, sz)])
  {
    hide Good, Leaf, Covers;
    var p, procs' := procs[i], procs[i := Proc(procs[i].trapframe, pt, sz)];
    assert SlotOk(v, tr, p, i);
    forall j | 0 <= j < |procs|
      ensures SlotOk(v', tr, procs'[j], j)
    {
      assert SlotOk(v, tr, procs[j], j);
      if j != i && procs[j].pagetable != 0 {
        Distinct(v, tr, procs, i, j);
        SlotBeside(v, v', tr, p.pagetable, pt, procs[j], j);
      }
    }
    forall j | 0 <= j < |procs| && j != i
      ensures procs[j].pagetable != pt
    {
      assert SlotOk(v, tr, procs[j], j);
    }
    forall r | Root(v'.own, r)
      ensures Used(procs', r)
    {
      assert r == pt || (Root(v.own, r) && r != p.pagetable);
      UsedStill(procs, i, Proc(p.trapframe, pt, sz), r);
    }
  }

  lemma SlotBeside(v: View, v': View, tr: nat, from: nat, to: nat, s: Proc, j: nat)
    requires SlotOk(v, tr, s, j) && s.pagetable != 0 && s.pagetable != from && Replaced(v, v', from, to)
    ensures SlotOk(v', tr, s, j)
  {
    hide Good, Leaf;
    assert !Of(v.own[s.pagetable], from) && !Of(v.own[s.trapframe], from);
  }
}
