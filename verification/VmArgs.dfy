/** sys_exec in kernel/sysfile.c: the argument strings are fetched from user memory into pages of the
    kernel's, exec gets them, and the pages are freed again on every path. */
module VmArgs {
  import opened VmState
  import opened VmFree
  import opened Vm
  import opened VmProc
  import opened VmExec

  // ---- Pages that kernel code holds for a while ----

  /** From v to w the pages in `held` came off the free list; no other page changed hands, and no page in
      use changed. */
  ghost predicate Beside(v: View, w: View, held: set<nat>) {
    && Good(w) && w.start == v.start && |w.own| == |v.own| == |v.mem| == |w.mem|
    && (forall p :: p in held ==> p < |v.own| && v.own[p].Free? && w.own[p].Held?)
    && (forall p :: 0 <= p < |v.own| && p !in held ==>
       if v.own[p].Free? then w.own[p].Free? else w.own[p] == v.own[p] && w.mem[p] == v.mem[p])
    && (forall q, vpn :: Root(v.own, q) && 0 <= vpn < VPNS ==> Leaf(w.mem, q, vpn) == Leaf(v.mem, q, vpn))
  }

  /** From w to w' the pages in `held` went back to the free list, and nothing else happened. */
  ghost predicate GaveBack(w: View, w': View, held: set<nat>) {
    && Good(w') && w'.start == w.start && |w'.own| == |w.own| == |w.mem| == |w'.mem|
    && (forall p :: p in held ==> p < |w.own| && w.own[p].Held? && w'.own[p].Free?)
    && (forall p :: 0 <= p < |w.own| && p !in held ==>
       if w.own[p].Free? then w'.own[p].Free? else w'.own[p] == w.own[p] && w'.mem[p] == w.mem[p])
    && (forall q, vpn :: Root(w.own, q) && 0 <= vpn < VPNS ==> Leaf(w'.mem, q, vpn) == Leaf(w.mem, q, vpn))
  }

  lemma NothingHeld(v: View)
    requires Good(v)
    ensures Beside(v, v, {}) && GaveBack(v, v, {})
  {
    hide TreeOk, PageOk, FreeOk, Leaf;
  }

  // One page off the free list, filled.
  ghost predicate Grabbed(w: View, w': View, p: nat) {
    && Good(w') && w'.start == w.start && 0 < p < |w.own| == |w.mem| == |w'.own| == |w'.mem| && w.own[p].Free?
       && w'.own[p].Held?
    && (forall k :: 0 <= k < |w.own| && k != p ==>
       (w'.own[k] == w.own[k] || (w.own[k].Free? && w'.own[k].Free?)) && w'.mem[k] == w.mem[k])
    && (forall q, vpn :: Root(w.own, q) && 0 <= vpn < VPNS ==> Leaf(w'.mem, q, vpn) == Leaf(w.mem, q, vpn))
  }

  lemma FilledGrabbed(w: View, b: seq<Byte>)
    requires Good(w) && |w.free| > 0 && |b| == PGSIZE
    ensures FreeOk(w.mem, w.own, w.head, w.free) && Grabbed(w, Filled(w, b), w.free[|w.free| - 1])
  {
    hide TreeOk, PageOk, Leaf, FreeChain;
    FilledGood(w, b, 0);
  }

  lemma OneHeld(v: View, w: View, w': View, held: set<nat>, p: nat)
    requires Beside(v, w, held) && Grabbed(w, w', p)
    ensures p !in held && Beside(v, w', held + {p})
  {
    hide Good, Leaf;
    forall q, vpn | Root(v.own, q) && 0 <= vpn < VPNS
      ensures Leaf(w'.mem, q, vpn) == Leaf(v.mem, q, vpn)
    {
      assert Root(w.own, q);
    }
  }

  lemma OneGiven(w: View, w1: View, held: set<nat>, p: nat)
    requires Good(w) && Good(w1) && GaveBack(w, w1, held) && p < |w.own| && w.own[p].Held? && p !in held
    ensures p < |w1.own| == |w1.mem| && w1.own[p].Held? && w1.start <= p && GaveBack(w, Released(w1, p), held + {p})
  {
    hide TreeOk, PageOk, Leaf, FreeOk;
    ReleasedGood(w1, p);
    var w2 := Released(w1, p);
    forall q, vpn | Root(w.own, q) && 0 <= vpn < VPNS
      ensures Leaf(w2.mem, q, vpn) == Leaf(w.mem, q, vpn)
    {
      assert Root(w1.own, q);
      SameLeaf(w1, w2, q, vpn);
    }
  }

  lemma ProcsBeside(v: View, w: View, tr: nat, procs: seq<Proc>, held: set<nat>)
    requires ProcsOk(v, tr, procs) && Beside(v, w, held)
    ensures ProcsOk(w, tr, procs)
  {
    hide Good, Leaf;
    forall i | 0 <= i < |procs|
      ensures SlotOk(w, tr, procs[i], i)
    {
      assert SlotOk(v, tr, procs[i], i);
    }
  }

  lemma ProcsGiven(w: View, w': View, tr: nat, procs: seq<Proc>, held: set<nat>)
    requires ProcsOk(w, tr, procs) && GaveBack(w, w', held)
    ensures ProcsOk(w', tr, procs)
  {
    hide Good, Leaf;
    forall i | 0 <= i < |procs|
      ensures SlotOk(w', tr, procs[i], i)
    {
      assert SlotOk(w, tr, procs[i], i);
    }
  }

  /** Pages taken, nothing done, and given back: no trace. */
  lemma TakenAndGiven(v: View, w: View, w1: View, w': View, held: set<nat>)
    requires Beside(v, w, held) && Restored(w, w1) && GaveBack(w1, w', held)
    ensures Restored(v, w')
  {
    hide Good, Leaf;
    forall q, vpn | Root(v.own, q) && 0 <= vpn < VPNS
      ensures Leaf(w'.mem, q, vpn) == Leaf(v.mem, q, vpn)
    {
      assert Root(w.own, q) && Root(w1.own, q);
    }
  }

  /** Pages taken, the address space replaced, and the pages given back: the address space was replaced. */
  lemma ReplacedBeside(v: View, w: View, w1: View, w': View, held: set<nat>, from: nat, to: nat)
    requires Beside(v, w, held) && Replaced(w, w1, from, to) && GaveBack(w1, w', held)
    ensures Replaced(v, w', from, to)
  {
    hide Good, Leaf;
    forall p | 0 <= p < |v.own|
      ensures if v.own[p].Free? || Of(v.own[p], from) then w'.own[p].Free? || Of(w'.own[p], to)
              else w'.own[p] == v.own[p] && w'.mem[p] == v.mem[p]
    {
      assert p in held ==> w1.own[p].Held? && w'.own[p].Free?;
    }
    forall q, vpn | Root(v.own, q) && q != from && 0 <= vpn < VPNS
      ensures Leaf(w'.mem, q, vpn) == Leaf(v.mem, q, vpn)
    {
      assert Root(w.own, q) && Root(w1.own, q);
    }
  }

  // ---- What a process reads does not depend on held pages ----

  ghost predicate SameSpace(w: View, w': View, r: nat) {
    forall a {:trigger UserByte(w', r, a)} :: 0 <= a ==> SameAt(w, w', r, a)
  }

  ghost predicate SameAt(w: View, w': View, r: nat, a: nat) {
    && UserPage(w', r, a / PGSIZE) == UserPage(w, r, a / PGSIZE)
    && (UserPage(w, r, a / PGSIZE) != 0 ==> UserByte(w', r, a) == UserByte(w, r, a))
  }

  // A user page is no page that is free or held.
  lemma SpaceBeside(w: View, w': View, r: nat)
    requires Good(w) && Root(w.own, r) && |w.own| == |w.mem| == |w'.mem|
    requires forall p :: 0 <= p < |w.own| && w.own[p].User? ==> w'.mem[p] == w.mem[p]
    requires forall vpn :: 0 <= vpn < VPNS ==> Leaf(w'.mem, r, vpn) == Leaf(w.mem, r, vpn)
    ensures SameSpace(w, w', r)
  {
    hide Good, Leaf;
    forall a | 0 <= a
      ensures SameAt(w, w', r, a)
    {
      if UserPage(w, r, a / PGSIZE) != 0 {
        IsData(w, r, a / PGSIZE);
      }
    }
  }

  lemma ReadSame(w: View, w': View, r: nat, va: nat, d: seq<Byte>)
    requires SameSpace(w, w', r)
    ensures Read(w', r, va, d) <==> Read(w, r, va, d)
  {
    hide UserPage, UserByte;
    if Read(w, r, va, d) {
      forall a | va <= a < va + |d|
        ensures UserPage(w', r, a / PGSIZE) != 0 && d[a - va] == UserByte(w', r, a)
      {
        var _ := UserByte(w', r, a);
        assert SameAt(w, w', r, a);
      }
    }
    if Read(w', r, va, d) {
      forall a | va <= a < va + |d|
        ensures UserPage(w, r, a / PGSIZE) != 0 && d[a - va] == UserByte(w, r, a)
      {
        var _ := UserByte(w', r, a);
        assert SameAt(w, w', r, a);
      }
    }
  }

  lemma ArgsSame(w: View, w': View, r: nat, segs: seq<Seg>, file: seq<Byte>, n: nat, argv: seq<seq<Byte>>,
                 ptrs: seq<nat>, sp: nat, top: nat)
    requires SameSpace(w, w', r) && AllUser(w, r, 0, n) && Loaded(w, r, segs, file, |segs|, n) && Guarded(w, r, n)
    requires Pushed(w, r, argv, ptrs, sp, top) && Read(w, r, sp, Words(ptrs + [0]))
    ensures AllUser(w', r, 0, n) && Loaded(w', r, segs, file, |segs|, n) && Guarded(w', r, n)
    ensures Pushed(w', r, argv, ptrs, sp, top) && Read(w', r, sp, Words(ptrs + [0]))
  {
    hide UserPage, UserByte, Image, Read, Words;
    ReadSame(w, w', r, sp, Words(ptrs + [0]));
    forall k | 0 <= k < |ptrs|
      ensures Read(w', r, ptrs[k], argv[k] + [0])
    {
      ReadSame(w, w', r, ptrs[k], argv[k] + [0]);
    }
    forall vpn | 0 <= vpn <= n + 1
      ensures UserPage(w', r, vpn) == UserPage(w, r, vpn)
    {
      var _ := UserByte(w', r, vpn * PGSIZE);
      assert SameAt(w, w', r, vpn * PGSIZE);
    }
    forall a | 0 <= a < n * PGSIZE
      ensures UserByte(w', r, a) == Image(segs, file, |segs|, a)
    {
      assert SameAt(w, w', r, a) && 0 <= a / PGSIZE < n;
    }
  }

  // ---- Fetching ----

  /** Eight bytes as a number, little-endian. */
  function De64(b: seq<Byte>): (x: nat) {
    if |b| == 0 then 0 else b[0] + 256 * De64(b[1..])
  }

  /** Why fetchaddr fails: the address is not in the process, or not mapped for it. */
  ghost predicate PtrBad(v: View, pt: nat, sz: nat, a: nat) {
    a >= sz || a + 8 > sz || exists b :: a <= b < a + 8 && NoPage(v, pt, b)
  }

  ghost predicate NoPage(v: View, pt: nat, a: nat) { UserPage(v, pt, a / PGSIZE) == 0 }

  /** Why fetchstr fails: the string is not ended within a page's length, or not mapped to its end. */
  ghost predicate StrBad(v: View, pt: nat, a: nat) {
    exists d :: Unended(v, pt, a, d)
  }

  ghost predicate Unended(v: View, pt: nat, a: nat, d: seq<Byte>) {
    Read(v, pt, a, d) && 0 !in d && (|d| == PGSIZE || UserPage(v, pt, (a + |d|) / PGSIZE) == 0)
  }

  /** Entry k of the user's argv is at this address. */
  function EntryAt(uargv: nat, k: nat): (a: nat) { (uargv + 8 * k) % UINT64 }

  /** uargs are the first pointers in the user's argv, none of them null, and args the strings at them. */
  ghost predicate Fetched(v: View, pt: nat, uargv: nat, uargs: seq<nat>, args: seq<seq<Byte>>) {
    && |uargs| == |args|
    && forall k :: 0 <= k < |args| ==> FetchedAt(v, pt, uargv, uargs, args, k)
  }

  ghost predicate FetchedAt(v: View, pt: nat, uargv: nat, uargs: seq<nat>, args: seq<seq<Byte>>, k: nat)
    requires k < |args| == |uargs|
  {
    && PtrIs(v, pt, EntryAt(uargv, k), uargs[k]) && uargs[k] != 0
    && 0 !in args[k] && |args[k]| < PGSIZE && Read(v, pt, uargs[k], args[k] + [0])
  }

  ghost predicate PtrIs(v: View, pt: nat, a: nat, x: nat) { exists b :: |b| == 8 && De64(b) == x && Read(v, pt, a, b) }

  /** fetchaddr. */
  method FetchAddr(vm: Vm, pt: nat, sz: nat, a: nat) returns (ok: bool, x: nat)
    requires Good(vm.V()) && Root(vm.own, pt)
    modifies vm
    ensures vm.V() == old(vm.V()) && vm.misses == old(vm.misses)
    ensures ok ==> PtrIs(vm.V(), pt, a, x)
    ensures !ok ==> PtrBad(vm.V(), pt, sz, a)
  {
    hide Good, UserPage, Read;
    if a >= sz || a + 8 > sz {
      return false, 0;
    }
    var b;
    ok, b := vm.CopyIn(pt, a, 8);
    assert !ok ==> NoPage(vm.V(), pt, a + |b|);
    x := De64(b);
  }

  /** kalloc and fetchstr: p is the page, 0 if there is none, and s the string, if ok. */
  method FetchArg(vm: Vm, pt: nat, a: nat) returns (p: nat, ok: bool, s: seq<Byte>)
    requires Good(vm.V()) && Root(vm.own, pt)
    modifies vm
    ensures vm.misses == old(vm.misses) + if p == 0 then 1 else 0
    ensures p == 0 ==> vm.V() == old(vm.V()) && !ok
    ensures p != 0 ==> Grabbed(old(vm.V()), vm.V(), p)
    ensures ok ==> 0 !in s && |s| < PGSIZE && Read(old(vm.V()), pt, a, s + [0])
    ensures !ok && p != 0 ==> StrBad(old(vm.V()), pt, a)
  {
    hide Good, UserPage, Read, Grabbed, FreeChain;
    ghost var v := vm.V();
    FreeList(v);
    p := vm.Kalloc();
    if p == 0 {
      return 0, false, [];
    }
    vm.mem := vm.mem[p := Data(Zeroed())];
    FilledGrabbed(v, Zeroed());
    ghost var w := vm.V();
    assert w == Filled(v, Zeroed());
    GrabbedSpace(v, w, p, pt);
    ok, s := vm.CopyInStr(pt, a, PGSIZE);
    ReadSame(v, w, pt, a, s);
    ReadSame(v, w, pt, a, s + [0]);
    var b := s + Zeroed()[|s|..];
    vm.mem := vm.mem[p := Data(b)];
    FilledGrabbed(v, b);
    assert vm.V() == Filled(v, b);
    if !ok {
      EndSame(v, w, pt, a, s);
    }
  }

  lemma GrabbedSpace(v: View, w: View, p: nat, r: nat)
    requires Good(v) && Grabbed(v, w, p) && Root(v.own, r)
    ensures SameSpace(v, w, r) && Root(w.own, r) && Good(w)
  {
    hide Good, Leaf, SameSpace;
    SpaceBeside(v, w, r);
  }

  lemma EndSame(v: View, w: View, pt: nat, a: nat, s: seq<Byte>)
    requires SameSpace(v, w, pt) && Unended(w, pt, a, s)
    ensures StrBad(v, pt, a)
  {
    hide UserPage, Read;
    ReadSame(v, w, pt, a, s);
    var _ := UserByte(w, pt, a + |s|);
    assert SameAt(v, w, pt, a + |s|);
    assert Unended(v, pt, a, s);
  }

  // ---- The whole of sys_exec ----

  ghost function PagesOf(pages: seq<nat>): (s: set<nat>) { set p | p in pages }

  // The loop that frees the pages again.
  method FreeArgs(vm: Vm, pages: seq<nat>)
    requires Good(vm.V()) && (forall k :: 0 <= k < |pages| ==> pages[k] < |vm.own| && vm.own[pages[k]].Held?)
    requires forall j, k :: 0 <= j < k < |pages| ==> pages[j] != pages[k]
    modifies vm
    ensures GaveBack(old(vm.V()), vm.V(), PagesOf(pages)) && vm.misses == old(vm.misses)
  {
    hide Good, GaveBack;
    ghost var w := vm.V();
    NothingHeld(w);
    var i := 0;
    assert PagesOf(pages[..0]) == {};
    while i < |pages|
      invariant i <= |pages| && GaveBack(w, vm.V(), PagesOf(pages[..i])) && vm.misses == old(vm.misses)
    {
      ghost var w1 := vm.V();
      GivenGood(w, w1, PagesOf(pages[..i]));
      OneGiven(w, w1, PagesOf(pages[..i]), pages[i]);
      FreeList(w1);
      var panicked := vm.Kfree(pages[i]);
      assert vm.V() == Released(w1, pages[i]);
      assert PagesOf(pages[..i + 1]) == PagesOf(pages[..i]) + {pages[i]};
      i := i + 1;
    }
    assert pages[..i] == pages;
  }

  lemma GivenGood(w: View, w': View, held: set<nat>)
    requires GaveBack(w, w', held)
    ensures Good(w')
  {
  }

  // The pages are different pages, and held since v.
  ghost predicate Holding(v: View, w: View, pages: seq<nat>) {
    Beside(v, w, PagesOf(pages)) && forall j, k :: 0 <= j < k < |pages| ==> pages[j] != pages[k]
  }

  lemma HoldsMore(v: View, w: View, w': View, pages: seq<nat>, p: nat)
    requires Holding(v, w, pages) && Grabbed(w, w', p)
    ensures Holding(v, w', pages + [p])
  {
    hide Beside, Grabbed;
    OneHeld(v, w, w', PagesOf(pages), p);
    assert PagesOf(pages + [p]) == PagesOf(pages) + {p};
    assert forall k :: 0 <= k < |pages| ==> pages[k] in PagesOf(pages);
  }

  lemma HoldingSpace(v: View, w: View, pages: seq<nat>, r: nat)
    requires Good(v) && Holding(v, w, pages) && Root(v.own, r)
    ensures Good(w) && Root(w.own, r) && SameSpace(v, w, r) && |w.own| == |v.own|
    ensures forall k :: 0 <= k < |pages| ==> pages[k] < |w.own| && w.own[pages[k]].Held?
  {
    hide Good, Leaf, SameSpace;
    assert forall k :: 0 <= k < |pages| ==> pages[k] in PagesOf(pages);
    SpaceBeside(v, w, r);
  }

  /** Why the arguments cannot be fetched: after |uargs| good ones there are too many, or the next pointer or
      its string cannot be read. */
  ghost predicate FetchFails(v: View, pt: nat, sz: nat, uargv: nat, uargs: seq<nat>) {
    || |uargs| >= MAXARG
    || PtrBad(v, pt, sz, EntryAt(uargv, |uargs|))
    || exists x :: PtrIs(v, pt, EntryAt(uargv, |uargs|), x) && StrBad(v, pt, x)
  }

  /** The loop that fetches the arguments. The pages it took are the caller's to free, whether it succeeds or
      not. */
  method FetchArgs(vm: Vm, pt: nat, sz: nat, uargv: nat)
      returns (ok: bool, pages: seq<nat>, args: seq<seq<Byte>>, ghost uargs: seq<nat>)
    requires Good(vm.V()) && Root(vm.own, pt)
    modifies vm
    ensures Holding(old(vm.V()), vm.V(), pages) && Fetched(old(vm.V()), pt, uargv, uargs, args) && |args| <= MAXARG
    ensures ok ==> |args| < MAXARG && PtrIs(old(vm.V()), pt, EntryAt(uargv, |args|), 0) && vm.misses == old(vm.misses)
    ensures !ok ==> FetchFails(old(vm.V()), pt, sz, uargv, uargs) || vm.misses > old(vm.misses)
  {
    hide Good, Holding, SameSpace, Grabbed, Read, PtrIs, PtrBad, StrBad;
    ghost var v := vm.V();
    pages, args, uargs := [], [], [];
    assert Holding(v, v, pages) by { HoldsNone(v); }
    while true
      invariant |args| == |pages| == |uargs| <= MAXARG && Holding(v, vm.V(), pages)
                && Fetched(v, pt, uargv, uargs, args) && vm.misses == old(vm.misses)
      decreases MAXARG - |args|
    {
      ghost var w := vm.V();
      HoldingSpace(v, w, pages, pt);
      if |pages| >= MAXARG {
        return false, pages, args, uargs;
      }
      var x;
      ok, x := FetchAddr(vm, pt, sz, EntryAt(uargv, |pages|));
      PtrSame(v, w, pt, sz, EntryAt(uargv, |pages|), x);
      if !ok {
        return;
      }
      if x == 0 {
        return;
      }
      var p, s;
      p, ok, s := FetchArg(vm, pt, x);
      if p == 0 {
        return;
      }
      HoldsMore(v, w, vm.V(), pages, p);
      pages := pages + [p];
      if !ok {
        StrSame(v, w, pt, x);
        return;
      }
      ReadSame(v, w, pt, x, s + [0]);
      FetchedMore(v, pt, uargv, uargs, args, x, s);
      args, uargs := args + [s], uargs + [x];
    }
  }

  lemma HoldsNone(v: View)
    requires Good(v)
    ensures Holding(v, v, [])
  {
    hide Beside;
    assert PagesOf([]) == {};
    NothingHeld(v);
  }

  lemma PtrSame(v: View, w: View, pt: nat, sz: nat, a: nat, x: nat)
    requires SameSpace(v, w, pt)
    ensures PtrIs(w, pt, a, x) ==> PtrIs(v, pt, a, x)
    ensures PtrBad(w, pt, sz, a) ==> PtrBad(v, pt, sz, a)
  {
    hide Read, UserPage, UserByte, De64;
    if PtrIs(w, pt, a, x) {
      var b :| |b| == 8 && De64(b) == x && Read(w, pt, a, b);
      ReadSame(v, w, pt, a, b);
    }
    if b: nat :| a <= b < a + 8 && NoPage(w, pt, b) {
      var _ := UserByte(w, pt, b);
      assert SameAt(v, w, pt, b);
      assert NoPage(v, pt, b);
    }
  }

  lemma StrSame(v: View, w: View, pt: nat, a: nat)
    requires SameSpace(v, w, pt) && StrBad(w, pt, a)
    ensures StrBad(v, pt, a)
  {
    hide SameSpace, Unended;
    var d :| Unended(w, pt, a, d);
    EndSame(v, w, pt, a, d);
  }

  lemma FetchedMore(v: View, pt: nat, uargv: nat, uargs: seq<nat>, args: seq<seq<Byte>>, x: nat, s: seq<Byte>)
    requires Fetched(v, pt, uargv, uargs, args) && PtrIs(v, pt, EntryAt(uargv, |args|), x) && x != 0
    requires 0 !in s && |s| < PGSIZE && Read(v, pt, x, s + [0])
    ensures Fetched(v, pt, uargv, uargs + [x], args + [s])
  {
    hide PtrIs, Read;
    forall k | 0 <= k < |args| + 1
      ensures FetchedAt(v, pt, uargv, uargs + [x], args + [s], k)
    {
      assert k < |args| ==> FetchedAt(v, pt, uargv, uargs, args, k);
    }
  }

  /** sys_exec for process i. Every page that it takes for arguments is free again when it returns. If it
      succeeds, exec got the strings that the user's argv points to; if it fails, the process and all memory
      are as before, and there is a reason. */
  method SysExec(pm: ProcMem, i: nat, header: bool, segs: seq<Seg>, file: seq<Byte>, uargv: nat)
      returns (r: int, sp: nat, ghost uargs: seq<nat>, ghost args: seq<seq<Byte>>, ghost ptrs: seq<nat>, ghost n: nat)
    requires ProcsOk(pm.vm.V(), pm.trampoline, pm.procs) && i < |pm.procs| && pm.procs[i].pagetable != 0
             && |file| < UINT - PGSIZE
    requires forall k :: 0 <= k < |segs| ==> segs[k].vaddr < UINT64 && segs[k].memsz < UINT64
    modifies pm, pm.vm
    ensures ProcsOk(pm.vm.V(), pm.trampoline, pm.procs) && |pm.procs| == |old(pm.procs)|
    ensures Fetched(old(pm.vm.V()), old(pm.procs)[i].pagetable, uargv, uargs, args)
    ensures r < 0 ==> r == -1 && pm.procs == old(pm.procs) && Restored(old(pm.vm.V()), pm.vm.V())
    ensures r < 0 ==> || pm.vm.misses > old(pm.vm.misses)
                      || FetchFails(old(pm.vm.V()), old(pm.procs)[i].pagetable, old(pm.procs)[i].sz, uargv, uargs)
                      || !ExecOk(header, segs, file, args)
    ensures r >= 0 ==> r == |args| < MAXARG && PtrIs(old(pm.vm.V()), old(pm.procs)[i].pagetable, EntryAt(uargv, r), 0)
    ensures r >= 0 ==>
            ExecOk(header, segs, file, args) && pm.procs == old(pm.procs)[i := pm.procs[i]]
            && pm.procs[i].sz == StackTop(segs)
    ensures r >= 0 ==> Replaced(old(pm.vm.V()), pm.vm.V(), old(pm.procs)[i].pagetable, pm.procs[i].pagetable)
    ensures r >= 0 ==> NewSpace(pm.vm.V(), pm.procs[i].pagetable, segs, file, n, args, ptrs, sp)
    ensures r >= 0 ==> pm.vm.misses == old(pm.vm.misses)
  {
    hide Good, Holding, Beside, GaveBack, Fetched, FetchFails, Restored, Replaced, NewSpace, PtrIs, SlotOk, SegOk,
      ArgsFit;
    ghost var v, tr, pt := pm.vm.V(), pm.trampoline, pm.procs[i].pagetable;
    TableOf(v, tr, pm.procs, i);
    var ok, pages, strs;
    ok, pages, strs, uargs := FetchArgs(pm.vm, pm.procs[i].pagetable, pm.procs[i].sz, uargv);
    args := strs;
    ghost var w := pm.vm.V();
    HoldingSpace(v, w, pages, pt);
    HoldingProcs(v, w, tr, pm.procs, pages);
    r, sp, ptrs, n := -1, 0, [], 0;
    if ok {
      ArgsShort(v, pt, uargv, uargs, strs);
      r, sp, ptrs, n := Exec(pm, i, header, segs, file, strs);
    } else {
      RestoredSelf(w);
    }
    ghost var w1 := pm.vm.V();
    StillHeld(v, w, w1, pages, r >= 0, pt, pm.procs[i].pagetable);
    FreeArgs(pm.vm, pages);
    ghost var w' := pm.vm.V();
    ProcsGiven(w1, w', tr, pm.procs, PagesOf(pages));
    if r >= 0 {
      GivenReplaced(v, w, w1, w', pages, pt, pm.procs[i].pagetable);
      TableOf(w1, tr, pm.procs, i);
      assert NewSpace(w1, pm.procs[i].pagetable, segs, file, n, strs, ptrs,
             sp) by { MakesSpace(w1, pm.procs[i].pagetable, segs, file, n, strs, ptrs, sp); }
      GivenSpace(w1, w', PagesOf(pages), pm.procs[i].pagetable, segs, file, n, strs, ptrs, sp);
    } else {
      GivenRestored(v, w, w1, w', pages);
    }
  }

  /** What exec demands besides memory. */
  ghost predicate ExecOk(header: bool, segs: seq<Seg>, file: seq<Byte>, args: seq<seq<Byte>>) {
    header && (forall k :: 0 <= k < |segs| ==> SegOk(segs, file, k)) && ArgsFit(args, StackTop(segs))
  }

  /** What exec leaves: the image, the guard page, the stack with strings and pointers. */
  ghost predicate NewSpace(w: View, pt: nat, segs: seq<Seg>, file: seq<Byte>, n: nat, args: seq<seq<Byte>>,
                           ptrs: seq<nat>, sp: nat) {
    && StackTop(segs) == (n + 2) * PGSIZE && AllUser(w, pt, 0, n) && Loaded(w, pt, segs, file, |segs|, n)
       && Guarded(w, pt, n)
    && |ptrs| == |args| && Pushed(w, pt, args, ptrs, sp, StackTop(segs)) && Read(w, pt, sp, Words(ptrs + [0]))
  }

  lemma MakesSpace(w: View, pt: nat, segs: seq<Seg>, file: seq<Byte>, n: nat, args: seq<seq<Byte>>, ptrs: seq<nat>,
                   sp: nat)
    requires StackTop(segs) == (n + 2) * PGSIZE && AllUser(w, pt, 0, n) && Loaded(w, pt, segs, file, |segs|, n)
             && Guarded(w, pt, n)
    requires |ptrs| == |args| && Pushed(w, pt, args, ptrs, sp, StackTop(segs)) && Read(w, pt, sp, Words(ptrs + [0]))
    ensures NewSpace(w, pt, segs, file, n, args, ptrs, sp)
  {
  }

  lemma TableOf(v: View, tr: nat, procs: seq<Proc>, i: nat)
    requires ProcsOk(v, tr, procs) && i < |procs| && procs[i].pagetable != 0
    ensures Good(v) && Root(v.own, procs[i].pagetable)
  {
    assert SlotOk(v, tr, procs[i], i);
  }

  lemma HoldingProcs(v: View, w: View, tr: nat, procs: seq<Proc>, pages: seq<nat>)
    requires ProcsOk(v, tr, procs) && Holding(v, w, pages)
    ensures ProcsOk(w, tr, procs)
  {
    ProcsBeside(v, w, tr, procs, PagesOf(pages));
  }

  lemma ArgsShort(v: View, pt: nat, uargv: nat, uargs: seq<nat>, args: seq<seq<Byte>>)
    requires Fetched(v, pt, uargv, uargs, args)
    ensures forall k :: 0 <= k < |args| ==> |args[k]| < PGSIZE
  {
    forall k | 0 <= k < |args|
      ensures |args[k]| < PGSIZE
    {
      assert FetchedAt(v, pt, uargv, uargs, args, k);
    }
  }

  // exec leaves held pages alone.
  lemma StillHeld(v: View, w: View, w1: View, pages: seq<nat>, done: bool, from: nat, to: nat)
    requires Holding(v, w, pages) && if done then Replaced(w, w1, from, to) else Restored(w, w1)
    ensures Good(w1) && (forall k :: 0 <= k < |pages| ==> pages[k] < |w1.own| && w1.own[pages[k]].Held?)
    ensures forall j, k :: 0 <= j < k < |pages| ==> pages[j] != pages[k]
  {
    hide Good, Leaf;
    assert forall k :: 0 <= k < |pages| ==> pages[k] in PagesOf(pages);
  }

  lemma GivenRestored(v: View, w: View, w1: View, w': View, pages: seq<nat>)
    requires Holding(v, w, pages) && Restored(w, w1) && GaveBack(w1, w', PagesOf(pages))
    ensures Restored(v, w')
  {
    TakenAndGiven(v, w, w1, w', PagesOf(pages));
  }

  lemma GivenReplaced(v: View, w: View, w1: View, w': View, pages: seq<nat>, from: nat, to: nat)
    requires Holding(v, w, pages) && Replaced(w, w1, from, to) && GaveBack(w1, w', PagesOf(pages))
    ensures Replaced(v, w', from, to)
  {
    ReplacedBeside(v, w, w1, w', PagesOf(pages), from, to);
  }

  lemma GivenSpace(w: View, w': View, held: set<nat>, r: nat, segs: seq<Seg>, file: seq<Byte>, n: nat,
                   args: seq<seq<Byte>>, ptrs: seq<nat>, sp: nat)
    requires Good(w) && Root(w.own, r) && GaveBack(w, w', held) && NewSpace(w, r, segs, file, n, args, ptrs, sp)
    ensures NewSpace(w', r, segs, file, n, args, ptrs, sp)
  {
    hide Good, Leaf, SameSpace, AllUser, Loaded, Guarded, Pushed, Read;
    SpaceBeside(w, w', r);
    ArgsSame(w, w', r, segs, file, n, args, ptrs, sp, StackTop(segs));
  }
}
