/** The memory of processes: allocproc, freeproc, proc_pagetable, growproc and fork in kernel/proc.c, as far
    as pages are concerned. */
module VmProc {
  import opened VmState
  import opened VmFree
  import opened Vm

  /** The fields trapframe, pagetable and sz of a process table slot; 0 stands for a null pointer. */
  datatype Proc = Proc(trapframe: nat, pagetable: nat, sz: nat)

  // ---- What happens around one page table ----

  /** From v to v' pages moved only between the free list and the page table at r with the pages it maps.
      No other page changed, nor any translation of another page table. */
  ghost predicate Around(v: View, v': View, r: nat) {
    && Good(v') && v'.start == v.start && |v'.own| == |v.own| == |v.mem| == |v'.mem|
    && (forall p :: 0 <= p < |v.own| ==> AroundPage(v, v', r, p))
    && (forall q, vpn :: Root(v.own, q) && q != r && 0 <= vpn < VPNS ==> Leaf(v'.mem, q, vpn) == Leaf(v.mem, q, vpn))
  }

  ghost predicate AroundPage(v: View, v': View, r: nat, p: nat)
    requires p < |v.own| == |v'.own| == |v.mem| == |v'.mem|
  {
    if v.own[p].Free? || Of(v.own[p], r) then v'.own[p].Free? || Of(v'.own[p], r)
      else v'.own[p] == v.own[p] && v'.mem[p] == v.mem[p]
  }

  lemma AroundTwice(v: View, v1: View, v2: View, r: nat)
    requires Around(v, v1, r) && Around(v1, v2, r)
    ensures Around(v, v2, r)
  {
    hide Good, Leaf;
    forall p | 0 <= p < |v.own|
      ensures AroundPage(v, v2, r, p)
    {
      assert AroundPage(v, v1, r, p) && AroundPage(v1, v2, r, p);
    }
    forall q, vpn | Root(v.own, q) && q != r && 0 <= vpn < VPNS
      ensures Leaf(v2.mem, q, vpn) == Leaf(v.mem, q, vpn)
    {
      assert AroundPage(v, v1, r, q);
    }
  }

  lemma ChangedAround(v: View, v': View, r: nat, lo: nat, hi: nat)
    requires Root(v.own, r) && Changed(v, v', r, lo, hi, {})
    ensures Around(v, v', r) && Root(v'.own, r)
  {
    hide Good, Leaf;
    forall p | 0 <= p < |v.own|
      ensures AroundPage(v, v', r, p)
    {
      assert KeptPage(v, v', r, lo, hi, p);
    }
    assert KeptPage(v, v', r, lo, hi, r);
  }

  lemma CreatedAround(v: View, v': View, r: nat)
    requires Created(v, v', r)
    ensures Around(v, v', r)
  {
    hide Good, Leaf;
  }

  lemma GoneAround(v: View, v': View, r: nat)
    requires Gone(v, v', r)
    ensures Around(v, v', r)
  {
    hide Good, Leaf;
  }

  // ---- The process table ----

  /** A page table of a process: the first pages, the trapframe and the trampoline. */
  ghost predicate TableFor(v: View, tr: nat, pt: nat, tf: nat, sz: nat) {
    && Root(v.own, pt) && Up(sz) <= TRAPFRAME && Covers(v, pt, Up(sz))
    && Leaf(v.mem, pt, TRAMPOLINE) == Pte(tr, true, true, false, true, false)
    && Leaf(v.mem, pt, TRAPFRAME) == Pte(tf, true, true, true, false, false)
  }

  ghost predicate SlotOk(v: View, tr: nat, p: Proc, i: nat) {
    if p.pagetable == 0 then p == Proc(0, 0, 0)
    else p.trapframe < |v.own| && v.own[p.trapframe] == Frame(i) && TableFor(v, tr, p.pagetable, p.trapframe, p.sz)
  }

  /** Every page table and every trapframe is some process's, and no process shares one with another.
      With Good, every page from start on is therefore free, held by kernel code, or of use to exactly
      one process. */
  ghost predicate ProcsOk(v: View, tr: nat, procs: seq<Proc>) {
    && Good(v)
    && (forall i :: 0 <= i < |procs| ==> SlotOk(v, tr, procs[i], i))
    && (forall i, j :: 0 <= i < j < |procs| && procs[i].pagetable != 0 ==> procs[i].pagetable != procs[j].pagetable)
    && (forall p :: 0 <= p < |v.own| && v.own[p].Frame? ==>
       v.own[p].proc < |procs| && procs[v.own[p].proc].trapframe == p)
    && (forall r :: Root(v.own, r) ==> Used(procs, r))
  }

  ghost predicate Used(procs: seq<Proc>, r: nat) { exists i :: 0 <= i < |procs| && procs[i].pagetable == r }

  // Page p is the trapframe of process i, one of its page-table pages, or one of the pages it maps.
  ghost predicate BelongsTo(v: View, procs: seq<Proc>, p: nat, i: nat)
    requires p < |v.own|
  {
    i < |procs| && procs[i].pagetable != 0 && (v.own[p] == Frame(i) || Of(v.own[p], procs[i].pagetable))
  }

  /** The pages from start on are partitioned: a page is on the free list, held by kernel code, or belongs
      to a process, and to one only. */
  lemma Partition(v: View, tr: nat, procs: seq<Proc>, p: nat)
    requires ProcsOk(v, tr, procs) && v.start <= p < |v.own|
    ensures v.own[p].Free? <==> p in v.free
    ensures v.own[p].Free? || v.own[p].Held? || exists i :: BelongsTo(v, procs, p, i)
    ensures forall i :: BelongsTo(v, procs, p, i) ==> !v.own[p].Free? && !v.own[p].Held?
    ensures forall i, j :: BelongsTo(v, procs, p, i) && BelongsTo(v, procs, p, j) ==> i == j
  {
    hide Leaf, LeafOk, TreeOk;
    if v.own[p].Table? || v.own[p].User? {
      assert Root(v.own, v.own[p].root) by { TableRoot(v, p); }
      var i :| 0 <= i < |procs| && procs[i].pagetable == v.own[p].root;
      RootNotNull(v, v.own[p].root);
      assert BelongsTo(v, procs, p, i);
    } else if v.own[p].Frame? {
      assert SlotOk(v, tr, procs[v.own[p].proc], v.own[p].proc);
      assert BelongsTo(v, procs, p, v.own[p].proc);
    }
  }

  /** No leaks: once no process is left, every page is free or held by kernel code. */
  lemma NoLeak(v: View, tr: nat, procs: seq<Proc>, p: nat)
    requires ProcsOk(v, tr, procs) && (forall i :: 0 <= i < |procs| ==> procs[i].pagetable == 0)
             && v.start <= p < |v.own|
    ensures v.own[p].Free? || v.own[p].Held?
  {
    Partition(v, tr, procs, p);
  }

  lemma TableRoot(v: View, p: nat)
    requires Good(v) && p < |v.own| && (v.own[p].Table? || v.own[p].User?)
    ensures Root(v.own, v.own[p].root)
  {
    if v.own[p].Table? {
      IsRoot(v.mem, v.own, p);
    }
  }

  lemma RootNotNull(v: View, r: nat)
    requires Good(v) && Root(v.own, r)
    ensures r != 0
  {
    hide PageOk, FreeOk;
  }

  // Changes around one page table leave the other processes alone.
  lemma SlotKept(v: View, v': View, r: nat, tr: nat, p: Proc, i: nat)
    requires Around(v, v', r) && SlotOk(v, tr, p, i) && p.pagetable != r && |v.own| == |v.mem|
    ensures SlotOk(v', tr, p, i)
  {
    hide Good, Leaf;
    if p.pagetable != 0 {
      assert AroundPage(v, v', r, p.trapframe) && AroundPage(v, v', r, p.pagetable);
    }
  }

  // A process's own page table has changed, and perhaps its size.
  lemma SlotChanged(v: View, v': View, tr: nat, p: Proc, i: nat, lo: nat, hi: nat, sz: nat)
    requires SlotOk(v, tr, p, i) && p.pagetable != 0 && Changed(v, v', p.pagetable, lo, hi, {}) && hi <= TRAPFRAME
    requires Up(sz) <= TRAPFRAME && Covers(v', p.pagetable, Up(sz))
    ensures SlotOk(v', tr, Proc(p.trapframe, p.pagetable, sz), i)
  {
    hide Good, Leaf, Covers;
    assert KeptPage(v, v', p.pagetable, lo, hi, p.trapframe) && KeptPage(v, v', p.pagetable, lo, hi, p.pagetable);
  }

  /** Process i has changed its memory. */
  lemma ProcsChanged(v: View, v': View, tr: nat, procs: seq<Proc>, i: nat, lo: nat, hi: nat, sz: nat)
    requires ProcsOk(v, tr, procs) && i < |procs| && procs[i].pagetable != 0
             && Changed(v, v', procs[i].pagetable, lo, hi, {}) && hi <= TRAPFRAME
    requires Up(sz) <= TRAPFRAME && Covers(v', procs[i].pagetable, Up(sz))
    ensures ProcsOk(v', tr, procs[i := Proc(procs[i].trapframe, procs[i].pagetable, sz)])
  {
    hide Leaf, Covers, TreeOk, PageOk, FreeOk;
    var r := procs[i].pagetable;
    var procs' := procs[i := Proc(procs[i].trapframe, r, sz)];
    assert SlotOk(v, tr, procs[i], i);
    ChangedAround(v, v', r, lo, hi);
    forall j | 0 <= j < |procs|
      ensures SlotOk(v', tr, procs'[j], j)
    {
      assert SlotOk(v, tr, procs[j], j);
      if j == i {
        SlotChanged(v, v', tr, procs[i], i, lo, hi, sz);
      } else {
        SlotKept(v, v', r, tr, procs[j], j);
      }
    }
    forall p | 0 <= p < |v.own|
      ensures v'.own[p].Frame? ==> v'.own[p] == v.own[p]
    {
      assert AroundPage(v, v', r, p);
    }
    forall q | Root(v'.own, q)
      ensures Used(procs', q)
    {
      assert AroundPage(v, v', r, q);
      assert Used(procs, q) || q == r;
      UsedStill(procs, i, Proc(procs[i].trapframe, r, sz), q);
    }
  }

  lemma UsedStill(procs: seq<Proc>, i: nat, p: Proc, r: nat)
    requires i < |procs| && (Used(procs, r) || r == p.pagetable)
             && (procs[i].pagetable == p.pagetable || procs[i].pagetable != r)
    ensures Used(procs[i := p], r)
  {
    if r == p.pagetable {
      assert procs[i := p][i].pagetable == r;
    } else {
      var k :| 0 <= k < |procs| && procs[k].pagetable == r;
      assert procs[i := p][k].pagetable == r;
    }
  }

  // ---- Nothing but the order of the free list ----

  /** From v to v' no page changed hands, and no page in use changed. */
  ghost predicate Restored(v: View, v': View) {
    && Good(v') && v'.start == v.start && |v'.own| == |v.own| == |v.mem| == |v'.mem|
    && (forall p :: 0 <= p < |v.own| ==>
       if v.own[p].Free? then v'.own[p].Free? else v'.own[p] == v.own[p] && v'.mem[p] == v.mem[p])
    && (forall q, vpn :: Root(v.own, q) && 0 <= vpn < VPNS ==> Leaf(v'.mem, q, vpn) == Leaf(v.mem, q, vpn))
  }

  /** A page table made and taken apart again leaves no trace. */
  lemma MadeAndGone(v: View, v': View, r: nat)
    requires Good(v) && Around(v, v', r) && r < |v.own| && v.own[r].Free? && v'.own[r].Free?
    ensures Restored(v, v')
  {
    hide TreeOk, FreeOk, Leaf;
    forall p | 0 <= p < |v.own|
      ensures if v.own[p].Free? then v'.own[p].Free? else v'.own[p] == v.own[p] && v'.mem[p] == v.mem[p]
    {
      assert AroundPage(v, v', r, p);
      NotOf(v, r, p);
      NotOf(v', r, p);
    }
  }

  lemma NotOf(v: View, r: nat, p: nat)
    requires Good(v) && r < |v.own| && v.own[r].Free? && p < |v.own|
    ensures !Of(v.own[p], r)
  {
    if v.own[p].Table? {
      IsRoot(v.mem, v.own, p);
    }
  }

  lemma ProcsRestored(v: View, v': View, tr: nat, procs: seq<Proc>)
    requires ProcsOk(v, tr, procs) && Restored(v, v')
    ensures ProcsOk(v', tr, procs)
  {
    hide Good, Leaf;
    forall i | 0 <= i < |procs|
      ensures SlotOk(v', tr, procs[i], i)
    {
      assert SlotOk(v, tr, procs[i], i);
    }
  }

  /** Every slot of the process table is in use. */
  ghost predicate NoSlot(procs: seq<Proc>) { forall k :: 0 <= k < |procs| ==> procs[k].pagetable != 0 }

  class ProcMem {
    const vm: Vm
    const trampoline: nat

    var procs: seq<Proc>

    /** procinit, before any page is in use. */
    constructor (vm: Vm, trampoline: nat, nproc: nat)
      requires Good(vm.V()) && forall p :: vm.start <= p < |vm.own| ==> vm.own[p].Free? || vm.own[p].Held?
      ensures this.vm == vm && this.trampoline == trampoline && |procs| == nproc && ProcsOk(vm.V(), trampoline, procs)
      ensures forall i :: 0 <= i < nproc ==> procs[i] == Proc(0, 0, 0)
    {
      hide TreeOk, PageOk, FreeOk;
      this.vm, this.trampoline := vm, trampoline;
      procs := seq(nproc, _ => Proc(0, 0, 0));
    }

    /** proc_pagetable, for a process with that trapframe. */
    method ProcPagetable(tf: nat) returns (pt: nat)
      requires Good(vm.V())
      modifies vm
      ensures pt == 0 ==> Restored(old(vm.V()), vm.V())
      ensures pt != 0 ==>
              Around(old(vm.V()), vm.V(), pt) && pt < |old(vm.own)| && old(vm.own)[pt].Free?
              && TableFor(vm.V(), trampoline, pt, tf, 0)
      ensures vm.misses == old(vm.misses) + if pt == 0 then 1 else 0
    {
      hide Good, Leaf, Around, Changed, Gone, Created, Mapped;
      ghost var v := vm.V();
      pt := vm.UvmCreate();
      if pt == 0 {
        RestoredSelf(v);
        return;
      }
      ghost var v1 := vm.V();
      Starts(v, v1, pt);
      var panicked, r,
        n := vm.MapPages(pt, TRAMPOLINE * PGSIZE, PGSIZE, trampoline, Pte(0, false, true, false, true, false));
      ghost var v2 := vm.V();
      assert !panicked; // "remap"
      MapTop(v, v1, v2, pt, NoPte(), NoPte(), TRAMPOLINE, trampoline, n, Pte(0, false, true, false, true, false));
      if r < 0 {
        vm.UvmFree(pt, 0);
        Undone(v, v2, vm.V(), pt);
        return 0;
      }
      ghost var tramp := Pte(trampoline, true, true, false, true, false);
      panicked, r, n := vm.MapPages(pt, TRAPFRAME * PGSIZE, PGSIZE, tf, Pte(0, false, true, true, false, false));
      ghost var v3 := vm.V();
      assert !panicked; // "remap"
      MapTop(v, v2, v3, pt, tramp, NoPte(), TRAPFRAME, tf, n, Pte(0, false, true, true, false, false));
      if r < 0 {
        panicked := vm.UvmUnmap(pt, TRAMPOLINE * PGSIZE, 1, false);
        assert !panicked;
        ghost var v4 := vm.V();
        NotValid(v4, pt, TRAMPOLINE);
        MakingOn(v, v3, v4, pt, tramp, NoPte(), TRAMPOLINE, TRAMPOLINE + 1);
        vm.UvmFree(pt, 0);
        Undone(v, v4, vm.V(), pt);
        return 0;
      }
    }

    /** proc_freepagetable. */
    method ProcFreePagetable(pt: nat, sz: nat, ghost tf: nat)
      requires Good(vm.V()) && TableFor(vm.V(), trampoline, pt, tf, sz)
      modifies vm
      ensures Gone(old(vm.V()), vm.V(), pt)
      ensures vm.misses == old(vm.misses)
    {
      hide Good, Leaf, Changed, Gone, Covers;
      ghost var v := vm.V();
      var panicked := vm.UvmUnmap(pt, TRAMPOLINE * PGSIZE, 1, false);
      assert !panicked;
      ghost var v1 := vm.V();
      TopUnmapped(v, v1, pt, TRAMPOLINE, Up(sz));
      panicked := vm.UvmUnmap(pt, TRAPFRAME * PGSIZE, 1, false);
      assert !panicked;
      ghost var v2 := vm.V();
      TopUnmapped(v1, v2, pt, TRAPFRAME, Up(sz));
      vm.UvmFree(pt, sz);
      ChangedGone(v1, v2, vm.V(), pt, TRAPFRAME, TRAPFRAME + 1);
      ChangedGone(v, v1, vm.V(), pt, TRAMPOLINE, TRAMPOLINE + 1);
    }

    /** freeproc: the trapframe, the page table and the pages it maps become free, and no other page
        changes. */
    method FreeProc(i: nat)
      requires Good(vm.V()) && i < |procs|
      requires var p := procs[i]; p.trapframe != 0 ==> p.trapframe < |vm.own| && vm.own[p.trapframe] == Frame(i)
      requires var p := procs[i]; p.pagetable != 0 ==> TableFor(vm.V(), trampoline, p.pagetable, p.trapframe, p.sz)
      modifies vm, this`procs
      ensures procs == old(procs)[i := Proc(0, 0, 0)]
      ensures Cleaned(old(vm.V()), vm.V(), old(procs)[i])
      ensures vm.misses == old(vm.misses)
    {
      hide Good, Leaf, Gone, Cleaned;
      ghost var v, p := vm.V(), procs[i];
      FreeList(v);
      if procs[i].trapframe != 0 {
        FrameFreed(v, p.trapframe);
        var _ := vm.Kfree(procs[i].trapframe);
      }
      ghost var v1 := vm.V();
      TableStill(v, v1, trampoline, p);
      if procs[i].pagetable != 0 {
        ProcFreePagetable(procs[i].pagetable, procs[i].sz, p.trapframe);
      }
      AllClean(v, v1, vm.V(), trampoline, p);
      procs := procs[i := Proc(0, 0, 0)];
    }

    /** allocproc: a slot gets a trapframe and a page table that maps no user page; if there is no slot or
        no memory, no page changes hands. */
    method AllocProc() returns (ok: bool, i: nat)
      requires ProcsOk(vm.V(), trampoline, procs)
      modifies vm, this`procs
      ensures ProcsOk(vm.V(), trampoline, procs)
      ensures !ok ==> procs == old(procs) && Restored(old(vm.V()), vm.V())
      ensures ok ==>
              i < |procs| == |old(procs)| && old(procs)[i].pagetable == 0 && procs[i].pagetable != 0
              && procs == old(procs)[i := Proc(procs[i].trapframe, procs[i].pagetable, 0)]
      ensures ok ==> Allotted(old(vm.V()), vm.V(), procs[i])
      ensures vm.misses == old(vm.misses) + if ok || NoSlot(old(procs)) then 0 else 1
      ensures NoSlot(old(procs)) ==> !ok
    {
      hide Good, Leaf, Cleaned, Restored, Around, Allotted, TableFor;
      ghost var v := vm.V();
      RestoredSelf(v);
      i := 0;
      while i < |procs| && procs[i].pagetable != 0
        invariant i <= |procs| && forall k :: 0 <= k < i ==> procs[k].pagetable != 0
      {
        i := i + 1;
      }
      if i == |procs| {
        return false, i;
      }
      assert SlotOk(v, trampoline, procs[i], i);
      FreeList(v);
      var tf := vm.Kalloc();
      if tf == 0 {
        return false, i;
      }
      vm.own := vm.own[tf := Frame(i)];
      ghost var v1 := vm.V();
      FrameTaken(v, v1, tf, i);
      procs := procs[i := Proc(tf, 0, 0)];
      var pt := ProcPagetable(tf);
      ghost var v2 := vm.V();
      if pt == 0 {
        FrameKept(v, v1, v2, tf, i);
        FreeProc(i);
        NotAllotted(v, v2, vm.V(), Proc(tf, 0, 0));
        ProcsRestored(v, vm.V(), trampoline, old(procs));
        assert procs == old(procs);
        return false, i;
      }
      AllottedTable(v, v1, v2, tf, pt, i, trampoline);
      procs := procs[i := Proc(tf, pt, 0)];
      ProcsAdded(v, v2, trampoline, old(procs), i, Proc(tf, pt, 0));
      assert procs == old(procs)[i := Proc(tf, pt, 0)];
      ok := true;
    }

    /** The freeproc of wait: a process's pages are free, and the others keep theirs. */
    method Reap(i: nat)
      requires ProcsOk(vm.V(), trampoline, procs) && i < |procs| && procs[i].pagetable != 0
      modifies vm, this`procs
      ensures procs == old(procs)[i := Proc(0, 0, 0)] && ProcsOk(vm.V(), trampoline, procs)
      ensures Cleaned(old(vm.V()), vm.V(), old(procs)[i])
      ensures vm.misses == old(vm.misses)
    {
      hide Good, Leaf, Cleaned, TableFor;
      assert SlotOk(vm.V(), trampoline, procs[i], i);
      FreeProc(i);
      ProcsCleaned(old(vm.V()), vm.V(), trampoline, old(procs), i);
    }

    /** fork, as far as memory goes: the child in slot j gets a copy of every page of the parent; if there
        is no slot or no memory, no page changes hands. The parent's memory stays as it is. */
    method Fork(i: nat) returns (ok: bool, j: nat)
      requires ProcsOk(vm.V(), trampoline, procs) && i < |procs| && procs[i].pagetable != 0
      modifies vm, this`procs
      ensures ProcsOk(vm.V(), trampoline, procs)
      ensures !ok ==> procs == old(procs) && Restored(old(vm.V()), vm.V())
      ensures ok ==>
              j < |procs| == |old(procs)| && old(procs)[j].pagetable == 0 && procs[j].pagetable != 0
              && procs[j].sz == procs[i].sz
      ensures ok ==> procs == old(procs)[j := procs[j]] && Allotted(old(vm.V()), vm.V(), procs[j])
      ensures ok ==>
              forall vpn :: 0 <= vpn < Up(procs[i].sz) ==>
                CopyOf(old(vm.V()), procs[i].pagetable, vm.V(), procs[j].pagetable, vpn)
      ensures vm.misses == old(vm.misses) + if ok || NoSlot(old(procs)) then 0 else 1
      ensures NoSlot(old(procs)) ==> !ok
    {
      hide Good, Leaf, Cleaned, Restored, Changed, Allotted, CopyOf, Covers;
      ghost var v := vm.V();
      ok, j := AllocProc();
      if !ok {
        return;
      }
      ghost var v1, p := vm.V(), procs[j];
      assert SlotOk(v1, trampoline, procs[i], i) && SlotOk(v1, trampoline, procs[j], j);
      Distinct(v1, trampoline, procs, i, j);
      var r := vm.UvmCopy(procs[i].pagetable, procs[j].pagetable, procs[i].sz);
      ghost var v2 := vm.V();
      if r < 0 {
        AllottedMore(v, v1, v2, p, 0, 0, 0);
        SlotChanged(v1, v2, trampoline, p, j, 0, 0, 0);
        FreeProc(j);
        NotAllotted(v, v2, vm.V(), p);
        ProcsRestored(v, vm.V(), trampoline, old(procs));
        assert procs == old(procs);
        return false, j;
      }
      AllottedMore(v, v1, v2, p, 0, Up(procs[i].sz), procs[i].sz);
      CopiedFrom(v, v1, v2, trampoline, old(procs), i, p);
      ProcsChanged(v1, v2, trampoline, procs, j, 0, Up(procs[i].sz), procs[i].sz);
      procs := procs[j := Proc(procs[j].trapframe, procs[j].pagetable, procs[i].sz)];
    }

    /** growproc: the process grows or shrinks by n bytes, or fails to grow and stays as it is. Shrinking by
        more than its size wraps around in the 32-bit sum: it is no error, and changes nothing. */
    method GrowProc(i: nat, n: int) returns (r: int)
      requires ProcsOk(vm.V(), trampoline, procs) && i < |procs| && procs[i].pagetable != 0
               && -0x8000_0000 <= n < 0x8000_0000
      modifies vm, this`procs
      ensures ProcsOk(vm.V(), trampoline, procs) && |procs| == |old(procs)|
      ensures r == 0 || (r == -1 && n > 0)
      ensures r == -1 ==> procs == old(procs) && Changed(old(vm.V()), vm.V(), procs[i].pagetable, 0, 0, {})
      ensures r == 0 ==> procs[i].sz == if old(procs)[i].sz + n >= 0 then old(procs)[i].sz + n else old(procs)[i].sz
      ensures r == 0 ==> procs == old(procs)[i := Proc(procs[i].trapframe, procs[i].pagetable, procs[i].sz)]
      ensures r == 0 ==> var a, b := Up(old(procs)[i].sz), Up(procs[i].sz);
                         Changed(old(vm.V()), vm.V(), procs[i].pagetable, Least(a, b), if a < b then b else a, {})
                           && Fresh(vm.V(), procs[i].pagetable, a, b)
      ensures vm.misses == old(vm.misses) + if r == 0 then 0 else 1
    {
      hide Good, Leaf, Changed, Covers;
      ghost var v, p := vm.V(), procs[i];
      assert SlotOk(v, trampoline, p, i);
      CoversFits(v, p.pagetable, Up(p.sz));
      var sz := procs[i].sz; // fits in 32 bits
      NoChange(v, p.pagetable, Up(sz), Up(sz));
      if n > 0 {
        var newsz := vm.UvmAlloc(procs[i].pagetable, sz, (sz + n) % 0x1_0000_0000);
        if newsz == 0 {
          ProcsChanged(v, vm.V(), trampoline, procs, i, 0, 0, sz);
          assert procs[i := Proc(p.trapframe, p.pagetable, sz)] == procs;
          return -1;
        }
        sz := newsz;
        ProcsChanged(v, vm.V(), trampoline, procs, i, Up(p.sz), Up(sz), sz);
      } else if n < 0 {
        var panicked;
        panicked, sz := vm.UvmDealloc(procs[i].pagetable, sz, (sz + n) % 0x1_0000_0000, Up(p.sz));
        assert !panicked;
        ProcsChanged(v, vm.V(), trampoline, procs, i, Up(sz), Up(p.sz), sz);
      }
      procs := procs[i := Proc(procs[i].trapframe, procs[i].pagetable, sz)];
      assert n == 0 ==> procs == old(procs);
      r := 0;
    }
  }

  lemma RestoredSelf(v: View)
    requires Good(v)
    ensures Restored(v, v)
  {
    hide TreeOk, PageOk, FreeOk, Leaf;
  }

  // The page table at r, made in v, maps no user page; what it maps above is given.
  ghost predicate Making(v: View, v1: View, r: nat, tramp: Pte, frame: Pte) {
    && Good(v) && Good(v1) && Around(v, v1, r) && r < |v.own| && v.own[r].Free? && Root(v1.own, r) && Covers(v1, r, 0)
    && Leaf(v1.mem, r, TRAMPOLINE) == tramp && Leaf(v1.mem, r, TRAPFRAME) == frame
  }

  lemma Starts(v: View, v1: View, r: nat)
    requires Good(v) && Created(v, v1, r)
    ensures Making(v, v1, r, NoPte(), NoPte())
  {
    hide Good, Leaf;
    CreatedAround(v, v1, r);
    NotValid(v1, r, TRAMPOLINE);
    NotValid(v1, r, TRAPFRAME);
  }

  // One of the two pages above the user pages is mapped or unmapped.
  lemma MakingOn(v: View, v1: View, v2: View, r: nat, tramp: Pte, frame: Pte, lo: nat, hi: nat)
    requires Making(v, v1, r, tramp, frame) && Changed(v1, v2, r, lo, hi, {}) && TRAPFRAME <= lo <= hi <= MAXVPN
    ensures Making(v, v2, r, Leaf(v2.mem, r, TRAMPOLINE), Leaf(v2.mem, r, TRAPFRAME))
    ensures !(lo <= TRAMPOLINE < hi) ==> Leaf(v2.mem, r, TRAMPOLINE) == tramp
    ensures !(lo <= TRAPFRAME < hi) ==> Leaf(v2.mem, r, TRAPFRAME) == frame
  {
    hide Good, Leaf, Around;
    ChangedAround(v1, v2, r, lo, hi);
    AroundTwice(v, v1, v2, r);
  }

  lemma MapTop(v: View, v1: View, v2: View, r: nat, tramp: Pte, frame: Pte, vpn: nat, ppn: nat, n: nat, perm: Pte)
    requires Making(v, v1, r, tramp, frame) && Mapped(v1, v2, r, vpn, ppn, n, perm) && TRAPFRAME <= vpn <= TRAMPOLINE
             && n <= 1
    ensures var e := Flagged(perm, ppn);
            Making(v, v2, r, if n == 1 && vpn == TRAMPOLINE then e else tramp, if n == 1 && vpn == TRAPFRAME then e
              else frame)
  {
    hide Good, Leaf, Around, Changed;
    assert Pages(vpn, ppn, n) == {};
    MakingOn(v, v1, v2, r, tramp, frame, vpn, vpn + n);
    assert n == 1 ==> Leaf(v2.mem, r, vpn) == Flagged(perm, ppn);
  }

  lemma Undone(v: View, v1: View, v2: View, r: nat)
    requires Making(v, v1, r, NoPte(), NoPte()) && Gone(v1, v2, r)
    ensures Restored(v, v2)
  {
    hide Good, Leaf, Restored;
    GoneAround(v1, v2, r);
    AroundTwice(v, v1, v2, r);
    assert Of(v1.own[r], r);
    MadeAndGone(v, v2, r);
  }

  lemma TopUnmapped(v: View, v1: View, r: nat, vpn: nat, n: nat)
    requires Root(v.own, r) && Covers(v, r, n) && Changed(v, v1, r, vpn, vpn + 1, {}) && TRAPFRAME <= vpn <= TRAMPOLINE
    ensures Good(v1) && Root(v1.own, r) && Covers(v1, r, n)
    ensures forall k :: TRAPFRAME <= k <= TRAMPOLINE && k != vpn ==> Leaf(v1.mem, r, k) == Leaf(v.mem, r, k)
  {
    hide Good, Leaf;
    InRange(v, v1, r, vpn, vpn + 1);
  }

  lemma ChangedGone(v: View, v1: View, v2: View, r: nat, lo: nat, hi: nat)
    requires Root(v.own, r) && Changed(v, v1, r, lo, hi, {}) && Gone(v1, v2, r)
    ensures Gone(v, v2, r)
  {
    hide Good, Leaf;
    ChangedAround(v, v1, r, lo, hi);
    forall p | 0 <= p < |v.own|
      ensures if Of(v.own[p], r) || v.own[p].Free? then v2.own[p].Free?
              else v2.own[p] == v.own[p] && v2.mem[p] == v.mem[p]
    {
      assert AroundPage(v, v1, r, p);
    }
    forall q, vpn | Root(v.own, q) && q != r && 0 <= vpn < VPNS
      ensures Leaf(v2.mem, q, vpn) == Leaf(v.mem, q, vpn)
    {
      assert AroundPage(v, v1, r, q);
    }
  }

  // The pages of a process: its trapframe, its page table, and what that maps.
  ghost predicate PageOf(v: View, p: Proc, q: nat)
    requires q < |v.own|
  {
    (p.trapframe != 0 && q == p.trapframe) || (p.pagetable != 0 && Of(v.own[q], p.pagetable))
  }

  /** From v to v' the pages of process p became free, and no other page changed, nor any translation of
      another process. */
  ghost predicate Cleaned(v: View, v': View, p: Proc) {
    && Good(v') && v'.start == v.start && |v'.own| == |v.own| == |v.mem| == |v'.mem|
    && (forall q :: 0 <= q < |v.own| ==>
       if v.own[q].Free? || PageOf(v, p, q) then v'.own[q].Free? else v'.own[q] == v.own[q] && v'.mem[q] == v.mem[q])
    && (forall r, vpn :: Root(v.own, r) && r != p.pagetable && 0 <= vpn < VPNS ==>
       Leaf(v'.mem, r, vpn) == Leaf(v.mem, r, vpn))
  }

  lemma FrameFreed(v: View, tf: nat)
    requires Good(v) && tf < |v.own| && v.own[tf].Frame?
    ensures v.start <= tf && |v.own| == |v.mem| && Good(Released(v, tf))
            && SameTables(v.mem, v.own, Released(v, tf).mem, Released(v, tf).own)
  {
    hide TreeOk, PageOk, FreeOk;
    ReleasedGood(v, tf);
  }

  // v1 is v, perhaps with the trapframe freed.
  ghost predicate FrameGone(v: View, v1: View, p: Proc) {
    if p.trapframe == 0 then v1 == v
    else p.trapframe < |v.own| == |v.mem| && v.own[p.trapframe].Frame? && v1 == Released(v, p.trapframe)
         && SameTables(v.mem, v.own, v1.mem, v1.own)
  }

  lemma TableStill(v: View, v1: View, tr: nat, p: Proc)
    requires Good(v) && Good(v1) && FrameGone(v, v1, p)
             && (p.pagetable != 0 ==> TableFor(v, tr, p.pagetable, p.trapframe, p.sz))
    ensures p.pagetable != 0 ==> TableFor(v1, tr, p.pagetable, p.trapframe, p.sz)
    ensures forall r, vpn :: Root(v.own, r) && 0 <= vpn < VPNS ==> Leaf(v1.mem, r, vpn) == Leaf(v.mem, r, vpn)
  {
    hide Good, Leaf;
    if p.trapframe != 0 {
      forall r, vpn | Root(v.own, r) && 0 <= vpn < VPNS
        ensures Leaf(v1.mem, r, vpn) == Leaf(v.mem, r, vpn)
      {
        SameLeaf(v, v1, r, vpn);
      }
    }
  }

  lemma AllClean(v: View, v1: View, v2: View, tr: nat, p: Proc)
    requires Good(v) && Good(v1) && FrameGone(v, v1, p)
             && (if p.pagetable != 0 then Gone(v1, v2, p.pagetable) else v2 == v1)
    requires forall r, vpn :: Root(v.own, r) && 0 <= vpn < VPNS ==> Leaf(v1.mem, r, vpn) == Leaf(v.mem, r, vpn)
    ensures Cleaned(v, v2, p)
  {
    hide Good, Leaf, SameTables;
    FreeList(v);
    FreeList(v1);
    forall q | 0 <= q < |v.own|
      ensures if v.own[q].Free? || PageOf(v, p, q) then v2.own[q].Free?
              else v2.own[q] == v.own[q] && v2.mem[q] == v.mem[q]
    {
      assert q != p.trapframe ==> v1.own[q] == v.own[q] && v1.mem[q] == v.mem[q];
      assert q == p.trapframe && p.trapframe != 0 ==> v1.own[q].Free?;
    }
    forall r, vpn | Root(v.own, r) && r != p.pagetable && 0 <= vpn < VPNS
      ensures Leaf(v2.mem, r, vpn) == Leaf(v.mem, r, vpn)
    {
      assert Root(v1.own, r);
    }
  }

  // ---- A new process ----

  /** From v to v' process p got its pages from the free list, and no other page changed, nor any
      translation of another process. */
  ghost predicate Allotted(v: View, v': View, p: Proc) {
    && Good(v') && v'.start == v.start && |v'.own| == |v.own| == |v.mem| == |v'.mem|
    && 0 < p.trapframe < |v.own| && v.own[p.trapframe].Free?
       && (p.pagetable != 0 ==> p.pagetable < |v.own| && v.own[p.pagetable].Free?)
    && (forall q :: 0 <= q < |v.own| ==>
       if v.own[q].Free? then v'.own[q].Free? || PageOf(v', p, q) else v'.own[q] == v.own[q] && v'.mem[q] == v.mem[q])
    && (forall r, vpn :: Root(v.own, r) && 0 <= vpn < VPNS ==> Leaf(v'.mem, r, vpn) == Leaf(v.mem, r, vpn))
  }

  lemma FrameTaken(v: View, v1: View, tf: nat, i: nat)
    requires Good(v) && |v.free| > 0 && tf == v.free[|v.free| - 1]
             && v1 == View(v.start, Taken(v).mem, Taken(v).own[tf := Frame(i)], Taken(v).head, Taken(v).free)
    ensures tf < |v1.own| && Good(v1) && Allotted(v, v1, Proc(tf, 0, 0)) && v1.own[tf] == Frame(i)
  {
    hide TreeOk, PageOk, FreeChain, Leaf;
    assert v.own[tf].Free?;
    FrameGood(v, v1, tf, i);
    forall r, vpn | Root(v.own, r) && 0 <= vpn < VPNS
      ensures Leaf(v1.mem, r, vpn) == Leaf(v.mem, r, vpn)
    {
      SameLeaf(v, v1, r, vpn);
    }
  }

  lemma FrameGood(v: View, v1: View, tf: nat, i: nat)
    requires Good(v) && |v.free| > 0 && tf == v.free[|v.free| - 1]
             && v1 == View(v.start, Taken(v).mem, Taken(v).own[tf := Frame(i)], Taken(v).head, Taken(v).free)
    ensures Good(v1)
  {
    hide TableOk, LeafOk, FreeChain;
    TakenGood(v);
    var w := Taken(v);
    assert v.own[tf].Free?;
    TreeFrame(w.mem, w.own, v1.mem, v1.own);
    PageFrame(w.mem, w.own, v1.mem, v1.own);
    FreeFrame(w, v1);
  }

  lemma FrameKept(v: View, v1: View, v2: View, tf: nat, i: nat)
    requires Allotted(v, v1, Proc(tf, 0, 0)) && tf < |v1.own| && v1.own[tf] == Frame(i) && Restored(v1, v2)
    ensures Good(v2) && Allotted(v, v2, Proc(tf, 0, 0)) && tf < |v2.own| && v2.own[tf] == Frame(i)
  {
    hide Good, Leaf;
  }

  lemma AllottedTable(v: View, v1: View, v2: View, tf: nat, pt: nat, i: nat, tr: nat)
    requires Good(v1) && Allotted(v, v1, Proc(tf, 0, 0)) && tf < |v1.own| && v1.own[tf] == Frame(i) && pt != 0
    requires Around(v1, v2, pt) && pt < |v1.own| && v1.own[pt].Free?
    ensures Good(v2) && Allotted(v, v2, Proc(tf, pt, 0)) && tf < |v2.own| && v2.own[tf] == Frame(i)
  {
    hide Good, Leaf;
    forall q | 0 <= q < |v.own|
      ensures if v.own[q].Free? then v2.own[q].Free? || PageOf(v2, Proc(tf, pt, 0), q)
              else v2.own[q] == v.own[q] && v2.mem[q] == v.mem[q]
    {
      assert AroundPage(v1, v2, pt, q);
      NotOf(v1, pt, q);
    }
    assert AroundPage(v1, v2, pt, tf);
    forall r, vpn | Root(v.own, r) && 0 <= vpn < VPNS
      ensures Leaf(v2.mem, r, vpn) == Leaf(v.mem, r, vpn)
    {
      assert Root(v1.own, r);
    }
  }

  /** Pages allotted and given up again leave no trace. */
  lemma NotAllotted(v: View, v1: View, v2: View, p: Proc)
    requires Good(v) && Allotted(v, v1, p) && Cleaned(v1, v2, p)
    ensures Restored(v, v2)
  {
    hide Good, Leaf;
    forall q | 0 <= q < |v.own|
      ensures if v.own[q].Free? then v2.own[q].Free? else v2.own[q] == v.own[q] && v2.mem[q] == v.mem[q]
    {
      if p.pagetable != 0 {
        NotOf(v, p.pagetable, q);
      }
    }
    forall r, vpn | Root(v.own, r) && 0 <= vpn < VPNS
      ensures Leaf(v2.mem, r, vpn) == Leaf(v.mem, r, vpn)
    {
      assert Root(v1.own, r);
      RootNotNull(v, r);
    }
  }

  lemma ProcsAdded(v: View, v': View, tr: nat, procs: seq<Proc>, i: nat, p: Proc)
    requires ProcsOk(v, tr, procs) && i < |procs| && procs[i].pagetable == 0 && p.pagetable != 0
    requires Allotted(v, v', p) && SlotOk(v', tr, p, i)
    ensures ProcsOk(v', tr, procs[i := p])
  {
    hide Good, Leaf, Covers;
    var procs' := procs[i := p];
    forall j | 0 <= j < |procs|
      ensures SlotOk(v', tr, procs'[j], j)
    {
      if j != i {
        assert SlotOk(v, tr, procs[j], j);
        SlotOther(v, v', tr, procs[j], j, p);
      }
    }
    forall j | 0 <= j < |procs| && j != i
      ensures procs[j].pagetable != p.pagetable
    {
      assert SlotOk(v, tr, procs[j], j);
    }
    forall q | 0 <= q < |v.own| && v'.own[q].Frame?
      ensures v'.own[q].proc < |procs| && procs'[v'.own[q].proc].trapframe == q
    {
      NewFrame(v, v', tr, procs, i, p, q);
    }
    forall r | Root(v'.own, r)
      ensures Used(procs', r)
    {
      assert r == p.pagetable || Root(v.own, r);
      RootNotNull(v', r);
      UsedStill(procs, i, p, r);
    }
  }

  lemma SlotOther(v: View, v': View, tr: nat, s: Proc, j: nat, p: Proc)
    requires SlotOk(v, tr, s, j) && Allotted(v, v', p)
    ensures SlotOk(v', tr, s, j)
  {
    hide Good, Leaf;
  }

  lemma NotKernel(v: View, q: nat)
    requires Good(v) && q < |v.own| && !v.own[q].Kernel?
    ensures q != 0
  {
    hide TreeOk, PageOk, FreeOk;
  }

  lemma NewFrame(v: View, v': View, tr: nat, procs: seq<Proc>, i: nat, p: Proc, q: nat)
    requires ProcsOk(v, tr, procs) && i < |procs| && procs[i].pagetable == 0 && Allotted(v, v', p)
             && SlotOk(v', tr, p, i) && p.pagetable != 0
    requires q < |v.own| && v'.own[q].Frame?
    ensures v'.own[q].proc < |procs| && procs[i := p][v'.own[q].proc].trapframe == q
  {
    hide Good, Leaf, TableFor;
    NotKernel(v, q);
    if !v.own[q].Free? {
      assert v.own[q].Frame?;
      assert SlotOk(v, tr, procs[i], i);
    }
  }

  lemma Distinct(v: View, tr: nat, procs: seq<Proc>, i: nat, j: nat)
    requires ProcsOk(v, tr, procs) && i < |procs| && j < |procs| && i != j && procs[i].pagetable != 0
    ensures procs[i].pagetable != procs[j].pagetable
  {
    hide Good;
  }

  // The new process's memory is being filled.
  lemma AllottedMore(v: View, v1: View, v2: View, p: Proc, lo: nat, hi: nat, sz: nat)
    requires Good(v) && Good(v1) && Allotted(v, v1, p) && p.pagetable != 0 && Root(v1.own, p.pagetable)
             && Changed(v1, v2, p.pagetable, lo, hi, {})
    requires p.trapframe < |v1.own| && v1.own[p.trapframe].Frame?
    ensures Good(v2) && Allotted(v, v2, Proc(p.trapframe, p.pagetable, sz)) && Allotted(v, v2, p)
  {
    hide Good, Leaf;
    ChangedAround(v1, v2, p.pagetable, lo, hi);
    forall q | 0 <= q < |v.own|
      ensures if v.own[q].Free? then v2.own[q].Free? || PageOf(v2, p, q)
              else v2.own[q] == v.own[q] && v2.mem[q] == v.mem[q]
    {
      assert AroundPage(v1, v2, p.pagetable, q);
      NotOf(v, p.pagetable, q);
    }
    forall r, vpn | Root(v.own, r) && 0 <= vpn < VPNS
      ensures Leaf(v2.mem, r, vpn) == Leaf(v.mem, r, vpn)
    {
      assert Root(v1.own, r);
    }
  }

  // What is copied is what the parent had before the child was made.
  lemma CopiedFrom(v: View, v1: View, v2: View, tr: nat, procs: seq<Proc>, i: nat, p: Proc)
    requires ProcsOk(v, tr, procs) && i < |procs| && procs[i].pagetable != 0 && Allotted(v, v1, p)
    requires forall vpn :: 0 <= vpn < Up(procs[i].sz) ==> CopyOf(v1, procs[i].pagetable, v2, p.pagetable, vpn)
    ensures forall vpn :: 0 <= vpn < Up(procs[i].sz) ==> CopyOf(v, procs[i].pagetable, v2, p.pagetable, vpn)
  {
    hide Leaf, TreeOk, FreeOk, Holds;
    assert SlotOk(v, tr, procs[i], i);
    forall vpn | 0 <= vpn < Up(procs[i].sz)
      ensures CopyOf(v, procs[i].pagetable, v2, p.pagetable, vpn)
    {
      assert CopyOf(v1, procs[i].pagetable, v2, p.pagetable, vpn);
      assert LeafOk(v.mem, v.own, procs[i].pagetable, vpn);
    }
  }

  lemma ProcsCleaned(v: View, v': View, tr: nat, procs: seq<Proc>, i: nat)
    requires ProcsOk(v, tr, procs) && i < |procs| && procs[i].pagetable != 0 && Cleaned(v, v', procs[i])
    ensures ProcsOk(v', tr, procs[i := Proc(0, 0, 0)])
  {
    hide Good, Leaf, Covers;
    var p, procs' := procs[i], procs[i := Proc(0, 0, 0)];
    assert SlotOk(v, tr, p, i);
    NotKernel(v, p.trapframe);
    forall j | 0 <= j < |procs|
      ensures SlotOk(v', tr, procs'[j], j)
    {
      if j != i {
        assert SlotOk(v, tr, procs[j], j);
        Distinct(v, tr, procs, i, j);
        SlotSpared(v, v', tr, p, i, procs[j], j);
      }
    }
    forall q | 0 <= q < |v.own| && v'.own[q].Frame?
      ensures v'.own[q].proc < |procs| && procs'[v'.own[q].proc].trapframe == q
    {
      assert v'.own[q] == v.own[q] && q != p.trapframe;
    }
    forall r | Root(v'.own, r)
      ensures Used(procs', r)
    {
      assert Root(v.own, r) && r != p.pagetable;
      RootNotNull(v, r);
      UsedStill(procs, i, Proc(0, 0, 0), r);
    }
  }

  lemma SlotSpared(v: View, v': View, tr: nat, p: Proc, i: nat, s: Proc, j: nat)
    requires SlotOk(v, tr, p, i) && p.pagetable != 0 && Cleaned(v, v', p) && SlotOk(v, tr, s, j) && i != j
             && s.pagetable != p.pagetable
    ensures SlotOk(v', tr, s, j)
  {
    hide Good, Leaf;
    if s.pagetable != 0 {
      assert !PageOf(v, p, s.trapframe);
      assert !PageOf(v, p, s.pagetable);
    }
  }
}
