/** Physical pages, page tables and who owns each page, as values (kernel/vm.c, kernel/kalloc.c,
    kernel/riscv.h). Pages are named by their number, physical address / PGSIZE; 0 is the null pointer.
    A virtual page is named by its number too. */
module VmState {
  import opened Numbers

  const PGSIZE := 4096
  const NPTE := 512
  const VPNS := 0x800_0000 // what three indices of nine bits can name
  const MAXVPN := 0x400_0000 // MAXVA / PGSIZE
  const RAM := 0x8000 // (PHYSTOP - KERNBASE) / PGSIZE
  const TRAMPOLINE := MAXVPN - 1
  const TRAPFRAME := MAXVPN - 2

  type Byte = x: int | 0 <= x < 256

  /** A page-table entry: a page number and the flags PTE_V, PTE_R, PTE_W, PTE_X, PTE_U. */
  datatype Pte = Pte(ppn: nat, v: bool, r: bool, w: bool, x: bool, u: bool) {
    predicate Leaf() { r || w || x }
  }

  function NoPte(): (e: Pte) { Pte(0, false, false, false, false, false) }

  function ZeroTable(): (e: seq<Pte>)
    ensures |e| == NPTE && forall k :: 0 <= k < NPTE ==> e[k] == NoPte()
  {
    seq(NPTE, _ => NoPte())
  }

  /** What a physical page holds: junk, a link of the free list, page-table entries, or user data. */
  datatype Page = Junk | Run(next: nat) | Ptes(e: seq<Pte>) | Data(b: seq<Byte>)

  /** Who owns a physical page: the kernel image, the free list at position k, kernel code that has
      allocated it, a process for its trapframe, a page table, or a virtual page of a page table. A
      page-table page of level `level` maps the addresses that begin with `pre`; `parent` points to it. */
  datatype Owner = Kernel | Free(k: nat) | Held | Frame(proc: nat)
                 | Table(root: nat, level: nat, pre: nat, parent: nat) | User(root: nat, vpn: nat)

  ghost predicate Root(o: seq<Owner>, r: nat) { r < |o| && o[r] == Table(r, 2, 0, r) }

  // The page that entry k of page t points to, 0 for none.
  ghost function Step(m: seq<Page>, t: nat, k: nat): (p: nat) {
    if t < |m| && m[t].Ptes? && k < |m[t].e| && m[t].e[k].v then m[t].e[k].ppn else 0
  }

  // The page tables of level 1 and 0 for a virtual page, 0 for none.
  ghost function Mid(m: seq<Page>, r: nat, vpn: nat): (t: nat) { Step(m, r, vpn / NPTE / NPTE) }

  ghost function Low(m: seq<Page>, r: nat, vpn: nat): (t: nat) {
    var t1 := Mid(m, r, vpn);
    if t1 == 0 then 0 else Step(m, t1, vpn / NPTE % NPTE)
  }

  /** The map that the page table at r stands for: the entry that translates a virtual page. */
  ghost function Leaf(m: seq<Page>, r: nat, vpn: nat): (e: Pte) {
    var t := Low(m, r, vpn);
    if t != 0 && t < |m| && m[t].Ptes? && |m[t].e| == NPTE && m[t].e[vpn % NPTE].v then m[t].e[vpn % NPTE] else NoPte()
  }

  // ---- The tree of page tables ----

  ghost predicate LinkOk(m: seq<Page>, o: seq<Owner>, t: nat)
    requires t < |o| && o[t].Table?
  {
    var w := o[t];
    && w.level <= 2 && Root(o, w.root)
    && (w.level == 2 ==> t == w.root)
    && (w.level < 2 ==>
       w.parent < |o| && o[w.parent].Table? && o[w.parent].root == w.root && o[w.parent].level == w.level + 1
                        && o[w.parent].pre == w.pre / NPTE && Step(m, w.parent, w.pre % NPTE) == t)
  }

  ghost predicate EntryOk(o: seq<Owner>, t: nat, k: nat, e: Pte)
    requires t < |o| && o[t].Table?
  {
    if o[t].level == 0 then e.Leaf()
    else !e.Leaf() && e.ppn < |o| && o[e.ppn] == Table(o[t].root, o[t].level - 1, o[t].pre * NPTE + k, t)
  }

  ghost predicate TableOk(m: seq<Page>, o: seq<Owner>, t: nat)
    requires t < |m| == |o| && o[t].Table?
  {
    && m[t].Ptes? && |m[t].e| == NPTE
    && LinkOk(m, o, t)
    && forall k :: 0 <= k < NPTE && m[t].e[k].v ==> EntryOk(o, t, k, m[t].e[k])
  }

  ghost predicate TreeOk(m: seq<Page>, o: seq<Owner>) {
    && |m| == |o| && 0 < |o| && o[0] == Kernel
    && forall t :: 0 <= t < |o| && o[t].Table? ==> TableOk(m, o, t)
  }

  /** Where a walk goes is where the owners say the tables are. */
  lemma Path(m: seq<Page>, o: seq<Owner>, r: nat, vpn: nat)
    requires TreeOk(m, o) && Root(o, r) && vpn < VPNS
    ensures var t1 := Mid(m, r, vpn); t1 != 0 ==> t1 < |o| && o[t1] == Table(r, 1, vpn / NPTE / NPTE, r)
    ensures var t0 := Low(m, r, vpn); t0 != 0 ==> t0 < |o| && o[t0] == Table(r, 0, vpn / NPTE, Mid(m, r, vpn))
  {
    assert TableOk(m, o, r);
    var t1 := Mid(m, r, vpn);
    if t1 != 0 {
      assert EntryOk(o, r, vpn / NPTE / NPTE, m[r].e[vpn / NPTE / NPTE]);
      assert TableOk(m, o, t1);
      if Low(m, r, vpn) != 0 {
        assert EntryOk(o, t1, vpn / NPTE % NPTE, m[t1].e[vpn / NPTE % NPTE]);
      }
    }
  }

  /** Distinct virtual pages of distinct page tables have distinct entries: the table and index of an
      entry give back the page table and the virtual page. */
  lemma SlotOwner(m: seq<Page>, o: seq<Owner>, t: nat, vpn: nat)
    requires TreeOk(m, o) && t < |o| && o[t].Table? && o[t].level == 0 && vpn < VPNS && o[t].pre == vpn / NPTE
    ensures Low(m, o[t].root, vpn) == t && t != 0
  {
    assert TableOk(m, o, t);
    var q := o[t].parent;
    assert TableOk(m, o, q);
    assert o[q].parent == o[t].root by { assert TableOk(m, o, o[q].parent); }
  }

  lemma DistinctSlots(m: seq<Page>, o: seq<Owner>, r: nat, vpn: nat, r': nat, vpn': nat)
    requires TreeOk(m, o) && Root(o, r) && Root(o, r') && vpn < VPNS && vpn' < VPNS
    requires Low(m, r, vpn) != 0 && Low(m, r, vpn) == Low(m, r', vpn') && vpn % NPTE == vpn' % NPTE
    ensures r == r' && vpn == vpn'
  {
    Path(m, o, r, vpn);
    Path(m, o, r', vpn');
  }

  // ---- A new page-table page ----

  /** Entry k of table t gets the empty page-table page p. */
  ghost function Hang(m: seq<Page>, t: nat, k: nat, p: nat): (m': seq<Page>)
    requires t < |m| && m[t].Ptes? && |m[t].e| == NPTE && k < NPTE && p < |m|
  {
    m[p := Ptes(ZeroTable())][t := Ptes(m[t].e[k := Pte(p, true, false, false, false, false)])]
  }

  ghost predicate CanHang(m: seq<Page>, o: seq<Owner>, t: nat, k: nat, p: nat) {
    && TreeOk(m, o) && t < |o| && o[t].Table? && 0 < o[t].level <= 2 && k < NPTE
    && p < |o| && o[p] == Held && !m[t].e[k].v
  }

  lemma HangTree(m: seq<Page>, o: seq<Owner>, t: nat, k: nat, p: nat)
    requires CanHang(m, o, t, k, p)
    ensures TreeOk(Hang(m, t, k, p), o[p := Table(o[t].root, o[t].level - 1, o[t].pre * NPTE + k, t)])
  {
    hide LinkOk, EntryOk;
    var m', o' := Hang(m, t, k, p), o[p := Table(o[t].root, o[t].level - 1, o[t].pre * NPTE + k, t)];
    assert TableOk(m, o, t);
    forall s | 0 <= s < |o'| && o'[s].Table?
      ensures TableOk(m', o', s)
    {
      HangLink(m, o, t, k, p, s);
      if s != p {
        assert TableOk(m, o, s);
        forall j | 0 <= j < NPTE && m'[s].e[j].v
          ensures EntryOk(o', s, j, m'[s].e[j])
        {
          HangEntry(m, o, t, k, p, s, j);
        }
      }
    }
  }

  lemma HangLink(m: seq<Page>, o: seq<Owner>, t: nat, k: nat, p: nat, s: nat)
    requires CanHang(m, o, t, k, p) && s < |o| && (s == p || o[s].Table?)
    ensures LinkOk(Hang(m, t, k, p), o[p := Table(o[t].root, o[t].level - 1, o[t].pre * NPTE + k, t)], s)
  {
    assert TableOk(m, o, t);
    assert s != p ==> TableOk(m, o, s);
  }

  lemma HangEntry(m: seq<Page>, o: seq<Owner>, t: nat, k: nat, p: nat, s: nat, j: nat)
    requires CanHang(m, o, t, k, p) && s < |o| && o[s].Table? && j < NPTE && Hang(m, t, k, p)[s].Ptes?
             && |Hang(m, t, k, p)[s].e| == NPTE
    requires Hang(m, t, k, p)[s].e[j].v
    ensures EntryOk(o[p := Table(o[t].root, o[t].level - 1, o[t].pre * NPTE + k, t)], s, j, Hang(m, t, k, p)[s].e[j])
  {
    assert TableOk(m, o, s) && TableOk(m, o, t);
    assert !(s == t && j == k) ==> EntryOk(o, s, j, m[s].e[j]);
  }

  lemma HangLeaf(m: seq<Page>, o: seq<Owner>, t: nat, k: nat, p: nat, r: nat, vpn: nat)
    requires CanHang(m, o, t, k, p) && Root(o, r) && vpn < VPNS
    ensures Leaf(Hang(m, t, k, p), r, vpn) == Leaf(m, r, vpn)
  {
    var m' := Hang(m, t, k, p);
    assert TableOk(m, o, t) && TableOk(m, o, r);
    Path(m, o, r, vpn);
    if Mid(m, r, vpn) == 0 {
      assert Mid(m', r, vpn) == 0 || Mid(m', r, vpn) == p;
    } else if Low(m, r, vpn) == 0 {
      assert Low(m', r, vpn) == 0 || Low(m', r, vpn) == p;
    }
  }

  // ---- A new entry for a virtual page ----

  ghost function Put(m: seq<Page>, t: nat, k: nat, e: Pte): (m': seq<Page>)
    requires t < |m| && m[t].Ptes? && |m[t].e| == NPTE && k < NPTE
  {
    m[t := Ptes(m[t].e[k := e])]
  }

  lemma PutTree(m: seq<Page>, o: seq<Owner>, t: nat, k: nat, e: Pte)
    requires TreeOk(m, o) && t < |o| && o[t].Table? && o[t].level == 0 && k < NPTE && (e.v ==> e.Leaf())
    ensures TableOk(m, o, t) && TreeOk(Put(m, t, k, e), o)
  {
    assert TableOk(m, o, t);
    var m' := Put(m, t, k, e);
    forall s | 0 <= s < |o| && o[s].Table?
      ensures TableOk(m', o, s)
    {
      assert TableOk(m, o, s);
      assert o[s].level < 2 ==> o[s].parent != t;
    }
  }

  /** Only the virtual page whose entry it is changes. */
  lemma PutLeaf(m: seq<Page>, o: seq<Owner>, r: nat, vpn: nat, t: nat, e: Pte, r': nat, vpn': nat)
    requires TreeOk(m, o) && Root(o, r) && vpn < VPNS && t == Low(m, r, vpn) && t != 0 && (e.v ==> e.Leaf())
    requires Root(o, r') && vpn' < VPNS
    ensures t < |o| && o[t].Table? && o[t].level == 0 && TableOk(m, o, t)
    ensures Leaf(Put(m, t, vpn % NPTE, e), r', vpn') == if r' == r && vpn' == vpn then (if e.v then e else NoPte())
            else Leaf(m, r', vpn')
  {
    Path(m, o, r, vpn);
    Path(m, o, r', vpn');
    assert TableOk(m, o, t);
    assert TableOk(m, o, r');
    assert Mid(Put(m, t, vpn % NPTE, e), r', vpn') == Mid(m, r', vpn');
    assert Low(Put(m, t, vpn % NPTE, e), r', vpn') == Low(m, r', vpn');
  }

  // ---- Virtual pages own their physical pages ----

  ghost predicate LeafOk(m: seq<Page>, o: seq<Owner>, r: nat, vpn: nat)
    requires |m| == |o|
  {
    var e := Leaf(m, r, vpn);
    e.v ==> if vpn < TRAPFRAME then e.ppn < |o| && o[e.ppn] == User(r, vpn) && m[e.ppn].Data? && |m[e.ppn].b| == PGSIZE
            else (vpn == TRAPFRAME || vpn == TRAMPOLINE) && !e.u
  }

  /** Below the trapframe, virtual pages and the physical pages they own correspond one to one. */
  ghost predicate PageOk(m: seq<Page>, o: seq<Owner>) {
    && |m| == |o|
    && (forall r, vpn :: Root(o, r) && 0 <= vpn < VPNS ==> LeafOk(m, o, r, vpn))
    && (forall p :: 0 <= p < |o| && o[p].User? ==>
          Root(o, o[p].root) && o[p].vpn < TRAPFRAME && Leaf(m, o[p].root, o[p].vpn).v
            && Leaf(m, o[p].root, o[p].vpn).ppn == p)
  }

  // ---- The free list ----

  // The free pages are those in `free`, each of them once.
  ghost predicate FreeOwned(o: seq<Owner>, free: seq<nat>) {
    && (forall k :: 0 <= k < |free| ==> 0 < free[k] < |o| && o[free[k]] == Free(k))
    && (forall p :: 0 <= p < |o| && o[p].Free? ==> o[p].k < |free| && free[o[p].k] == p)
  }

  // Each page of `free` links to the one before it.
  ghost predicate FreeChain(m: seq<Page>, free: seq<nat>) {
    && (forall k :: 0 <= k < |free| ==> free[k] < |m|)
    && (forall k {:trigger m[free[k]]} :: 0 <= k < |free| ==> m[free[k]] == Run(if k == 0 then 0 else free[k - 1]))
  }

  /** The free list, last element first, runs through the free pages. */
  ghost predicate FreeOk(m: seq<Page>, o: seq<Owner>, head: nat, free: seq<nat>) {
    && |m| == |o| && FreeOwned(o, free) && FreeChain(m, free)
    && head == if |free| == 0 then 0 else free[|free| - 1]
  }

  /** Everything at once. `start` is the first page that is not the kernel's; memory is small enough that
      user pages never reach the trapframe. */
  datatype View = View(start: nat, mem: seq<Page>, own: seq<Owner>, head: nat, free: seq<nat>)

  ghost predicate Managed(v: View) {
    && |v.mem| == |v.own| <= v.start + RAM && |v.own| <= TRAPFRAME && 0 < v.start
    && forall p :: 0 <= p < |v.own| ==> (v.own[p].Kernel? <==> p < v.start)
  }

  ghost predicate Good(v: View) {
    Managed(v) && TreeOk(v.mem, v.own) && PageOk(v.mem, v.own) && FreeOk(v.mem, v.own, v.head, v.free)
  }

  // ---- What does not touch page tables ----

  // The page tables are the same pages with the same entries.
  ghost predicate SameTables(m: seq<Page>, o: seq<Owner>, m': seq<Page>, o': seq<Owner>) {
    && |m| == |m'| && |o| == |o'| == |m|
    && forall p :: 0 <= p < |o| && (o[p].Table? || o'[p].Table?) ==> o'[p] == o[p] && m'[p] == m[p]
  }

  // So are the user pages.
  ghost predicate SameUsers(m: seq<Page>, o: seq<Owner>, m': seq<Page>, o': seq<Owner>)
    requires |m| == |o| == |m'| == |o'|
  {
    forall p :: 0 <= p < |o| && (o[p].User? || o'[p].User?) ==> o'[p] == o[p] && m'[p] == m[p]
  }

  lemma TreeFrame(m: seq<Page>, o: seq<Owner>, m': seq<Page>, o': seq<Owner>)
    requires TreeOk(m, o) && SameTables(m, o, m', o') && o'[0] == Kernel
    ensures TreeOk(m', o')
  {
    forall t | 0 <= t < |o'| && o'[t].Table?
      ensures TableOk(m', o', t)
    {
      assert TableOk(m, o, t);
      forall k | 0 <= k < NPTE && m'[t].e[k].v
        ensures EntryOk(o', t, k, m'[t].e[k])
      {
        assert EntryOk(o, t, k, m[t].e[k]);
      }
    }
  }

  lemma LeafFrame(m: seq<Page>, o: seq<Owner>, m': seq<Page>, o': seq<Owner>, r: nat, vpn: nat)
    requires TreeOk(m, o) && SameTables(m, o, m', o') && Root(o, r) && vpn < VPNS
    ensures Leaf(m', r, vpn) == Leaf(m, r, vpn)
  {
    Path(m, o, r, vpn);
  }

  lemma PageFrame(m: seq<Page>, o: seq<Owner>, m': seq<Page>, o': seq<Owner>)
    requires TreeOk(m, o) && PageOk(m, o) && SameTables(m, o, m', o') && SameUsers(m, o, m', o')
    ensures PageOk(m', o')
  {
    forall r, vpn | Root(o', r) && 0 <= vpn < VPNS
      ensures LeafOk(m', o', r, vpn)
    {
      LeafFrame(m, o, m', o', r, vpn);
      assert LeafOk(m, o, r, vpn);
    }
    forall p | 0 <= p < |o'| && o'[p].User?
      ensures Root(o', o'[p].root) && o'[p].vpn < TRAPFRAME && Leaf(m', o'[p].root, o'[p].vpn).v
              && Leaf(m', o'[p].root, o'[p].vpn).ppn == p
    {
      LeafFrame(m, o, m', o', o[p].root, o[p].vpn);
    }
  }

  // ---- kalloc and kfree ----

  /** The head of the free list leaves it. */
  ghost function Taken(v: View): (v': View)
    requires FreeOk(v.mem, v.own, v.head, v.free) && |v.free| > 0
  {
    var n := |v.free| - 1;
    var p := v.free[n];
    View(v.start, v.mem[p := Junk], v.own[p := Held], if n == 0 then 0 else v.free[n - 1], v.free[..n])
  }

  /** Page p becomes the head of the free list. */
  ghost function Released(v: View, p: nat): (v': View)
    requires p < |v.mem| == |v.own|
  {
    View(v.start, v.mem[p := Run(v.head)], v.own[p := Free(|v.free|)], p, v.free + [p])
  }

  lemma TakenFree(v: View)
    requires FreeOk(v.mem, v.own, v.head, v.free) && |v.free| > 0
    ensures var v' := Taken(v); FreeOk(v'.mem, v'.own, v'.head, v'.free)
  {
    TakenOwned(v.own, v.free);
    TakenChain(v.mem, v.own, v.free);
  }

  lemma TakenOwned(o: seq<Owner>, f: seq<nat>)
    requires FreeOwned(o, f) && |f| > 0
    ensures FreeOwned(o[f[|f| - 1] := Held], f[..|f| - 1])
  {
    var n := |f| - 1;
    assert o[f[n]] == Free(n);
  }

  lemma TakenChain(m: seq<Page>, o: seq<Owner>, f: seq<nat>)
    requires |m| == |o| && FreeOwned(o, f) && FreeChain(m, f) && |f| > 0
    ensures FreeChain(m[f[|f| - 1] := Junk], f[..|f| - 1])
  {
    var n := |f| - 1;
    var p := f[n];
    forall k | 0 <= k < n
      ensures f[k] != p
    {
      assert o[f[k]] == Free(k) && o[p] == Free(n);
    }
    var m', f' := m[p := Junk], f[..n];
    assert forall k {:trigger m'[f'[k]]} :: 0 <= k < n ==> m'[f'[k]] == m[f[k]];
  }

  lemma ReleasedFree(v: View, p: nat)
    requires FreeOk(v.mem, v.own, v.head, v.free) && 0 < p < |v.own| && !v.own[p].Free?
    ensures var v' := Released(v, p); FreeOk(v'.mem, v'.own, v'.head, v'.free)
  {
    ReleasedOwned(v.own, v.free, p);
    ReleasedChain(v.mem, v.own, v.free, p);
  }

  lemma ReleasedOwned(o: seq<Owner>, f: seq<nat>, p: nat)
    requires FreeOwned(o, f) && 0 < p < |o| && !o[p].Free?
    ensures FreeOwned(o[p := Free(|f|)], f + [p])
  {
  }

  lemma ReleasedChain(m: seq<Page>, o: seq<Owner>, f: seq<nat>, p: nat)
    requires |m| == |o| && FreeOwned(o, f) && FreeChain(m, f) && 0 < p < |o| && !o[p].Free?
    ensures FreeChain(m[p := Run(if |f| == 0 then 0 else f[|f| - 1])], f + [p])
  {
    var m', f' := m[p := Run(if |f| == 0 then 0 else f[|f| - 1])], f + [p];
    assert forall k {:trigger m'[f'[k]]} :: 0 <= k < |f| ==> m'[f'[k]] == m[f[k]];
  }

  lemma TakenGood(v: View)
    requires Good(v) && |v.free| > 0
    ensures Good(Taken(v)) && SameTables(v.mem, v.own, Taken(v).mem, Taken(v).own)
  {
    hide LeafOk, TableOk;
    var v' := Taken(v);
    TakenFree(v);
    TreeFrame(v.mem, v.own, v'.mem, v'.own);
    PageFrame(v.mem, v.own, v'.mem, v'.own);
  }

  lemma ReleasedGood(v: View, p: nat)
    requires Good(v) && p < |v.own| && (v.own[p].Held? || v.own[p].Frame?)
    ensures Good(Released(v, p)) && SameTables(v.mem, v.own, Released(v, p).mem, Released(v, p).own)
  {
    hide LeafOk, TableOk;
    var v' := Released(v, p);
    ReleasedFree(v, p);
    TreeFrame(v.mem, v.own, v'.mem, v'.own);
    PageFrame(v.mem, v.own, v'.mem, v'.own);
  }

  // ---- What an operation on one page table may change ----

  // Free pages, page tables below the root r, and the pages of r's virtual pages from lo up to hi.
  ghost predicate Mine(o: Owner, r: nat, lo: nat, hi: nat) {
    o.Free? || (o.Table? && o.root == r && o.level < 2) || (o.User? && o.root == r && lo <= o.vpn < hi)
  }

  ghost predicate KeptPage(v: View, v': View, r: nat, lo: nat, hi: nat, p: nat)
    requires p < |v.own| == |v'.own| == |v.mem| == |v'.mem|
  {
    if Mine(v.own[p], r, lo, hi) then Mine(v'.own[p], r, lo, hi)
    else v'.own[p] == v.own[p] && (p == r || v'.mem[p] == v.mem[p])
  }

  ghost predicate Kept(v: View, v': View, r: nat, lo: nat, hi: nat, except: set<nat>) {
    && |v.own| == |v'.own| == |v.mem| == |v'.mem|
    && forall p :: 0 <= p < |v.own| && p !in except ==> KeptPage(v, v', r, lo, hi, p)
  }

  ghost predicate LeavesKept(v: View, v': View, r: nat, lo: nat, hi: nat) {
    forall q, vpn :: Root(v.own, q) && 0 <= vpn < VPNS && !(q == r && lo <= vpn < hi) ==>
      Leaf(v'.mem, q, vpn) == Leaf(v.mem, q, vpn)
  }

  /** From v to v' only the page table at r changed, and what it maps from lo up to hi: every other
      translation of every page table is as before, and pages moved only between the free list, r's
      page-table pages and r's virtual pages in that range, but for the pages in `except`. */
  ghost predicate Changed(v: View, v': View, r: nat, lo: nat, hi: nat, except: set<nat>) {
    Good(v') && v'.start == v.start && Kept(v, v', r, lo, hi, except) && LeavesKept(v, v', r, lo, hi)
  }

  lemma ChangedTwice(v: View, v1: View, v2: View, r: nat, lo: nat, hi: nat, except: set<nat>)
    requires TreeOk(v.mem, v.own) && r !in except && Root(v.own, r)
    requires forall p :: p in except ==> p >= |v.own| || !v.own[p].Table?
    requires Changed(v, v1, r, lo, hi, except) && Changed(v1, v2, r, lo, hi, except)
    ensures Changed(v, v2, r, lo, hi, except)
  {
    hide Good, TreeOk, Leaf;
    forall p | 0 <= p < |v.own| && p !in except
      ensures KeptPage(v, v2, r, lo, hi, p)
    {
      assert KeptPage(v, v1, r, lo, hi, p) && KeptPage(v1, v2, r, lo, hi, p);
    }
    forall q, vpn | Root(v.own, q) && 0 <= vpn < VPNS && !(q == r && lo <= vpn < hi)
      ensures Leaf(v2.mem, q, vpn) == Leaf(v.mem, q, vpn)
    {
      assert KeptPage(v, v1, r, lo, hi, q);
    }
  }

  // A narrower range, and fewer exceptions, say more.
  lemma ChangedWider(v: View, v': View, r: nat, lo: nat, hi: nat, lo': nat, hi': nat, except: set<nat>,
                     except': set<nat>)
    requires Changed(v, v', r, lo, hi, except) && lo' <= lo && hi <= hi' && except <= except'
    ensures Changed(v, v', r, lo', hi', except')
  {
    hide Good, Leaf;
    forall p | 0 <= p < |v.own| && p !in except'
      ensures KeptPage(v, v', r, lo', hi', p)
    {
      assert KeptPage(v, v', r, lo, hi, p);
    }
  }

  /** kalloc, then the page hung into table t as a new page-table page. */
  lemma HangGood(v: View, t: nat, k: nat)
    requires Good(v) && |v.free| > 0 && t < |v.own| && v.own[t].Table? && 0 < v.own[t].level <= 2 && k < NPTE
    requires v.mem[t].Ptes? && |v.mem[t].e| == NPTE && !v.mem[t].e[k].v
    ensures Changed(v, Hung(v, t, k), v.own[t].root, 0, 0, {})
  {
    hide LeafOk, TableOk;
    var v1, v2, p := Taken(v), Hung(v, t, k), v.free[|v.free| - 1];
    TakenGood(v);
    HangTree(v1.mem, v1.own, t, k, p);
    forall r, vpn | Root(v.own, r) && 0 <= vpn < VPNS
      ensures Leaf(v2.mem, r, vpn) == Leaf(v.mem, r, vpn)
    {
      LeafFrame(v.mem, v.own, v1.mem, v1.own, r, vpn);
      HangLeaf(v1.mem, v1.own, t, k, p, r, vpn);
    }
    HangPages(v1, v2, t, k, p);
    IsRoot(v.mem, v.own, t);
  }

  lemma IsRoot(m: seq<Page>, o: seq<Owner>, t: nat)
    requires TreeOk(m, o) && t < |o| && o[t].Table?
    ensures Root(o, o[t].root) && (o[t].level == 2 ==> t == o[t].root)
  {
    assert TableOk(m, o, t);
  }

  ghost function Hung(v: View, t: nat, k: nat): (v': View)
    requires FreeOk(v.mem, v.own, v.head, v.free) && |v.free| > 0 && t < |v.own| && v.own[t].Table?
             && v.own[t].level > 0 && k < NPTE
    requires v.mem[t].Ptes? && |v.mem[t].e| == NPTE
  {
    var v1, p := Taken(v), v.free[|v.free| - 1];
    View(v.start, Hang(v1.mem, t, k, p),
      v1.own[p := Table(v.own[t].root, v.own[t].level - 1, v.own[t].pre * NPTE + k, t)], v1.head, v1.free)
  }

  lemma HangPages(v: View, v': View, t: nat, k: nat, p: nat)
    requires Good(v) && CanHang(v.mem, v.own, t, k, p) && TableOk(v.mem, v.own, t)
    requires v'.mem == Hang(v.mem, t, k, p)
             && v'.own == v.own[p := Table(v.own[t].root, v.own[t].level - 1, v.own[t].pre * NPTE + k, t)]
    ensures PageOk(v'.mem, v'.own)
  {
    hide TableOk;
    forall r, vpn | Root(v'.own, r) && 0 <= vpn < VPNS
      ensures LeafOk(v'.mem, v'.own, r, vpn)
    {
      HangLeaf(v.mem, v.own, t, k, p, r, vpn);
      assert LeafOk(v.mem, v.own, r, vpn);
    }
    forall q | 0 <= q < |v.own| && v'.own[q].User?
      ensures Root(v'.own, v.own[q].root) && v.own[q].vpn < TRAPFRAME && Leaf(v'.mem, v.own[q].root, v.own[q].vpn).v
              && Leaf(v'.mem, v.own[q].root, v.own[q].vpn).ppn == q
    {
      HangLeaf(v.mem, v.own, t, k, p, v.own[q].root, v.own[q].vpn);
    }
  }

  // ---- Walking ----

  /** PX(level, va): the nine bits of a virtual address that index a page table of that level. */
  function PX(level: nat, va: nat): (k: nat)
    requires level <= 2
    ensures k < NPTE
  {
    var weight := if level == 2 then NPTE * NPTE * PGSIZE else if level == 1 then NPTE * PGSIZE else PGSIZE;
    va / weight % NPTE
  }

  /** What the addresses that share a page table of that level begin with. */
  ghost function Pre(level: nat, vpn: nat): (p: nat) {
    if level == 2 then 0 else if level == 1 then vpn / NPTE / NPTE else vpn / NPTE
  }

  lemma Indices(va: nat)
    requires va / PGSIZE < VPNS
    ensures PX(2, va) == va / PGSIZE / NPTE / NPTE && PX(1, va) == va / PGSIZE / NPTE % NPTE
            && PX(0, va) == va / PGSIZE % NPTE
  {
  }

  // The walk stands at table t of a level.
  ghost predicate At(v: View, r: nat, va: nat, level: nat, t: nat) {
    && Good(v) && Root(v.own, r) && va / PGSIZE < VPNS && level <= 2
    && t < |v.own| && v.own[t].Table? && v.own[t].root == r && v.own[t].level == level
       && v.own[t].pre == Pre(level, va / PGSIZE)
  }

  lemma Descend(v: View, r: nat, va: nat, level: nat, t: nat)
    requires At(v, r, va, level, t) && level > 0 && Step(v.mem, t, PX(level, va)) != 0
    ensures At(v, r, va, level - 1, Step(v.mem, t, PX(level, va)))
  {
    assert TableOk(v.mem, v.own, t);
    Indices(va);
    assert EntryOk(v.own, t, PX(level, va), v.mem[t].e[PX(level, va)]);
  }

  lemma Bottom(v: View, r: nat, va: nat, t: nat)
    requires At(v, r, va, 0, t)
    ensures Low(v.mem, r, va / PGSIZE) == t && t != 0
  {
    SlotOwner(v.mem, v.own, t, va / PGSIZE);
  }

  lemma DeadEnd(v: View, r: nat, va: nat, level: nat, t: nat)
    requires At(v, r, va, level, t) && level > 0 && Step(v.mem, t, PX(level, va)) == 0
    ensures Low(v.mem, r, va / PGSIZE) == 0
  {
    Indices(va);
    assert TableOk(v.mem, v.own, t);
    if level == 1 {
      assert TableOk(v.mem, v.own, v.own[t].parent);
      assert Mid(v.mem, r, va / PGSIZE) == t;
    }
  }

  // An entry that is valid points somewhere.
  lemma ValidStep(v: View, r: nat, va: nat, level: nat, t: nat)
    requires At(v, r, va, level, t) && level > 0
    ensures t < |v.mem| && v.mem[t].Ptes? && |v.mem[t].e| == NPTE
    ensures Step(v.mem, t, PX(level, va)) == if v.mem[t].e[PX(level, va)].v then v.mem[t].e[PX(level, va)].ppn else 0
    ensures v.mem[t].e[PX(level, va)].v ==> Step(v.mem, t, PX(level, va)) != 0
  {
    assert TableOk(v.mem, v.own, t);
    if v.mem[t].e[PX(level, va)].v {
      assert EntryOk(v.own, t, PX(level, va), v.mem[t].e[PX(level, va)]);
    }
  }

  lemma HungAt(v: View, r: nat, va: nat, level: nat, t: nat)
    requires At(v, r, va, level, t) && level > 0 && |v.free| > 0 && Step(v.mem, t, PX(level, va)) == 0
    ensures v.mem[t].Ptes? && |v.mem[t].e| == NPTE && Changed(v, Hung(v, t, PX(level, va)), r, 0, 0, {})
    ensures At(Hung(v, t, PX(level, va)), r, va, level - 1, v.free[|v.free| - 1])
  {
    ValidStep(v, r, va, level, t);
    HangGood(v, t, PX(level, va));
    Indices(va);
    assert KeptPage(v, Hung(v, t, PX(level, va)), r, 0, 0, r);
  }

  // ---- Mapping and unmapping one page ----

  // A page that kernel code holds, to be mapped.
  ghost predicate Ready(v: View, p: nat) {
    p < |v.own| == |v.mem| && v.own[p] == Held && v.mem[p].Data? && |v.mem[p].b| == PGSIZE
  }

  ghost function MapTo(v: View, r: nat, vpn: nat, t: nat, e: Pte): (v': View)
    requires t < |v.mem| == |v.own| && v.mem[t].Ptes? && |v.mem[t].e| == NPTE && (vpn < TRAPFRAME ==> e.ppn < |v.own|)
  {
    View(v.start, Put(v.mem, t, vpn % NPTE, e), if vpn < TRAPFRAME then v.own[e.ppn := User(r, vpn)]
      else v.own, v.head, v.free)
  }

  ghost predicate CanMap(v: View, r: nat, vpn: nat, t: nat, e: Pte) {
    && Good(v) && Root(v.own, r) && vpn < MAXVPN && t == Low(v.mem, r, vpn) && t != 0
    && !Leaf(v.mem, r, vpn).v && e.v && e.Leaf() && if vpn < TRAPFRAME then Ready(v, e.ppn) else !e.u
  }

  // The table that holds the entry, and what may be written there.
  lemma SlotTable(v: View, r: nat, vpn: nat, t: nat)
    requires Good(v) && Root(v.own, r) && vpn < VPNS && t == Low(v.mem, r, vpn) && t != 0
    ensures t < |v.mem| && v.own[t] == Table(r, 0, vpn / NPTE, Mid(v.mem, r, vpn)) && v.mem[t].Ptes?
            && |v.mem[t].e| == NPTE
    ensures Leaf(v.mem, r, vpn) == if v.mem[t].e[vpn % NPTE].v then v.mem[t].e[vpn % NPTE] else NoPte()
  {
    Path(v.mem, v.own, r, vpn);
    assert TableOk(v.mem, v.own, t);
  }

  /** Mapping a page changes that translation and no other. */
  lemma MapGood(v: View, r: nat, vpn: nat, t: nat, e: Pte)
    requires CanMap(v, r, vpn, t, e)
    ensures t < |v.mem| && v.mem[t].Ptes? && |v.mem[t].e| == NPTE
    ensures Changed(v, MapTo(v, r, vpn, t, e), r, vpn, vpn + 1, if vpn < TRAPFRAME then {e.ppn} else {})
    ensures Leaf(MapTo(v, r, vpn, t, e).mem, r, vpn) == e
  {
    hide TreeOk, PageOk, FreeOk, Leaf, Low;
    SlotTable(v, r, vpn, t);
    var v' := MapTo(v, r, vpn, t, e);
    MapTree(v, r, vpn, t, e);
    MapPagesOk(v, r, vpn, t, e);
    MapFree(v, r, vpn, t, e);
    forall q, n | Root(v.own, q) && 0 <= n < VPNS
      ensures Leaf(v'.mem, q, n) == if q == r && n == vpn then e else Leaf(v.mem, q, n)
    {
      PutLeaf(v.mem, v.own, r, vpn, t, e, q, n);
    }
  }

  lemma MapTree(v: View, r: nat, vpn: nat, t: nat, e: Pte)
    requires CanMap(v, r, vpn, t, e) && t < |v.mem| && v.mem[t].Ptes? && |v.mem[t].e| == NPTE
    ensures TreeOk(MapTo(v, r, vpn, t, e).mem, MapTo(v, r, vpn, t, e).own)
  {
    hide TableOk;
    var v' := MapTo(v, r, vpn, t, e);
    SlotTable(v, r, vpn, t);
    PutTree(v.mem, v.own, t, vpn % NPTE, e);
    TreeFrame(v'.mem, v.own, v'.mem, v'.own);
  }

  lemma MapFree(v: View, r: nat, vpn: nat, t: nat, e: Pte)
    requires CanMap(v, r, vpn, t, e) && t < |v.mem| && v.mem[t].Ptes? && |v.mem[t].e| == NPTE
    ensures var v' := MapTo(v, r, vpn, t, e); FreeOk(v'.mem, v'.own, v'.head, v'.free)
  {
    hide TreeOk, PageOk, Leaf, Low;
    SlotTable(v, r, vpn, t);
    FreeFrame(v, MapTo(v, r, vpn, t, e));
  }

  lemma FreeFrame(v: View, v': View)
    requires FreeOk(v.mem, v.own, v.head, v.free) && v'.head == v.head && v'.free == v.free
             && |v.own| == |v'.own| == |v'.mem|
    requires forall p :: 0 <= p < |v.own| && (v.own[p].Free? || v'.own[p].Free?) ==>
             v'.own[p] == v.own[p] && v'.mem[p] == v.mem[p]
    ensures FreeOk(v'.mem, v'.own, v'.head, v'.free)
  {
    hide FreeChain;
    ChainFrame(v.mem, v'.mem, v.own, v.free);
  }

  lemma ChainFrame(m: seq<Page>, m': seq<Page>, o: seq<Owner>, f: seq<nat>)
    requires FreeOwned(o, f) && FreeChain(m, f) && |m| == |m'| == |o|
    requires forall p :: 0 <= p < |o| && o[p].Free? ==> m'[p] == m[p]
    ensures FreeChain(m', f)
  {
    assert forall k {:trigger m'[f[k]]} :: 0 <= k < |f| ==> o[f[k]].Free? && m'[f[k]] == m[f[k]];
  }

  lemma MapPagesOk(v: View, r: nat, vpn: nat, t: nat, e: Pte)
    requires CanMap(v, r, vpn, t, e) && t < |v.mem| && v.mem[t].Ptes? && |v.mem[t].e| == NPTE
    ensures PageOk(MapTo(v, r, vpn, t, e).mem, MapTo(v, r, vpn, t, e).own)
  {
    hide TreeOk, FreeOk, Leaf, Low;
    SlotTable(v, r, vpn, t);
    var v' := MapTo(v, r, vpn, t, e);
    forall q, n | Root(v'.own, q) && 0 <= n < VPNS
      ensures LeafOk(v'.mem, v'.own, q, n)
    {
      PutLeaf(v.mem, v.own, r, vpn, t, e, q, n);
      assert LeafOk(v.mem, v.own, q, n);
    }
    forall p | 0 <= p < |v'.own| && v'.own[p].User?
      ensures Root(v'.own, v'.own[p].root) && v'.own[p].vpn < TRAPFRAME
              && Leaf(v'.mem, v'.own[p].root, v'.own[p].vpn).v && Leaf(v'.mem, v'.own[p].root, v'.own[p].vpn).ppn == p
    {
      PutLeaf(v.mem, v.own, r, vpn, t, e, v'.own[p].root, v'.own[p].vpn);
    }
  }

  ghost predicate CanUnmap(v: View, r: nat, vpn: nat, t: nat) {
    Good(v) && Root(v.own, r) && vpn < MAXVPN && t == Low(v.mem, r, vpn) && Leaf(v.mem, r, vpn).v
  }

  // The entry cleared; a user page is in the hands of the caller then.
  ghost function Unmap(v: View, r: nat, vpn: nat, t: nat): (v': View)
    requires t < |v.mem| == |v.own| && v.mem[t].Ptes? && |v.mem[t].e| == NPTE
             && (vpn < TRAPFRAME ==> Leaf(v.mem, r, vpn).ppn < |v.own|)
  {
    View(v.start, Put(v.mem, t, vpn % NPTE, NoPte()), if vpn < TRAPFRAME then v.own[Leaf(v.mem, r, vpn).ppn := Held]
      else v.own, v.head, v.free)
  }

  lemma UnmapOwner(v: View, r: nat, vpn: nat, t: nat)
    requires CanUnmap(v, r, vpn, t)
    ensures 0 < v.start && |v.mem| == |v.own|
    ensures t != 0 && t < |v.mem| && v.own[t] == Table(r, 0, vpn / NPTE, Mid(v.mem, r, vpn)) && v.mem[t].Ptes?
            && |v.mem[t].e| == NPTE
    ensures v.mem[t].e[vpn % NPTE] == Leaf(v.mem, r, vpn) && Leaf(v.mem, r, vpn).Leaf()
    ensures var p := Leaf(v.mem, r, vpn).ppn;
            vpn < TRAPFRAME ==>
              v.start <= p < |v.own| && v.own[p] == User(r, vpn) && v.mem[p].Data? && |v.mem[p].b| == PGSIZE
  {
    SlotTable(v, r, vpn, t);
    assert TableOk(v.mem, v.own, t);
    assert EntryOk(v.own, t, vpn % NPTE, v.mem[t].e[vpn % NPTE]);
    assert LeafOk(v.mem, v.own, r, vpn);
  }

  lemma UnmapGood(v: View, r: nat, vpn: nat, t: nat)
    requires CanUnmap(v, r, vpn, t)
    ensures t < |v.mem| && v.mem[t].Ptes? && |v.mem[t].e| == NPTE
            && (vpn < TRAPFRAME ==> Leaf(v.mem, r, vpn).ppn < |v.own|)
    ensures Changed(v, Unmap(v, r, vpn, t), r, vpn, vpn + 1, if vpn < TRAPFRAME then {Leaf(v.mem, r, vpn).ppn} else {})
    ensures !Leaf(Unmap(v, r, vpn, t).mem, r, vpn).v
  {
    hide TreeOk, PageOk, FreeOk, Leaf, Low;
    UnmapOwner(v, r, vpn, t);
    var v' := Unmap(v, r, vpn, t);
    UnmapTree(v, r, vpn, t);
    UnmapPages(v, r, vpn, t);
    FreeFrame(v, v');
    forall q, n | Root(v.own, q) && 0 <= n < VPNS
      ensures Leaf(v'.mem, q, n) == if q == r && n == vpn then NoPte() else Leaf(v.mem, q, n)
    {
      PutLeaf(v.mem, v.own, r, vpn, t, NoPte(), q, n);
    }
  }

  lemma UnmapTree(v: View, r: nat, vpn: nat, t: nat)
    requires CanUnmap(v, r, vpn, t) && t < |v.mem| && v.mem[t].Ptes? && |v.mem[t].e| == NPTE
             && (vpn < TRAPFRAME ==> Leaf(v.mem, r, vpn).ppn < |v.own|)
    ensures TreeOk(Unmap(v, r, vpn, t).mem, Unmap(v, r, vpn, t).own)
  {
    hide TableOk, Leaf;
    var v' := Unmap(v, r, vpn, t);
    UnmapOwner(v, r, vpn, t);
    PutTree(v.mem, v.own, t, vpn % NPTE, NoPte());
    TreeFrame(v'.mem, v.own, v'.mem, v'.own);
  }

  lemma UnmapPages(v: View, r: nat, vpn: nat, t: nat)
    requires CanUnmap(v, r, vpn, t) && t < |v.mem| && v.mem[t].Ptes? && |v.mem[t].e| == NPTE
             && (vpn < TRAPFRAME ==> Leaf(v.mem, r, vpn).ppn < |v.own|)
    ensures PageOk(Unmap(v, r, vpn, t).mem, Unmap(v, r, vpn, t).own)
  {
    hide TreeOk, FreeOk, Leaf, Low;
    UnmapOwner(v, r, vpn, t);
    var v' := Unmap(v, r, vpn, t);
    forall q, n | Root(v'.own, q) && 0 <= n < VPNS
      ensures LeafOk(v'.mem, v'.own, q, n)
    {
      PutLeaf(v.mem, v.own, r, vpn, t, NoPte(), q, n);
      assert LeafOk(v.mem, v.own, q, n);
    }
    forall p | 0 <= p < |v'.own| && v'.own[p].User?
      ensures Root(v'.own, v'.own[p].root) && v'.own[p].vpn < TRAPFRAME
              && Leaf(v'.mem, v'.own[p].root, v'.own[p].vpn).v && Leaf(v'.mem, v'.own[p].root, v'.own[p].vpn).ppn == p
    {
      PutLeaf(v.mem, v.own, r, vpn, t, NoPte(), v'.own[p].root, v'.own[p].vpn);
    }
  }

  /** Unmapping a user page and freeing it. */
  lemma UnmapFree(v: View, r: nat, vpn: nat, t: nat)
    requires CanUnmap(v, r, vpn, t) && vpn < TRAPFRAME
    ensures t < |v.mem| && v.mem[t].Ptes? && |v.mem[t].e| == NPTE && Leaf(v.mem, r, vpn).ppn < |v.own|
    ensures var v' := Released(Unmap(v, r, vpn, t), Leaf(v.mem, r, vpn).ppn);
            Changed(v, v', r, vpn, vpn + 1, {}) && !Leaf(v'.mem, r, vpn).v
  {
    hide Good, Leaf, Low;
    UnmapOwner(v, r, vpn, t);
    UnmapGood(v, r, vpn, t);
    var v1, p := Unmap(v, r, vpn, t), Leaf(v.mem, r, vpn).ppn;
    ReleasedGood(v1, p);
    var v2, hi := Released(v1, p), vpn + 1;
    forall q | 0 <= q < |v.own|
      ensures KeptPage(v, v2, r, vpn, hi, q)
    {
      assert q != p ==> KeptPage(v, v1, r, vpn, hi, q);
    }
    forall q, n | Root(v.own, q) && 0 <= n < VPNS
      ensures Leaf(v2.mem, q, n) == Leaf(v1.mem, q, n)
    {
      assert KeptPage(v, v1, r, vpn, hi, q);
      SameLeaf(v1, v2, q, n);
    }
    assert Root(v.own, r) by { RootOf(v, r, vpn, t); }
  }

  lemma RootOf(v: View, r: nat, vpn: nat, t: nat)
    requires CanUnmap(v, r, vpn, t)
    ensures Root(v.own, r) && vpn < VPNS
  {
  }

  lemma SameLeaf(v: View, v': View, r: nat, vpn: nat)
    requires Good(v) && SameTables(v.mem, v.own, v'.mem, v'.own) && Root(v.own, r) && vpn < VPNS
    ensures Leaf(v'.mem, r, vpn) == Leaf(v.mem, r, vpn)
  {
    LeafFrame(v.mem, v.own, v'.mem, v'.own, r, vpn);
  }

  // ---- Pages in kernel hands ----

  // kalloc, and the page filled with b.
  ghost function Filled(v: View, b: seq<Byte>): (v': View)
    requires FreeOk(v.mem, v.own, v.head, v.free) && |v.free| > 0
  {
    var v1 := Taken(v);
    View(v.start, v1.mem[v.free[|v.free| - 1] := Data(b)], v1.own, v1.head, v1.free)
  }

  lemma FilledGood(v: View, b: seq<Byte>, r: nat)
    requires Good(v) && |v.free| > 0 && |b| == PGSIZE
    ensures var p := v.free[|v.free| - 1];
            v.own[p].Free? && Ready(Filled(v, b), p) && Changed(v, Filled(v, b), r, 0, 0, {p})
  {
    hide TreeOk, PageOk, FreeChain, Leaf;
    var v2, p := Filled(v, b), v.free[|v.free| - 1];
    assert v.own[p].Free?;
    FilledOk(v, b);
    forall q, n | Root(v.own, q) && 0 <= n < VPNS
      ensures Leaf(v2.mem, q, n) == Leaf(v.mem, q, n)
    {
      SameLeaf(v, v2, q, n);
    }
  }

  lemma FilledOk(v: View, b: seq<Byte>)
    requires Good(v) && |v.free| > 0 && |b| == PGSIZE
    ensures Good(Filled(v, b))
  {
    hide LeafOk, TableOk;
    var v1, v2 := Taken(v), Filled(v, b);
    TakenGood(v);
    assert v.own[v.free[|v.free| - 1]].Free?;
    TreeFrame(v1.mem, v1.own, v2.mem, v2.own);
    PageFrame(v1.mem, v1.own, v2.mem, v2.own);
    FreeFrame(v1, v2);
  }

  // A page that was free and is r's now, or free again, is no exception.
  lemma NoException(v: View, v': View, r: nat, lo: nat, hi: nat, p: nat)
    requires Changed(v, v', r, lo, hi, {p}) && p < |v.own| && Mine(v.own[p], r, lo, hi) && Mine(v'.own[p], r, lo, hi)
    ensures Changed(v, v', r, lo, hi, {})
  {
    hide Good, Leaf;
    forall q | 0 <= q < |v.own|
      ensures KeptPage(v, v', r, lo, hi, q)
    {
      assert q != p ==> KeptPage(v, v', r, lo, hi, q);
    }
  }

  // kfree of a page that was taken from the free list.
  lemma GivenBack(v: View, v1: View, r: nat, p: nat)
    requires Good(v) && Root(v.own, r) && p < |v.own| && v.own[p].Free? && Changed(v, v1, r, 0, 0, {p})
             && v1.own[p] == Held
    ensures Changed(v, Released(v1, p), r, 0, 0, {})
  {
    hide LeafOk, TableOk, TreeOk, PageOk, FreeOk, Leaf;
    var v2 := Released(v1, p);
    ReleasedGood(v1, p);
    forall q | 0 <= q < |v.own|
      ensures KeptPage(v, v2, r, 0, 0, q)
    {
      assert q != p ==> KeptPage(v, v1, r, 0, 0, q);
    }
    forall q, n | Root(v.own, q) && 0 <= n < VPNS
      ensures Leaf(v2.mem, q, n) == Leaf(v.mem, q, n)
    {
      assert KeptPage(v, v1, r, 0, 0, q);
      SameLeaf(v1, v2, q, n);
    }
  }

  // Nothing is mapped in the range before or after: nothing changed but page-table pages.
  lemma NothingMapped(v: View, v': View, r: nat, lo: nat, hi: nat)
    requires Good(v) && Root(v.own, r) && Changed(v, v', r, lo, hi, {})
    requires forall vpn :: lo <= vpn < hi && vpn < VPNS ==> Leaf(v'.mem, r, vpn) == Leaf(v.mem, r, vpn) == NoPte()
    ensures Changed(v, v', r, 0, 0, {})
  {
    hide TreeOk, FreeOk, Leaf;
    forall p | 0 <= p < |v.own|
      ensures KeptPage(v, v', r, 0, 0, p)
    {
      assert KeptPage(v, v', r, lo, hi, p);
    }
  }

  // ---- What a page table maps ----

  /** The user pages that the page table at r maps are the first n. */
  ghost predicate Covers(v: View, r: nat, n: nat) {
    forall vpn :: 0 <= vpn < TRAPFRAME ==> (Leaf(v.mem, r, vpn).v <==> vpn < n)
  }

  /** Memory is too small for user pages to reach the trapframe. */
  lemma CoversFits(v: View, r: nat, n: nat)
    requires Good(v) && Root(v.own, r) && Covers(v, r, n) && n <= TRAPFRAME
    ensures n < TRAPFRAME && n <= RAM
  {
    hide TreeOk, FreeOk, Leaf;
    var s := Backing(v, r, n);
    FewerThan(s, v.start, |v.own|);
  }

  // The physical pages of the first n virtual pages are n pages.
  lemma {:induction false} Backing(v: View, r: nat, n: nat) returns (s: set<nat>)
    requires Good(v) && Root(v.own, r) && n <= TRAPFRAME && forall vpn :: 0 <= vpn < n ==> Leaf(v.mem, r, vpn).v
    ensures |s| == n && forall p :: p in s ==>
            v.start <= p < |v.own| && v.own[p].User? && v.own[p].root == r && v.own[p].vpn < n
  {
    hide TreeOk, FreeOk, Leaf;
    s := {};
    var k := 0;
    while k < n
      invariant k <= n && |s| == k && forall p :: p in s ==>
                v.start <= p < |v.own| && v.own[p].User? && v.own[p].root == r && v.own[p].vpn < k
    {
      assert LeafOk(v.mem, v.own, r, k);
      s := s + {Leaf(v.mem, r, k).ppn};
      k := k + 1;
    }
  }
}
