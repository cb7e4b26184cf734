/** Taking a page table apart (freewalk in kernel/vm.c). */
module VmFree {
  import opened VmState

  // What the addresses of a table's ancestor at that level begin with.
  ghost function Anc(o: Owner, level: nat): (p: nat)
    requires o.Table?
  {
    if level <= o.level then o.pre else if level == o.level + 1 then o.pre / NPTE else o.pre / NPTE / NPTE
  }

  // A page-table page of r in the subtree that has prefix pre at that level.
  ghost predicate Below(o: Owner, r: nat, level: nat, pre: nat) {
    o.Table? && o.root == r && o.level <= level && Anc(o, level) == pre
  }

  // Of that subtree, the part under the entries below i of its top.
  ghost predicate Done(o: Owner, r: nat, level: nat, pre: nat, i: nat) {
    Below(o, r, level, pre) && o.level < level && Anc(o, level - 1) < pre * NPTE + i
  }

  // Table s of the subtree: its entries lead down the tree, and its parent's entry leads to it.
  ghost predicate NodeOk(m: seq<Page>, o: seq<Owner>, r: nat, level: nat, pre: nat, s: nat)
    requires s < |o| == |m| && o[s].Table?
  {
    && m[s].Ptes? && |m[s].e| == NPTE
    && (forall k :: 0 <= k < NPTE && m[s].e[k].v ==>
          o[s].level > 0 && !m[s].e[k].Leaf() && m[s].e[k].ppn < |o|
            && o[m[s].e[k].ppn] == Table(r, o[s].level - 1, o[s].pre * NPTE + k, s))
    && (o[s].level < level ==> o[s].parent < |o| && o[o[s].parent].Table? && o[o[s].parent].root == r
                               && o[o[s].parent].level == o[s].level + 1 && o[o[s].parent].pre == o[s].pre / NPTE
                               && Step(m, o[s].parent, o[s].pre % NPTE) == s)
  }

  /** The subtree under t: it has no leaves. */
  ghost predicate SubOk(m: seq<Page>, o: seq<Owner>, r: nat, level: nat, pre: nat, t: nat) {
    && |m| == |o| && 0 < |o| && o[0] == Kernel && level <= 2 && t < |o| && o[t].Table? && o[t].root == r
       && o[t].level == level && o[t].pre == pre
    && (forall s :: 0 <= s < |o| && Below(o[s], r, level, pre) ==> NodeOk(m, o, r, level, pre, s))
    && (forall s :: 0 <= s < |o| && Below(o[s], r, level, pre) && o[s].level == level ==> s == t)
  }

  // The pages of the subtree are as they were, but for those that are done, and the entries of t.
  ghost predicate Halfway(m: seq<Page>, o: seq<Owner>, m': seq<Page>, o': seq<Owner>, r: nat, level: nat, pre: nat,
                          t: nat, i: nat) {
    && |m'| == |o'| == |o| == |m| && t < |o| && m[t].Ptes? && |m[t].e| == NPTE
    && (forall p :: 0 <= p < |o| ==>
       if Done(o[p], r, level, pre, i) then o'[p].Free? else o'[p] == o[p] && (p != t ==> m'[p] == m[p]))
    && m'[t].Ptes? && |m'[t].e| == NPTE && (forall k :: i <= k < NPTE ==> m'[t].e[k] == m[t].e[k])
  }

  /** An entry that is not valid has nothing under it. */
  lemma NothingUnder(m: seq<Page>, o: seq<Owner>, r: nat, level: nat, pre: nat, t: nat, i: nat, p: nat)
    requires SubOk(m, o, r, level, pre, t) && i < NPTE && p < |o| && level > 0 && NodeOk(m, o, r, level, pre, t)
             && !m[t].e[i].v
    ensures !Below(o[p], r, level - 1, pre * NPTE + i)
  {
    if Below(o[p], r, level - 1, pre * NPTE + i) {
      assert Below(o[p], r, level, pre);
      assert NodeOk(m, o, r, level, pre, p);
      var s := if o[p].level == level - 1 then p else o[p].parent;
      assert Below(o[s], r, level, pre);
      assert NodeOk(m, o, r, level, pre, s);
      assert Below(o[o[s].parent], r, level, pre);
    }
  }

  lemma ChildOk(m: seq<Page>, o: seq<Owner>, m': seq<Page>, o': seq<Owner>, r: nat, level: nat, pre: nat, t: nat,
                i: nat)
    requires SubOk(m, o, r, level, pre, t) && Halfway(m, o, m', o', r, level, pre, t, i) && i < NPTE && m[t].e[i].v
    ensures level > 0 && m[t].e[i].ppn < |o| && !m[t].e[i].Leaf()
    ensures SubOk(m', o', r, level - 1, pre * NPTE + i, m[t].e[i].ppn)
  {
    assert Below(o[t], r, level, pre);
    assert NodeOk(m, o, r, level, pre, t);
    var c, q := m[t].e[i].ppn, pre * NPTE + i;
    forall s | 0 <= s < |o| && Below(o'[s], r, level - 1, q)
      ensures NodeOk(m', o', r, level - 1, q, s) && (o'[s].level == level - 1 ==> s == c)
    {
      assert o'[s] == o[s] && Below(o[s], r, level, pre) && s != t;
      assert NodeOk(m, o, r, level, pre, s);
      ChildNode(m, o, m', o', r, level, pre, t, i, s);
    }
  }

  lemma ChildNode(m: seq<Page>, o: seq<Owner>, m': seq<Page>, o': seq<Owner>, r: nat, level: nat, pre: nat, t: nat,
                  i: nat, s: nat)
    requires SubOk(m, o, r, level, pre, t) && Halfway(m, o, m', o', r, level, pre, t, i) && i < NPTE && m[t].e[i].v
             && level > 0
    requires s < |o| && Below(o[s], r, level - 1, pre * NPTE + i) && o'[s] == o[s] && NodeOk(m, o, r, level, pre, s)
    ensures NodeOk(m', o', r, level - 1, pre * NPTE + i, s)
    ensures o[s].level == level - 1 ==> s == m[t].e[i].ppn
  {
    assert Below(o[t], r, level, pre);
    assert NodeOk(m, o, r, level, pre, t);
    assert s != t && m'[s] == m[s];
    forall k | 0 <= k < NPTE && m[s].e[k].v
      ensures o'[m[s].e[k].ppn] == o[m[s].e[k].ppn]
    {
      assert !Done(o[m[s].e[k].ppn], r, level, pre, i);
    }
    assert Below(o[o[s].parent], r, level, pre);
    if o[s].level < level - 1 {
      assert !Done(o[o[s].parent], r, level, pre, i);
    }
  }

  lemma Top(m: seq<Page>, o: seq<Owner>, r: nat, level: nat, pre: nat, t: nat)
    requires SubOk(m, o, r, level, pre, t)
    ensures Halfway(m, o, m, o, r, level, pre, t, 0) && o[t].Table? && o[t].root == r && o[t].level == level
            && o[t].pre == pre
  {
    assert Below(o[t], r, level, pre);
    assert NodeOk(m, o, r, level, pre, t);
    forall p | 0 <= p < |o|
      ensures !Done(o[p], r, level, pre, 0)
    {
      if Below(o[p], r, level, pre) && o[p].level < level {
        assert Anc(o[p], level - 1) / NPTE == pre;
      }
    }
  }

  lemma NoLeaf(m: seq<Page>, o: seq<Owner>, r: nat, level: nat, pre: nat, t: nat, i: nat)
    requires SubOk(m, o, r, level, pre, t) && i < NPTE && m[t].Ptes? && |m[t].e| == NPTE
    ensures m[t].e[i].v ==> !m[t].e[i].Leaf()
    ensures !m[t].e[i].v ==>
            forall p :: 0 <= p < |o| ==> (Done(o[p], r, level, pre, i + 1) <==> Done(o[p], r, level, pre, i))
  {
    assert Below(o[t], r, level, pre);
    assert NodeOk(m, o, r, level, pre, t);
    if !m[t].e[i].v {
      forall p | 0 <= p < |o|
        ensures Done(o[p], r, level, pre, i + 1) <==> Done(o[p], r, level, pre, i)
      {
        if level > 0 {
          NothingUnder(m, o, r, level, pre, t, i, p);
        }
      }
    }
  }

  // The subtree under entry i has gone to the free list.
  lemma HalfwayOn(m: seq<Page>, o: seq<Owner>, m1: seq<Page>, o1: seq<Owner>, m2: seq<Page>, o2: seq<Owner>, r: nat,
                  level: nat, pre: nat, t: nat, i: nat)
    requires SubOk(m, o, r, level, pre, t) && Halfway(m, o, m1, o1, r, level, pre, t, i) && i < NPTE && level > 0
             && |m2| == |o2| == |o|
    requires forall p :: 0 <= p < |o| ==>
             if Below(o1[p], r, level - 1, pre * NPTE + i) then o2[p].Free? else o2[p] == o1[p] && m2[p] == m1[p]
    ensures m2[t].Ptes? && |m2[t].e| == NPTE && o2[t] == o[t]
    ensures Halfway(m, o, m2[t := Ptes(m2[t].e[i := NoPte()])], o2, r, level, pre, t, i + 1)
  {
    assert !Below(o1[t], r, level - 1, pre * NPTE + i);
    forall p | 0 <= p < |o|
      ensures if Done(o[p], r, level, pre, i + 1) then o2[p].Free? else o2[p] == o[p] && (p != t ==> m2[p] == m[p])
    {
      DoneMore(o[p], r, level, pre, i);
    }
  }

  lemma DoneMore(o: Owner, r: nat, level: nat, pre: nat, i: nat)
    requires 0 < level <= 2 && i < NPTE
    ensures Done(o, r, level, pre, i + 1) <==> Done(o, r, level, pre, i) || Below(o, r, level - 1, pre * NPTE + i)
  {
  }

  lemma AllDone(m: seq<Page>, o: seq<Owner>, m': seq<Page>, o': seq<Owner>, r: nat, level: nat, pre: nat, t: nat)
    requires SubOk(m, o, r, level, pre, t) && Halfway(m, o, m', o', r, level, pre, t, NPTE)
    ensures forall p :: 0 <= p < |o| && p != t ==>
            if Below(o[p], r, level, pre) then o'[p].Free? else o'[p] == o[p] && m'[p] == m[p]
    ensures Below(o[t], r, level, pre) && o'[t] == o[t]
  {
    forall p | 0 <= p < |o| && p != t
      ensures Done(o[p], r, level, pre, NPTE) <==> Below(o[p], r, level, pre)
    {
      if Below(o[p], r, level, pre) && o[p].level < level {
        assert Anc(o[p], level - 1) / NPTE == pre;
      }
    }
  }

  // ---- A whole page table ----

  lemma LeafEntry(v: View, s: nat, k: nat)
    requires Good(v) && s < |v.own| && v.own[s].Table? && v.own[s].level == 0 && k < NPTE && v.own[s].pre < NPTE * NPTE
    requires v.mem[s].Ptes? && |v.mem[s].e| == NPTE
    ensures Leaf(v.mem, v.own[s].root, v.own[s].pre * NPTE + k).v == v.mem[s].e[k].v
  {
    SlotOwner(v.mem, v.own, s, v.own[s].pre * NPTE + k);
  }

  lemma WholeNode(v: View, r: nat, s: nat)
    requires Good(v) && Root(v.own, r) && (forall vpn :: 0 <= vpn < VPNS ==> !Leaf(v.mem, r, vpn).v)
    requires s < |v.own| && v.own[s].Table? && v.own[s].root == r
    ensures Below(v.own[s], r, 2, 0) && NodeOk(v.mem, v.own, r, 2, 0, s) && (v.own[s].level == 2 ==> s == r)
  {
    hide PageOk, FreeOk;
    var m, o := v.mem, v.own;
    assert TableOk(m, o, s);
    assert o[s].level < 2 ==> TableOk(m, o, o[s].parent);
    assert o[s].level == 0 ==> TableOk(m, o, o[o[s].parent].parent);
    forall k | 0 <= k < NPTE && m[s].e[k].v
      ensures o[s].level > 0 && !m[s].e[k].Leaf() && m[s].e[k].ppn < |o|
              && o[m[s].e[k].ppn] == Table(r, o[s].level - 1, o[s].pre * NPTE + k, s)
    {
      assert EntryOk(o, s, k, m[s].e[k]);
      if o[s].level == 0 {
        LeafEntry(v, s, k);
      }
    }
  }

  lemma WholeTree(v: View, r: nat)
    requires Good(v) && Root(v.own, r) && forall vpn :: 0 <= vpn < VPNS ==> !Leaf(v.mem, r, vpn).v
    ensures SubOk(v.mem, v.own, r, 2, 0, r)
  {
    hide PageOk, FreeOk, Leaf;
    forall s | 0 <= s < |v.own| && Below(v.own[s], r, 2, 0)
      ensures NodeOk(v.mem, v.own, r, 2, 0, s) && (v.own[s].level == 2 ==> s == r)
    {
      WholeNode(v, r, s);
    }
  }

  ghost predicate Of(o: Owner, r: nat) { (o.Table? || o.User?) && o.root == r }

  /** From v to v' the page table at r is gone: all its pages and all the pages it mapped are free, and
      every other page and translation is as it was. */
  ghost predicate Gone(v: View, v': View, r: nat) {
    && Good(v') && v'.start == v.start && |v'.own| == |v.own| == |v.mem| == |v'.mem|
    && (forall p :: 0 <= p < |v.own| ==>
       if Of(v.own[p], r) || v.own[p].Free? then v'.own[p].Free? else v'.own[p] == v.own[p] && v'.mem[p] == v.mem[p])
    && (forall q, vpn :: Root(v.own, q) && q != r && 0 <= vpn < VPNS ==> Leaf(v'.mem, q, vpn) == Leaf(v.mem, q, vpn))
  }

  // What freewalk leaves.
  ghost predicate Freed(v: View, v': View, r: nat) {
    && v'.start == v.start && |v'.own| == |v.own| == |v.mem| == |v'.mem| && FreeOk(v'.mem, v'.own, v'.head, v'.free)
    && forall p :: 0 <= p < |v.own| ==>
       if Below(v.own[p], r, 2, 0) then v'.own[p].Free? else v'.own[p] == v.own[p] && v'.mem[p] == v.mem[p]
  }

  lemma FreedGone(v: View, v': View, r: nat)
    requires Good(v) && Root(v.own, r) && (forall vpn :: 0 <= vpn < VPNS ==> !Leaf(v.mem, r, vpn).v) && Freed(v, v', r)
    ensures Gone(v, v', r)
  {
    hide TreeOk, FreeOk, Leaf, Below;
    forall p | 0 <= p < |v.own|
      ensures Below(v.own[p], r, 2, 0) <==> v.own[p].Table? && v.own[p].root == r
    {
      OfTree(v, r, p);
    }
    forall q, vpn | Root(v.own, q) && q != r && 0 <= vpn < VPNS
      ensures Leaf(v'.mem, q, vpn) == Leaf(v.mem, q, vpn)
    {
      OtherLeaf(v, v', r, q, vpn);
    }
    FreedTree(v, v', r);
    forall q, vpn | Root(v'.own, q) && 0 <= vpn < VPNS
      ensures LeafOk(v'.mem, v'.own, q, vpn)
    {
      assert LeafOk(v.mem, v.own, q, vpn);
    }
    forall p | 0 <= p < |v.own|
      ensures v.own[p].User? ==> v.own[p].root != r
    {
    }
  }

  lemma OfTree(v: View, r: nat, p: nat)
    requires Good(v) && Root(v.own, r) && (forall vpn :: 0 <= vpn < VPNS ==> !Leaf(v.mem, r, vpn).v) && p < |v.own|
    ensures Below(v.own[p], r, 2, 0) <==> v.own[p].Table? && v.own[p].root == r
  {
    if v.own[p].Table? && v.own[p].root == r {
      WholeNode(v, r, p);
    }
  }

  lemma OtherLeaf(v: View, v': View, r: nat, q: nat, vpn: nat)
    requires Good(v) && Root(v.own, q) && q != r && vpn < VPNS && Freed(v, v', r)
    ensures Leaf(v'.mem, q, vpn) == Leaf(v.mem, q, vpn)
  {
    hide PageOk, FreeOk;
    Path(v.mem, v.own, q, vpn);
  }

  lemma FreedTree(v: View, v': View, r: nat)
    requires Good(v) && Root(v.own, r) && (forall vpn :: 0 <= vpn < VPNS ==> !Leaf(v.mem, r, vpn).v) && Freed(v, v', r)
    ensures TreeOk(v'.mem, v'.own)
  {
    hide PageOk, FreeOk, Leaf;
    forall t | 0 <= t < |v'.own| && v'.own[t].Table?
      ensures TableOk(v'.mem, v'.own, t)
    {
      OfTree(v, r, t);
      assert TableOk(v.mem, v.own, t);
      forall k | 0 <= k < NPTE && v'.mem[t].e[k].v
        ensures EntryOk(v'.own, t, k, v'.mem[t].e[k])
      {
        assert EntryOk(v.own, t, k, v.mem[t].e[k]);
      }
    }
  }

  // ---- An empty page table ----

  // kalloc and memset for a new page table.
  ghost function Born(v: View): (v': View)
    requires FreeOk(v.mem, v.own, v.head, v.free) && |v.free| > 0
  {
    var v1, p := Taken(v), v.free[|v.free| - 1];
    View(v.start, v1.mem[p := Ptes(ZeroTable())], v1.own[p := Table(p, 2, 0, p)], v1.head, v1.free)
  }

  /** From v to v' a free page became the root of a page table that maps nothing. */
  ghost predicate Created(v: View, v': View, r: nat) {
    && Good(v') && v'.start == v.start && |v'.own| == |v.own| == |v.mem| == |v'.mem| && r < |v.own| && v.own[r].Free?
       && Root(v'.own, r)
    && (forall p :: 0 <= p < |v.own| && p != r ==> v'.own[p] == v.own[p] && v'.mem[p] == v.mem[p])
    && (forall q, vpn :: Root(v.own, q) && 0 <= vpn < VPNS ==> Leaf(v'.mem, q, vpn) == Leaf(v.mem, q, vpn))
    && (forall vpn :: 0 <= vpn < VPNS ==> !Leaf(v'.mem, r, vpn).v)
  }

  lemma BornCreated(v: View)
    requires Good(v) && |v.free| > 0
    ensures Created(v, Born(v), v.free[|v.free| - 1])
  {
    hide TreeOk, PageOk, Leaf;
    var v', r := Born(v), v.free[|v.free| - 1];
    assert v.own[r].Free?;
    BornTree(v);
    BornPages(v);
    BornFree(v);
    forall q, vpn | Root(v.own, q) && 0 <= vpn < VPNS
      ensures Leaf(v'.mem, q, vpn) == Leaf(v.mem, q, vpn)
    {
      BornLeaf(v, q, vpn);
    }
    forall vpn | 0 <= vpn < VPNS
      ensures Leaf(v'.mem, r, vpn) == NoPte()
    {
      EmptyLeaf(v', r, vpn);
    }
  }

  lemma BornFree(v: View)
    requires Good(v) && |v.free| > 0
    ensures var v' := Born(v); FreeOk(v'.mem, v'.own, v'.head, v'.free)
  {
    hide TreeOk, PageOk, FreeChain;
    TakenGood(v);
    assert v.own[v.free[|v.free| - 1]].Free?;
    FreeFrame(Taken(v), Born(v));
  }

  lemma BornPages(v: View)
    requires Good(v) && |v.free| > 0
    ensures PageOk(Born(v).mem, Born(v).own)
  {
    hide TreeOk, Leaf, LeafOk;
    var v', r := Born(v), v.free[|v.free| - 1];
    assert v.own[r].Free?;
    forall q, vpn | Root(v'.own, q) && 0 <= vpn < VPNS
      ensures LeafOk(v'.mem, v'.own, q, vpn)
    {
      BornLeafOk(v, q, vpn);
    }
    forall p | 0 <= p < |v'.own| && v'.own[p].User?
      ensures Root(v'.own, v'.own[p].root) && v'.own[p].vpn < TRAPFRAME
              && Leaf(v'.mem, v'.own[p].root, v'.own[p].vpn).v && Leaf(v'.mem, v'.own[p].root, v'.own[p].vpn).ppn == p
    {
      BornLeaf(v, v.own[p].root, v.own[p].vpn);
    }
  }

  lemma EmptyLeaf(v: View, r: nat, vpn: nat)
    requires r < |v.mem| && v.mem[r] == Ptes(ZeroTable()) && vpn < VPNS
    ensures Leaf(v.mem, r, vpn) == NoPte()
  {
  }

  lemma BornLeaf(v: View, q: nat, vpn: nat)
    requires Good(v) && |v.free| > 0 && Root(v.own, q) && vpn < VPNS
    ensures Leaf(Born(v).mem, q, vpn) == Leaf(v.mem, q, vpn)
  {
    hide PageOk;
    Path(v.mem, v.own, q, vpn);
    assert v.own[v.free[|v.free| - 1]].Free?;
  }

  lemma BornLeafOk(v: View, q: nat, vpn: nat)
    requires Good(v) && |v.free| > 0 && Root(Born(v).own, q) && vpn < VPNS
    ensures LeafOk(Born(v).mem, Born(v).own, q, vpn)
  {
    hide TreeOk, Leaf;
    var r := v.free[|v.free| - 1];
    if q == r {
      EmptyLeaf(Born(v), r, vpn);
    } else {
      BornLeaf(v, q, vpn);
      assert LeafOk(v.mem, v.own, q, vpn);
      assert v.own[r].Free?;
    }
  }

  lemma BornTree(v: View)
    requires Good(v) && |v.free| > 0
    ensures TreeOk(Born(v).mem, Born(v).own)
  {
    hide PageOk;
    var v', r := Born(v), v.free[|v.free| - 1];
    assert v.own[r].Free?;
    forall t | 0 <= t < |v'.own| && v'.own[t].Table?
      ensures TableOk(v'.mem, v'.own, t)
    {
      if t != r {
        assert TableOk(v.mem, v.own, t);
        forall k | 0 <= k < NPTE && v'.mem[t].e[k].v
          ensures EntryOk(v'.own, t, k, v'.mem[t].e[k])
        {
          assert EntryOk(v.own, t, k, v.mem[t].e[k]);
        }
      }
    }
  }
}
