/** The invariant of the process machine, and the proof that every step keeps it. */
module ProcInvariant {
  import opened Wrappers
  import opened ProcProtocol

  /** Which process locks the thread of p holds at each point. */
  ghost predicate Holds(x: Proc, p: nat, q: nat) {
    match x.pc
    case Switching(_) => q == p
    case Resumed(_) => q == p
    case Forking(np, _) => q == np
    case ExitLocked => q == x.orig
    case Reparent(_) => q == p || q == x.orig
    case ReparentSeen(_) => q == p || q == x.orig
    case ExitZombie => q == p || q == x.orig
    case WaitScan(_, _) => q == p
    case WaitSeen(_, _) => q == p
    case WaitHold(i, _) => q == p || q == i
    case _ => false
  }

  ghost predicate Dead(pc: Pc) {
    pc.ExitZombie? || pc == Switching(Never) || pc == Parked(Never)
  }

  // In exit(), from the point where it has read p->parent.
  ghost predicate Exiting(pc: Pc) {
    pc.ExitRead? || pc.ExitLocked? || pc.Reparent? || pc.ReparentSeen? || Dead(pc)
  }

  /** A process that can have children: neither unused nor a zombie. */
  ghost predicate Alive(x: Proc) { !x.pc.Free? && !Dead(x.pc) }

  /** How far a loop over the process table has come, if the thread is in one. */
  ghost predicate IndexOk(pc: Pc, p: nat) {
    match pc
    case Forking(np, _) => np < NPROC && np != p
    case Reparent(i) => i <= NPROC
    case ReparentSeen(i) => i < NPROC && i != p
    case WaitScan(i, _) => i <= NPROC
    case WaitSeen(i, _) => i < NPROC && i != p
    case WaitHold(i, _) => i < NPROC && i != p
    case Switching(c) => c != Forkret
    case Resumed(c) => c != Never
    case _ => true
  }

  /** How a slot's state and CPU go with where its thread is. */
  ghost predicate StateOk(x: Proc, p: nat) {
    && (x.state.Unused? <==> x.pc.Free?)
    && (x.state.Zombie? <==> Dead(x.pc))
    && (x.on.Some? <==> !x.pc.Free? && !x.pc.Parked?)
    && (x.state.Running? <==> x.on.Some? && !x.pc.Switching? && !x.pc.ExitZombie?)
    && (x.pc.Switching? ==> (x.pc.call.FromYield? ==> x.state.Runnable?))
    && (x.pc.Switching? ==> (x.pc.call.FromSleep? || x.pc.call.FromWait? ==> x.state.Sleeping?))
    && (x.pc == Parked(FromYield) || x.pc == Parked(Forkret) ==> x.state.Runnable?)
    && (x.pc == Switching(FromWait) || x.pc == Parked(FromWait) || x.pc == Resumed(FromWait) ==> x.chan == OfProc(p))
    && (x.pc == Switching(FromSleep) || x.pc == Parked(FromSleep) ==> x.chan.Other?)
  }

  ghost predicate KinOk(x: Proc, p: nat) {
    && (x.parent.Some? ==> x.parent.value < NPROC && x.parent.value != p && p != INIT)
    && (!x.pc.Free? ==> x.parent.Some? || p == INIT)
    && (Exiting(x.pc) ==> x.orig < NPROC && x.orig != p && (x.parent == Some(x.orig) || x.parent == Some(INIT)))
    && (p == INIT ==> Alive(x) && !Exiting(x.pc) && x.pc != ExitWoken)
  }

  ghost predicate OneOk(x: Proc, p: nat) {
    IndexOk(x.pc, p) && StateOk(x, p) && KinOk(x, p) && (x.lock == Thread(p) <==> Holds(x, p, p))
  }

  /** How a CPU and a slot go together: a scheduler that looks at the slot, or is back from it, holds
      its lock, and one that is in neither place does not. */
  ghost predicate CpuOk(u: Cpu, c: nat, y: Proc, q: nat) {
    && (y.lock == Owner.Cpu(c) <==> u == Looking(q) || u == Back(q))
    && (y.on == Some(c) <==> u == Busy(q))
    && (u == Back(q) ==> y.on.None?)
  }

  // The slot that a loop of wait() is at.
  ghost predicate Passed(pc: Pc, q: nat) {
    (pc.WaitScan? || pc.WaitSeen? || pc.WaitHold?) && q < pc.i
  }

  /** What holds between a process p and any other slot q. */
  ghost predicate PairOk(x: Proc, p: nat, y: Proc, q: nat) {
    // p's thread holds q's lock exactly at the points where it should.
    && (y.lock == Thread(p) <==> Holds(x, p, q))
    // A slot's parent is alive; it gives its children away while it exits, and does not have any
    // left behind the place it has reached.
    && (y.parent == Some(p) ==>
          && Alive(x)
          && (x.pc.Reparent? || x.pc.ReparentSeen? ==> x.pc.i <= q)
          && (y.pc.Free? ==> x.pc == Forking(q, true)))
    // What was seen of a slot without its lock is still so.
    && (x.pc == ReparentSeen(q) || ((x.pc.WaitSeen? || x.pc.WaitHold?) && x.pc.i == q) ==> y.parent == Some(p))
    && (x.pc.Forking? && x.pc.np == q ==>
       y.pc.Free? && y.pid != 0 && y.parent == if x.pc.hasParent then Some(p) else None)
    // wait() has not passed over, and does not sleep on, a zombie that had p as its parent when it
    // looked for someone to wake.
    && (y.parent == Some(p) && y.state.Zombie? && y.orig == p ==>
          !Passed(x.pc, q) && x.pc != Switching(FromWait) && (x.pc == Parked(FromWait) ==> !x.state.Sleeping?))
    // Only init can get a child behind the place its scan has reached.
    && (p != INIT && Passed(x.pc, q) && !x.pc.kids ==> y.parent != Some(p))
  }

  // An owner that is a process or a CPU of this machine.
  ghost predicate InRange(x: Proc, ncpu: nat) {
    && (x.lock.Thread? ==> x.lock.p < NPROC) && (x.lock.Cpu? ==> x.lock.c < ncpu) && (x.on.Some? ==> x.on.value < ncpu)
  }

  ghost predicate ProcsOk(procs: seq<Proc>, ncpu: nat) {
    && |procs| == NPROC
    && (forall p :: 0 <= p < NPROC ==> OneOk(procs[p], p) && InRange(procs[p], ncpu))
    && (forall p, q :: 0 <= p < NPROC && 0 <= q < NPROC && p != q ==> PairOk(procs[p], p, procs[q], q))
  }

  ghost predicate CpusOk(procs: seq<Proc>, cpus: seq<Cpu>) {
    && (forall c :: 0 <= c < |cpus| ==> cpus[c].Idle? || cpus[c].q < |procs|)
    && (forall c, q :: 0 <= c < |cpus| && 0 <= q < |procs| ==> CpuOk(cpus[c], c, procs[q], q))
  }

  ghost predicate PidsOk(procs: seq<Proc>, nextPid: nat, reaped: seq<nat>) {
    && nextPid > 0
    && (forall p :: 0 <= p < |procs| ==> procs[p].pid < nextPid && (!procs[p].pc.Free? ==> procs[p].pid != 0))
    && (forall p, q :: 0 <= p < q < |procs| && procs[p].pid == procs[q].pid ==> procs[p].pid == 0)
    && (forall k :: 0 <= k < |reaped| ==> 0 < reaped[k] < nextPid)
    && (forall k, l :: 0 <= k < l < |reaped| ==> reaped[k] != reaped[l])
    && (forall k, p :: 0 <= k < |reaped| && 0 <= p < |procs| ==> reaped[k] != procs[p].pid)
  }

  ghost predicate Inv(s: State) {
    ProcsOk(s.procs, |s.cpus|) && CpusOk(s.procs, s.cpus) && PidsOk(s.procs, s.nextPid, s.reaped)
  }

  // ---- What has to be checked when one or two slots change ----

  ghost predicate FitsAt(procs: seq<Proc>, p: nat, x: Proc, r: nat)
    requires r < |procs|
  {
    PairOk(x, p, procs[r], r) && PairOk(procs[r], r, x, p)
  }

  lemma Put1(procs: seq<Proc>, ncpu: nat, p: nat, x: Proc)
    requires ProcsOk(procs, ncpu) && p < NPROC && OneOk(x, p) && InRange(x, ncpu)
    requires forall r :: 0 <= r < NPROC && r != p ==> FitsAt(procs, p, x, r)
    ensures ProcsOk(procs[p := x], ncpu)
  {
    hide OneOk, PairOk;
    var procs' := procs[p := x];
    forall a, b | 0 <= a < NPROC && 0 <= b < NPROC && a != b
      ensures PairOk(procs'[a], a, procs'[b], b)
    {
      assert a == p ==> FitsAt(procs, p, x, b);
      assert b == p ==> FitsAt(procs, p, x, a);
    }
  }

  lemma Put2(procs: seq<Proc>, ncpu: nat, p: nat, x: Proc, q: nat, y: Proc)
    requires ProcsOk(procs, ncpu) && p < NPROC && q < NPROC && p != q
    requires OneOk(x, p) && InRange(x, ncpu) && OneOk(y, q) && InRange(y, ncpu)
    requires PairOk(x, p, y, q) && PairOk(y, q, x, p)
    requires forall r :: 0 <= r < NPROC && r != p && r != q ==> FitsAt(procs, p, x, r) && FitsAt(procs, q, y, r)
    ensures ProcsOk(procs[p := x][q := y], ncpu)
  {
    hide OneOk, PairOk;
    var procs' := procs[p := x][q := y];
    forall a, b | 0 <= a < NPROC && 0 <= b < NPROC && a != b
      ensures PairOk(procs'[a], a, procs'[b], b)
    {
      assert a == p && b != q ==> FitsAt(procs, p, x, b);
      assert b == p && a != q ==> FitsAt(procs, p, x, a);
      assert a == q && b != p ==> FitsAt(procs, q, y, b);
      assert b == q && a != p ==> FitsAt(procs, q, y, a);
    }
  }

  // A change of the lock alone, as long as it is not a thread's that holds or should hold it.
  lemma FitsLock(procs: seq<Proc>, q: nat, l: Owner, r: nat)
    requires q < |procs| && r < |procs| && PairOk(procs[q], q, procs[r], r) && PairOk(procs[r], r, procs[q], q)
    requires l == Thread(r) <==> procs[q].lock == Thread(r)
    ensures FitsAt(procs, q, procs[q].(lock := l), r)
  {
  }

  // A change that other processes cannot see from what they rely on.
  ghost predicate SameToOthers(x: Proc, y: Proc) {
    x.parent == y.parent && x.orig == y.orig && x.pid == y.pid && x.pc.Free? == y.pc.Free?
      && x.state.Zombie? == y.state.Zombie?
  }

  lemma FitsKin(procs: seq<Proc>, p: nat, x: Proc, r: nat)
    requires p < |procs| && r < |procs| && PairOk(procs[r], r, procs[p], p) && SameToOthers(procs[p], x)
    requires (x.lock == Thread(r) <==> procs[p].lock == Thread(r)) && PairOk(x, p, procs[r], r)
    ensures FitsAt(procs, p, x, r)
  {
  }

  // Going back to code that uses no process lock.
  lemma FitsRun(procs: seq<Proc>, p: nat, l: Owner, r: nat)
    requires p < |procs| && r < |procs| && PairOk(procs[r], r, procs[p], p) && !procs[p].pc.Free?
             && !procs[p].state.Zombie?
    requires (l == Thread(r) <==> procs[p].lock == Thread(r)) && procs[r].lock != Thread(p)
             && !(procs[r].parent == Some(p) && procs[r].pc.Free?)
    ensures FitsAt(procs, p, procs[p].(pc := Run, lock := l), r)
  {
  }

  // Freeing a slot that is nobody's parent and that r has nothing to do with.
  lemma FitsFree(procs: seq<Proc>, q: nat, r: nat)
    requires q < |procs| && r < |procs| && PairOk(procs[q], q, procs[r], r) && PairOk(procs[r], r, procs[q], q)
    requires !Alive(procs[q]) && !Holds(procs[q], q, r) && procs[q].lock != Thread(r) && procs[q].parent != Some(r)
    ensures FitsAt(procs, q, FREE, r)
  {
  }

  lemma PidFacts(s: State, p: nat)
    requires PidsOk(s.procs, s.nextPid, s.reaped) && p < |s.procs|
    ensures s.nextPid > 0 && (s.procs[p].pc.Free? || s.procs[p].pid != 0)
  {
  }

  // The CPUs do not notice a change that leaves `on` and the schedulers' locks alone.
  ghost predicate SameToCpus(x: Proc, y: Proc) {
    x.on == y.on && (x.lock == y.lock || (!x.lock.Cpu? && !y.lock.Cpu?))
  }

  lemma CpusPut(procs: seq<Proc>, cpus: seq<Cpu>, p: nat, x: Proc)
    requires CpusOk(procs, cpus) && p < |procs| && SameToCpus(procs[p], x)
    ensures CpusOk(procs[p := x], cpus)
  {
  }

  lemma PidsPut(procs: seq<Proc>, nextPid: nat, reaped: seq<nat>, p: nat, x: Proc)
    requires PidsOk(procs, nextPid, reaped) && p < |procs| && x.pid == procs[p].pid && (x.pc.Free? || x.pid != 0)
    ensures PidsOk(procs[p := x], nextPid, reaped)
  {
  }

  lemma Keep1(s: State, p: nat, x: Proc)
    requires Inv(s) && p < NPROC && OneOk(x, p) && InRange(x, |s.cpus|) && SameToCpus(s.procs[p], x)
    requires x.pid == s.procs[p].pid && (x.pc.Free? || x.pid != 0)
    requires forall r :: 0 <= r < NPROC && r != p ==> FitsAt(s.procs, p, x, r)
    ensures Inv(Put(s, p, x))
  {
    hide OneOk, PairOk, CpusOk, PidsOk, FitsAt;
    Put1(s.procs, |s.cpus|, p, x);
    CpusPut(s.procs, s.cpus, p, x);
    PidsPut(s.procs, s.nextPid, s.reaped, p, x);
  }

  lemma Keep2(s: State, p: nat, x: Proc, q: nat, y: Proc)
    requires Inv(s) && p < NPROC && q < NPROC && p != q
    requires OneOk(x, p) && InRange(x, |s.cpus|) && SameToCpus(s.procs[p], x) && x.pid == s.procs[p].pid
             && (x.pc.Free? || x.pid != 0)
    requires OneOk(y, q) && InRange(y, |s.cpus|) && SameToCpus(s.procs[q], y) && y.pid == s.procs[q].pid
             && (y.pc.Free? || y.pid != 0)
    requires PairOk(x, p, y, q) && PairOk(y, q, x, p)
    requires forall r :: 0 <= r < NPROC && r != p && r != q ==> FitsAt(s.procs, p, x, r) && FitsAt(s.procs, q, y, r)
    ensures Inv(Put(Put(s, p, x), q, y))
  {
    hide OneOk, PairOk, CpusOk, PidsOk, FitsAt;
    Put2(s.procs, |s.cpus|, p, x, q, y);
    CpusPut(s.procs, s.cpus, p, x);
    CpusPut(s.procs[p := x], s.cpus, q, y);
    PidsPut(s.procs, s.nextPid, s.reaped, p, x);
    PidsPut(s.procs[p := x], s.nextPid, s.reaped, q, y);
  }

  // The CPUs and p's own pid, when p goes on and another slot is taken or given up.
  lemma KeepRest2(s: State, p: nat, x: Proc, q: nat, y: Proc)
    requires Inv(s) && p < NPROC && q < NPROC && p != q && SameToCpus(s.procs[p], x) && SameToCpus(s.procs[q], y)
    requires x.pid == s.procs[p].pid && (x.pc.Free? || x.pid != 0)
    ensures CpusOk(s.procs[p := x][q := y], s.cpus) && PidsOk(s.procs[p := x], s.nextPid, s.reaped)
  {
    hide OneOk, PairOk, CpusOk, PidsOk;
    CpusPut(s.procs, s.cpus, p, x);
    CpusPut(s.procs[p := x], s.cpus, q, y);
    PidsPut(s.procs, s.nextPid, s.reaped, p, x);
  }

  /** A step of CPU c that also changes slot q. */
  lemma KeepCpu(s: State, c: nat, u: Cpu, q: nat, y: Proc)
    requires Inv(s) && c < |s.cpus| && q < NPROC && OneOk(y, q) && InRange(y, |s.cpus|)
    requires y.pid == s.procs[q].pid && (y.pc.Free? || y.pid != 0) && (u.Idle? || u.q == q)
    requires forall r :: 0 <= r < NPROC && r != q ==> FitsAt(s.procs, q, y, r)
    requires forall r :: 0 <= r < NPROC && r != q ==> CpuOk(u, c, s.procs[r], r)
    requires forall d :: 0 <= d < |s.cpus| && d != c ==> CpuOk(s.cpus[d], d, y, q)
    requires CpuOk(u, c, y, q)
    ensures Inv(Put(s, q, y).(cpus := s.cpus[c := u]))
  {
    hide OneOk, PairOk, CpuOk, PidsOk, FitsAt;
    Put1(s.procs, |s.cpus|, q, y);
    PidsPut(s.procs, s.nextPid, s.reaped, q, y);
  }

  // ---- scheduler ----

  lemma KeepLook(s: State, c: nat, q: nat)
    requires Inv(s) && CanLook(s, c, q)
    ensures Inv(DoLook(s, c, q))
  {
    var y := DoLook(s, c, q).procs[q];
    forall r | 0 <= r < NPROC && r != q ensures FitsAt(s.procs, q, y, r) { FitsLock(s.procs, q, y.lock, r); }
    KeepCpu(s, c, Looking(q), q, y);
  }

  lemma KeepDispatch(s: State, c: nat)
    requires Inv(s) && CanDispatch(s, c)
    ensures Inv(DoDispatch(s, c))
  {
    var q := s.cpus[c].q;
    var y := DoDispatch(s, c).procs[q];
    forall r | 0 <= r < NPROC && r != q ensures FitsAt(s.procs, q, y, r) {  }
    KeepCpu(s, c, Busy(q), q, y);
  }

  lemma KeepSkip(s: State, c: nat)
    requires Inv(s) && CanSkip(s, c)
    ensures Inv(DoSkip(s, c))
  {
    var q := s.cpus[c].q;
    var y := DoSkip(s, c).procs[q];
    forall r | 0 <= r < NPROC && r != q ensures FitsAt(s.procs, q, y, r) { FitsLock(s.procs, q, NoOne, r); }
    KeepCpu(s, c, Idle, q, y);
  }

  lemma KeepBack(s: State, c: nat)
    requires Inv(s) && CanBack(s, c)
    ensures Inv(DoBack(s, c))
  {
    var q := s.cpus[c].q;
    var y := DoBack(s, c).procs[q];
    forall r | 0 <= r < NPROC && r != q ensures FitsAt(s.procs, q, y, r) { FitsLock(s.procs, q, NoOne, r); }
    KeepCpu(s, c, Idle, q, y);
  }

  lemma KeepSwitch(s: State, p: nat)
    requires Inv(s) && CanSwitch(s, p)
    ensures Inv(DoSwitch(s, p))
  {
    var c := s.procs[p].on.value;
    var x := DoSwitch(s, p).procs[p];
    assert CpuOk(s.cpus[c], c, s.procs[p], p);
    forall r | 0 <= r < NPROC && r != p ensures CpuOk(Back(p), c, s.procs[r], r) {
      assert CpuOk(s.cpus[c], c, s.procs[r], r);
    }
    forall r | 0 <= r < NPROC && r != p ensures FitsAt(s.procs, p, x, r) {}
    KeepCpu(s, c, Back(p), p, x);
  }

  lemma KeepResume(s: State, p: nat)
    requires Inv(s) && CanResume(s, p)
    ensures Inv(DoResume(s, p))
  {
    hide CpusOk, PidsOk;
    var x := DoResume(s, p).procs[p];
    PidFacts(s, p);
    forall r | 0 <= r < NPROC && r != p ensures FitsAt(s.procs, p, x, r) {}
    Keep1(s, p, x);
  }

  lemma KeepYield(s: State, p: nat)
    requires Inv(s) && CanYield(s, p)
    ensures Inv(DoYield(s, p))
  {
    var x := DoYield(s, p).procs[p];
    forall r | 0 <= r < NPROC && r != p ensures FitsAt(s.procs, p, x, r) {}
    Keep1(s, p, x);
  }

  lemma KeepSleep(s: State, p: nat, n: nat)
    requires Inv(s) && CanYield(s, p)
    ensures Inv(DoSleep(s, p, n))
  {
    var x := DoSleep(s, p, n).procs[p];
    forall r | 0 <= r < NPROC && r != p ensures FitsAt(s.procs, p, x, r) {}
    Keep1(s, p, x);
  }

  lemma KeepWake(s: State, q: nat, n: nat)
    requires Inv(s) && CanWake(s, q, n)
    ensures Inv(DoWake(s, q))
  {
    var x := DoWake(s, q).procs[q];
    forall r | 0 <= r < NPROC && r != q ensures FitsAt(s.procs, q, x, r) {}
    Keep1(s, q, x);
  }

  lemma KeepKill(s: State, q: nat)
    requires Inv(s) && Unlocked(s, q)
    ensures Inv(DoKill(s, q))
  {
    var x := DoKill(s, q).procs[q];
    forall r | 0 <= r < NPROC && r != q ensures FitsAt(s.procs, q, x, r) {}
    Keep1(s, q, x);
  }

  // A fresh pid for a slot, and a slot that gives its pid up.

  lemma PidsFresh(procs: seq<Proc>, nextPid: nat, reaped: seq<nat>, p: nat, x: Proc)
    requires PidsOk(procs, nextPid, reaped) && p < |procs| && x.pid == nextPid
    ensures PidsOk(procs[p := x], nextPid + 1, reaped)
  {
  }

  lemma PidsFree(procs: seq<Proc>, nextPid: nat, reaped: seq<nat>, p: nat)
    requires PidsOk(procs, nextPid, reaped) && p < |procs|
    ensures PidsOk(procs[p := FREE], nextPid, reaped)
    ensures procs[p].pid != 0 ==> PidsOk(procs[p := FREE], nextPid, reaped + [procs[p].pid])
  {
  }

  lemma ForkAllocFits(s: State, p: nat, np: nat)
    requires Inv(s) && CanForkAlloc(s, p, np)
    ensures var x, y := DoForkAlloc(s, p, np).procs[p], DoForkAlloc(s, p, np).procs[np];
            forall r :: 0 <= r < NPROC && r != p && r != np ==> FitsAt(s.procs, p, x, r) && FitsAt(s.procs, np, y, r)
  {
    hide CpusOk, PidsOk;
    var s' := DoForkAlloc(s, p, np);
    var x, y := s'.procs[p], s'.procs[np];
    forall r | 0 <= r < NPROC && r != p && r != np ensures FitsAt(s.procs, p, x, r) && FitsAt(s.procs, np, y, r) {
      FitsKin(s.procs, p, x, r);
    }
  }

  lemma KeepForkAlloc(s: State, p: nat, np: nat)
    requires Inv(s) && CanForkAlloc(s, p, np)
    ensures Inv(DoForkAlloc(s, p, np))
  {
    hide CpusOk, PidsOk, FitsAt;
    var s' := DoForkAlloc(s, p, np);
    var x, y := s'.procs[p], s'.procs[np];
    PidFacts(s, p);
    assert s.procs[np].parent.Some? ==>
           PairOk(s.procs[s.procs[np].parent.value], s.procs[np].parent.value, s.procs[np], np);
    ForkAllocFits(s, p, np);
    Put2(s.procs, |s.cpus|, p, x, np, y);
    KeepRest2(s, p, x, np, y);
    PidsFresh(s.procs[p := x], s.nextPid, s.reaped, np, y);
  }

  lemma KeepForkFail(s: State, p: nat)
    requires Inv(s) && CanForkFail(s, p)
    ensures Inv(DoForkFail(s, p))
  {
    hide FitsAt, CpusOk, PidsOk;
    var q := s.procs[p].pc.np;
    var x := DoForkFail(s, p).procs[p];
    PidFacts(s, p);
    PidFacts(s, q);
    assert s.procs[q].lock == Thread(p);
    forall r | 0 <= r < NPROC && r != p && r != q ensures FitsAt(s.procs, p, x, r) && FitsAt(s.procs, q, FREE, r) {
      FitsRun(s.procs, p, x.lock, r);
      FitsFree(s.procs, q, r);
    }
    Put2(s.procs, |s.cpus|, p, x, q, FREE);
    KeepRest2(s, p, x, q, FREE);
    PidsFree(s.procs[p := x], s.nextPid, s.reaped, q);
  }

  lemma KeepForkNoFrame(s: State, p: nat)
    requires Inv(s) && CanForkFail(s, p)
    ensures Inv(DoForkNoFrame(s, p))
  {
    hide CpusOk, PidsOk, FitsAt;
    var q := s.procs[p].pc.np;
    var x, y := DoForkNoFrame(s, p).procs[p], DoForkNoFrame(s, p).procs[q];
    PidFacts(s, p);
    assert s.procs[q].lock == Thread(p);
    forall r | 0 <= r < NPROC && r != p && r != q ensures FitsAt(s.procs, p, x, r) && FitsAt(s.procs, q, y, r) {
      FitsRun(s.procs, p, x.lock, r);
      FitsLock(s.procs, q, y.lock, r);
    }
    Keep2(s, p, x, q, y);
  }

  lemma KeepForkParent(s: State, p: nat)
    requires Inv(s) && CanForkFail(s, p)
    ensures Inv(DoForkParent(s, p))
  {
    hide CpusOk, PidsOk;
    var q := s.procs[p].pc.np;
    var s' := DoForkParent(s, p);
    var x, y := s'.procs[p], s'.procs[q];
    PidFacts(s, p);
    PidFacts(s, q);
    forall r | 0 <= r < NPROC && r != p && r != q ensures FitsAt(s.procs, p, x, r) && FitsAt(s.procs, q, y, r) {
      FitsKin(s.procs, p, x, r);
    }
    Keep2(s, p, x, q, y);
  }

  lemma ForkDoneFits(s: State, p: nat)
    requires Inv(s) && CanForkDone(s, p)
    ensures var q, s' := s.procs[p].pc.np, DoForkDone(s, p);
            forall r :: 0 <= r < NPROC && r != p && r != q ==>
              FitsAt(s.procs, p, s'.procs[p], r) && FitsAt(s.procs, q, s'.procs[q], r)
  {
    hide CpusOk, PidsOk;
    var q := s.procs[p].pc.np;
    var x, y := DoForkDone(s, p).procs[p], DoForkDone(s, p).procs[q];
    forall r | 0 <= r < NPROC && r != p && r != q ensures FitsAt(s.procs, p, x, r) && FitsAt(s.procs, q, y, r) {
      FitsKin(s.procs, p, x, r);
    }
  }

  lemma KeepForkDone(s: State, p: nat)
    requires Inv(s) && CanForkDone(s, p)
    ensures Inv(DoForkDone(s, p))
  {
    hide CpusOk, PidsOk, FitsAt;
    var q := s.procs[p].pc.np;
    var s' := DoForkDone(s, p);
    var x, y := s'.procs[p], s'.procs[q];
    PidFacts(s, p);
    PidFacts(s, q);
    ForkDoneFits(s, p);
    Keep2(s, p, x, q, y);
  }

  lemma KeepExitWake(s: State, p: nat)
    requires Inv(s) && CanExitWake(s, p)
    ensures Inv(DoExitWake(s, p))
  {
    hide CpusOk, PidsOk;
    var q := INIT;
    var s' := DoExitWake(s, p);
    var x, y := s'.procs[p], s'.procs[q];
    PidFacts(s, p);
    PidFacts(s, q);
    forall r | 0 <= r < NPROC && r != p && r != q ensures FitsAt(s.procs, p, x, r) && FitsAt(s.procs, q, y, r) {
      FitsKin(s.procs, p, x, r);
    }
    Keep2(s, p, x, q, y);
  }

  lemma KeepExitRead(s: State, p: nat)
    requires Inv(s) && CanExitRead(s, p)
    ensures Inv(DoExitRead(s, p))
  {
    var x := DoExitRead(s, p).procs[p];
    forall r | 0 <= r < NPROC && r != p ensures FitsAt(s.procs, p, x, r) {}
    Keep1(s, p, x);
  }

  lemma ExitLockFits(s: State, p: nat)
    requires Inv(s) && CanExitLock(s, p)
    ensures var q, s' := s.procs[p].orig, DoExitLock(s, p);
            forall r :: 0 <= r < NPROC && r != p && r != q ==>
              FitsAt(s.procs, p, s'.procs[p], r) && FitsAt(s.procs, q, s'.procs[q], r)
  {
    hide CpusOk, PidsOk, FitsAt;
    var q := s.procs[p].orig;
    var x, y := DoExitLock(s, p).procs[p], DoExitLock(s, p).procs[q];
    forall r | 0 <= r < NPROC && r != p && r != q ensures FitsAt(s.procs, p, x, r) && FitsAt(s.procs, q, y, r) {
      FitsKin(s.procs, p, x, r);
      FitsLock(s.procs, q, y.lock, r);
    }
  }

  lemma KeepExitLock(s: State, p: nat)
    requires Inv(s) && CanExitLock(s, p)
    ensures Inv(DoExitLock(s, p))
  {
    hide CpusOk, PidsOk, FitsAt;
    var q := s.procs[p].orig;
    var s' := DoExitLock(s, p);
    var x, y := s'.procs[p], s'.procs[q];
    PidFacts(s, p);
    PidFacts(s, q);
    ExitLockFits(s, p);
    Keep2(s, p, x, q, y);
  }

  lemma KeepExitSelf(s: State, p: nat)
    requires Inv(s) && CanExitSelf(s, p)
    ensures Inv(DoExitSelf(s, p))
  {
    var x := DoExitSelf(s, p).procs[p];
    forall r | 0 <= r < NPROC && r != p ensures FitsAt(s.procs, p, x, r) {}
    Keep1(s, p, x);
  }

  lemma KeepReparentLook(s: State, p: nat)
    requires Inv(s) && CanReparentLook(s, p)
    ensures Inv(DoReparentLook(s, p))
  {
    hide CpusOk, PidsOk;
    var x := DoReparentLook(s, p).procs[p];
    PidFacts(s, p);
    forall r | 0 <= r < NPROC && r != p ensures FitsAt(s.procs, p, x, r) {}
    Keep1(s, p, x);
  }

  lemma ReparentGiveFits(s: State, p: nat)
    requires Inv(s) && CanReparentGive(s, p)
    ensures var q, s' := s.procs[p].pc.i, DoReparentGive(s, p);
            forall r :: 0 <= r < NPROC && r != p && r != q ==>
              FitsAt(s.procs, p, s'.procs[p], r) && FitsAt(s.procs, q, s'.procs[q], r)
  {
    hide CpusOk, PidsOk;
    var q := s.procs[p].pc.i;
    var x, y := DoReparentGive(s, p).procs[p], DoReparentGive(s, p).procs[q];
    forall r | 0 <= r < NPROC && r != p && r != q ensures FitsAt(s.procs, p, x, r) && FitsAt(s.procs, q, y, r) {
      FitsKin(s.procs, p, x, r);
    }
  }

  lemma KeepReparentGive(s: State, p: nat)
    requires Inv(s) && CanReparentGive(s, p)
    ensures Inv(DoReparentGive(s, p))
  {
    hide CpusOk, PidsOk, FitsAt;
    var q := s.procs[p].pc.i;
    var s' := DoReparentGive(s, p);
    var x, y := s'.procs[p], s'.procs[q];
    PidFacts(s, p);
    PidFacts(s, q);
    ReparentGiveFits(s, p);
    Keep2(s, p, x, q, y);
  }

  lemma ExitZombieFits(s: State, p: nat)
    requires Inv(s) && CanExitZombie(s, p)
    ensures var q, s' := s.procs[p].orig, DoExitZombie(s, p);
            forall r :: 0 <= r < NPROC && r != p && r != q ==>
              FitsAt(s.procs, p, s'.procs[p], r) && FitsAt(s.procs, q, s'.procs[q], r)
  {
    hide CpusOk, PidsOk;
    var q := s.procs[p].orig;
    var x, y := DoExitZombie(s, p).procs[p], DoExitZombie(s, p).procs[q];
    forall r | 0 <= r < NPROC && r != p && r != q ensures FitsAt(s.procs, p, x, r) && FitsAt(s.procs, q, y, r) {}
  }

  lemma KeepExitZombie(s: State, p: nat)
    requires Inv(s) && CanExitZombie(s, p)
    ensures Inv(DoExitZombie(s, p))
  {
    hide CpusOk, PidsOk, FitsAt;
    var q := s.procs[p].orig;
    var s' := DoExitZombie(s, p);
    var x, y := s'.procs[p], s'.procs[q];
    PidFacts(s, p);
    PidFacts(s, q);
    ExitZombieFits(s, p);
    Keep2(s, p, x, q, y);
  }

  lemma ExitUnlockFits(s: State, p: nat)
    requires Inv(s) && CanExitUnlock(s, p)
    ensures var q, s' := s.procs[p].orig, DoExitUnlock(s, p);
            forall r :: 0 <= r < NPROC && r != p && r != q ==>
              FitsAt(s.procs, p, s'.procs[p], r) && FitsAt(s.procs, q, s'.procs[q], r)
  {
    hide CpusOk, PidsOk, FitsAt;
    var q := s.procs[p].orig;
    var x, y := DoExitUnlock(s, p).procs[p], DoExitUnlock(s, p).procs[q];
    forall r | 0 <= r < NPROC && r != p && r != q ensures FitsAt(s.procs, p, x, r) && FitsAt(s.procs, q, y, r) {
      FitsKin(s.procs, p, x, r);
      FitsLock(s.procs, q, y.lock, r);
    }
  }

  lemma KeepExitUnlock(s: State, p: nat)
    requires Inv(s) && CanExitUnlock(s, p)
    ensures Inv(DoExitUnlock(s, p))
  {
    hide CpusOk, PidsOk, FitsAt;
    var q := s.procs[p].orig;
    var s' := DoExitUnlock(s, p);
    var x, y := s'.procs[p], s'.procs[q];
    PidFacts(s, p);
    PidFacts(s, q);
    ExitUnlockFits(s, p);
    Keep2(s, p, x, q, y);
  }

  lemma KeepWaitLock(s: State, p: nat)
    requires Inv(s) && CanYield(s, p)
    ensures Inv(DoWaitLock(s, p))
  {
    hide CpusOk, PidsOk;
    var x := DoWaitLock(s, p).procs[p];
    PidFacts(s, p);
    forall r | 0 <= r < NPROC && r != p ensures FitsAt(s.procs, p, x, r) {}
    Keep1(s, p, x);
  }

  lemma KeepWaitLook(s: State, p: nat)
    requires Inv(s) && CanWaitLook(s, p)
    ensures Inv(DoWaitLook(s, p))
  {
    hide CpusOk, PidsOk;
    var x := DoWaitLook(s, p).procs[p];
    PidFacts(s, p);
    forall r | 0 <= r < NPROC && r != p ensures FitsAt(s.procs, p, x, r) {}
    Keep1(s, p, x);
  }

  lemma WaitTakeFits(s: State, p: nat)
    requires Inv(s) && CanWaitTake(s, p)
    ensures var q, s' := s.procs[p].pc.i, DoWaitTake(s, p);
            forall r :: 0 <= r < NPROC && r != p && r != q ==>
              FitsAt(s.procs, p, s'.procs[p], r) && FitsAt(s.procs, q, s'.procs[q], r)
  {
    hide CpusOk, PidsOk, FitsAt;
    var q := s.procs[p].pc.i;
    var x, y := DoWaitTake(s, p).procs[p], DoWaitTake(s, p).procs[q];
    forall r | 0 <= r < NPROC && r != p && r != q ensures FitsAt(s.procs, p, x, r) && FitsAt(s.procs, q, y, r) {
      FitsKin(s.procs, p, x, r);
      FitsLock(s.procs, q, y.lock, r);
    }
  }

  lemma KeepWaitTake(s: State, p: nat)
    requires Inv(s) && CanWaitTake(s, p)
    ensures Inv(DoWaitTake(s, p))
  {
    hide CpusOk, PidsOk, FitsAt;
    var q := s.procs[p].pc.i;
    var s' := DoWaitTake(s, p);
    var x, y := s'.procs[p], s'.procs[q];
    PidFacts(s, p);
    PidFacts(s, q);
    WaitTakeFits(s, p);
    Keep2(s, p, x, q, y);
  }

  lemma ReapFits(s: State, p: nat)
    requires Inv(s) && CanReap(s, p)
    ensures var q, x := s.procs[p].pc.i, DoReap(s, p).procs[p];
            forall r :: 0 <= r < NPROC && r != p && r != q ==> FitsAt(s.procs, p, x, r) && FitsAt(s.procs, q, FREE, r)
  {
    hide CpusOk, PidsOk, FitsAt;
    var q := s.procs[p].pc.i;
    var x := DoReap(s, p).procs[p];
    forall r | 0 <= r < NPROC && r != p && r != q ensures FitsAt(s.procs, p, x, r) && FitsAt(s.procs, q, FREE, r) {
      FitsRun(s.procs, p, x.lock, r);
      FitsFree(s.procs, q, r);
    }
  }

  lemma KeepReap(s: State, p: nat)
    requires Inv(s) && CanReap(s, p)
    ensures Inv(DoReap(s, p))
  {
    hide CpusOk, PidsOk, FitsAt;
    var q := s.procs[p].pc.i;
    var x := DoReap(s, p).procs[p];
    PidFacts(s, p);
    PidFacts(s, q);
    assert s.procs[q].lock == Thread(p);
    ReapFits(s, p);
    Put2(s.procs, |s.cpus|, p, x, q, FREE);
    KeepRest2(s, p, x, q, FREE);
    PidsFree(s.procs[p := x], s.nextPid, s.reaped, q);
  }

  lemma ReapFailFits(s: State, p: nat)
    requires Inv(s) && CanReap(s, p)
    ensures var q, s' := s.procs[p].pc.i, DoReapFail(s, p);
            forall r :: 0 <= r < NPROC && r != p && r != q ==>
              FitsAt(s.procs, p, s'.procs[p], r) && FitsAt(s.procs, q, s'.procs[q], r)
  {
    hide CpusOk, PidsOk, FitsAt;
    var q := s.procs[p].pc.i;
    var x, y := DoReapFail(s, p).procs[p], DoReapFail(s, p).procs[q];
    forall r | 0 <= r < NPROC && r != p && r != q ensures FitsAt(s.procs, p, x, r) && FitsAt(s.procs, q, y, r) {
      FitsRun(s.procs, p, x.lock, r);
      FitsLock(s.procs, q, y.lock, r);
    }
  }

  lemma KeepReapFail(s: State, p: nat)
    requires Inv(s) && CanReap(s, p)
    ensures Inv(DoReapFail(s, p))
  {
    hide CpusOk, PidsOk, FitsAt;
    var q := s.procs[p].pc.i;
    var s' := DoReapFail(s, p);
    var x, y := s'.procs[p], s'.procs[q];
    PidFacts(s, p);
    PidFacts(s, q);
    ReapFailFits(s, p);
    Keep2(s, p, x, q, y);
  }

  lemma WaitNextFits(s: State, p: nat)
    requires Inv(s) && CanWaitNext(s, p)
    ensures var q, s' := s.procs[p].pc.i, DoWaitNext(s, p);
            forall r :: 0 <= r < NPROC && r != p && r != q ==>
              FitsAt(s.procs, p, s'.procs[p], r) && FitsAt(s.procs, q, s'.procs[q], r)
  {
    hide CpusOk, PidsOk, FitsAt;
    var q := s.procs[p].pc.i;
    var x, y := DoWaitNext(s, p).procs[p], DoWaitNext(s, p).procs[q];
    forall r | 0 <= r < NPROC && r != p && r != q ensures FitsAt(s.procs, p, x, r) && FitsAt(s.procs, q, y, r) {
      FitsKin(s.procs, p, x, r);
      FitsLock(s.procs, q, y.lock, r);
    }
  }

  lemma KeepWaitNext(s: State, p: nat)
    requires Inv(s) && CanWaitNext(s, p)
    ensures Inv(DoWaitNext(s, p))
  {
    hide CpusOk, PidsOk, FitsAt;
    var q := s.procs[p].pc.i;
    var s' := DoWaitNext(s, p);
    var x, y := s'.procs[p], s'.procs[q];
    PidFacts(s, p);
    PidFacts(s, q);
    WaitNextFits(s, p);
    Keep2(s, p, x, q, y);
  }

  lemma KeepWaitGiveUp(s: State, p: nat)
    requires Inv(s) && CanWaitGiveUp(s, p)
    ensures Inv(DoWaitGiveUp(s, p))
  {
    hide CpusOk, PidsOk;
    var x := DoWaitGiveUp(s, p).procs[p];
    PidFacts(s, p);
    forall r | 0 <= r < NPROC && r != p ensures FitsAt(s.procs, p, x, r) {}
    Keep1(s, p, x);
  }

  lemma KeepWaitSleep(s: State, p: nat)
    requires Inv(s) && CanWaitSleep(s, p)
    ensures Inv(DoWaitSleep(s, p))
  {
    var x := DoWaitSleep(s, p).procs[p];
    forall r | 0 <= r < NPROC && r != p ensures FitsAt(s.procs, p, x, r) {}
    Keep1(s, p, x);
  }
}
