/** The family tree of kernel/proc.c over whole runs: parents are older than their children, so that
    every process descends from init, and wait() finds a child whenever there is one. */
module ProcFamily {
  import opened Wrappers
  import opened ProcProtocol
  import opened ProcInvariant
  import opened ProcTheorems

  ghost predicate OlderParent(s: State, q: nat)
    requires q < |s.procs|
  {
    var r := s.procs[q].parent;
    r.Some? ==> r.value < |s.procs| && s.procs[r.value].pid < s.procs[q].pid
  }

  ghost predicate OlderForker(s: State, p: nat)
    requires p < |s.procs|
  {
    s.procs[p].pc.Forking? ==> s.procs[p].pc.np < |s.procs| && s.procs[p].pid < s.procs[s.procs[p].pc.np].pid
  }

  /** A parent got its pid before its child did, and init got the first. */
  ghost predicate Older(s: State) {
    && |s.procs| == NPROC && s.procs[INIT].pid == 1
    && (forall q :: 0 <= q < NPROC ==> OlderParent(s, q))
    && (forall p :: 0 <= p < NPROC ==> OlderForker(s, p))
  }

  ghost predicate SameKinOf(x: Proc, y: Proc) {
    && x.pid == y.pid && x.parent == y.parent && x.pc.Free? == y.pc.Free?
    && (y.pc.Forking? ==> x.pc.Forking? && x.pc.np == y.pc.np)
  }

  ghost predicate SameKin(s: State, s': State) {
    |s.procs| == |s'.procs| && forall k :: 0 <= k < |s.procs| ==> SameKinOf(s.procs[k], s'.procs[k])
  }

  // The steps that change who is whose child.
  predicate Family(a: Step) {
    a.ForkAlloc? || a.ForkFail? || a.ForkParent? || a.ForkDone? || a.ReparentGive? || a.Reap?
  }

  predicate Scheduling(a: Step) {
    a.Look? || a.Dispatch? || a.Skip? || a.BackInScheduler? || a.Switch? || a.Resume? || a.Yield? || a.Sleep?
      || a.Wake? || a.Kill?
  }

  predicate Waiting(a: Step) {
    a.WaitLock? || a.WaitLook? || a.WaitTake? || a.ReapFail? || a.WaitNext? || a.WaitGiveUp? || a.WaitSleep?
  }

  lemma SchedulingKin(s: State, a: Step, s': State)
    requires Inv(s) && StepTo(s, a, s') && Scheduling(a)
    ensures SameKin(s, s')
  {
    hide PairOk, CpusOk, PidsOk;
    assert a.Dispatch? ==> OneOk(s.procs[s.cpus[a.c].q], s.cpus[a.c].q);
    assert a.Resume? || a.Switch? ==> OneOk(s.procs[a.p], a.p);
  }

  lemma WaitingKin(s: State, a: Step, s': State)
    requires Inv(s) && StepTo(s, a, s') && Waiting(a)
    ensures SameKin(s, s')
  {
    hide PairOk, CpusOk, PidsOk, OneOk;
  }

  lemma ExitingKin(s: State, a: Step, s': State)
    requires Inv(s) && StepTo(s, a, s') && !Family(a) && !Scheduling(a) && !Waiting(a)
    ensures SameKin(s, s')
  {
    hide PairOk, CpusOk, PidsOk, OneOk;
  }

  lemma StepKin(s: State, a: Step, s': State)
    requires Inv(s) && StepTo(s, a, s') && !Family(a)
    ensures SameKin(s, s')
  {
    hide Inv, StepTo, SameKin;
    if Scheduling(a) {
      SchedulingKin(s, a, s');
    } else if Waiting(a) {
      WaitingKin(s, a, s');
    } else {
      ExitingKin(s, a, s');
    }
  }

  lemma SameOlder(s: State, s': State)
    requires Older(s) && SameKin(s, s')
    ensures Older(s')
  {
    forall q | 0 <= q < NPROC
      ensures OlderParent(s', q) && OlderForker(s', q)
    {
      assert SameKinOf(s.procs[q], s'.procs[q]) && OlderParent(s, q) && OlderForker(s, q);
      var r := s.procs[q].parent;
      assert r.Some? ==> SameKinOf(s.procs[r.value], s'.procs[r.value]);
      assert s.procs[q].pc.Forking? ==> SameKinOf(s.procs[s.procs[q].pc.np], s'.procs[s.procs[q].pc.np]);
    }
  }

  // Only slot q changes its pid or parent, and it is nobody's parent if it changes its pid.
  lemma OneChanged(s: State, s': State, q: nat)
    requires Older(s) && |s'.procs| == NPROC && q < NPROC && q != INIT && OlderParent(s', q)
    requires forall k :: 0 <= k < NPROC && k != q ==>
             s'.procs[k].pid == s.procs[k].pid && s'.procs[k].parent == s.procs[k].parent
    requires s'.procs[q].pid == s.procs[q].pid || forall k :: 0 <= k < NPROC ==> s.procs[k].parent != Some(q)
    requires forall k :: 0 <= k < NPROC ==> OlderForker(s', k)
    ensures Older(s')
  {
    forall k | 0 <= k < NPROC
      ensures OlderParent(s', k)
    {
      assert OlderParent(s, k);
    }
  }

  // Nobody has a slot without a living process as its parent.
  lemma NoKids(s: State, q: nat)
    requires Inv(s) && q < NPROC && !Alive(s.procs[q])
    ensures forall k :: 0 <= k < NPROC ==> s.procs[k].parent != Some(q)
  {
    hide CpusOk, PidsOk;
    forall k | 0 <= k < NPROC
      ensures s.procs[k].parent != Some(q)
    {
      assert OneOk(s.procs[k], k);
      assert k != q ==> PairOk(s.procs[q], q, s.procs[k], k);
    }
  }

  // A free slot whose lock is free has no parent.
  lemma NoParent(s: State, q: nat)
    requires Inv(s) && Unlocked(s, q) && s.procs[q].pc.Free?
    ensures s.procs[q].parent.None?
  {
    hide CpusOk, PidsOk;
    var r := s.procs[q].parent;
    assert OneOk(s.procs[q], q);
    assert r.Some? ==> PairOk(s.procs[r.value], r.value, s.procs[q], q);
  }

  // Slot q is being forked by p at most: p holds its lock, or nobody does.
  lemma OneForker(s: State, q: nat, k: nat)
    requires Inv(s) && q < NPROC && k < NPROC && s.procs[k].pc.Forking? && s.procs[k].pc.np == q
    ensures s.procs[q].lock == Thread(k) && s.procs[q].pc.Free? && q != INIT && q != k
  {
    hide CpusOk, PidsOk;
    assert OneOk(s.procs[k], k) && OneOk(s.procs[INIT], INIT);
    assert PairOk(s.procs[k], k, s.procs[q], q);
  }

  lemma AllocOlder(s: State, p: nat, np: nat)
    requires Inv(s) && Older(s) && CanForkAlloc(s, p, np)
    ensures Older(DoForkAlloc(s, p, np))
  {
    var s' := DoForkAlloc(s, p, np);
    assert OneOk(s.procs[INIT], INIT) && OneOk(s.procs[np], np);
    hide CpusOk, ProcsOk;
    NoKids(s, np);
    NoParent(s, np);
    forall k | 0 <= k < NPROC
      ensures OlderForker(s', k)
    {
      assert OlderForker(s, k);
      if s.procs[k].pc.Forking? && s.procs[k].pc.np == np { OneForker(s, np, k); }
    }
    OneChanged(s, s', np);
  }

  lemma ForkOlder(s: State, a: Step, s': State)
    requires Inv(s) && Older(s) && StepTo(s, a, s') && (a.ForkFail? || a.ForkParent? || a.ForkDone?)
    ensures Older(s')
  {
    hide Inv;
    var p := a.p;
    var np := s.procs[p].pc.np;
    OneForker(s, np, p);
    NoKids(s, np);
    assert OlderForker(s, p) && OlderParent(s, np);
    forall k | 0 <= k < NPROC
      ensures OlderForker(s', k)
    {
      assert OlderForker(s, k);
      if k != p && s.procs[k].pc.Forking? && s.procs[k].pc.np == np { OneForker(s, np, k); }
    }
    OneChanged(s, s', np);
  }

  lemma GiveOlder(s: State, p: nat)
    requires Inv(s) && Older(s) && CanReparentGive(s, p)
    ensures Older(DoReparentGive(s, p))
  {
    var i := s.procs[p].pc.i;
    assert OneOk(s.procs[p], p) && PairOk(s.procs[p], p, s.procs[i], i) && OneOk(s.procs[i], i);
    hide Inv;
    assert OlderParent(s, i) && OlderParent(s, p);
    InitIsFirst(s, p);
    forall k | 0 <= k < NPROC
      ensures OlderForker(DoReparentGive(s, p), k)
    {
      assert OlderForker(s, k);
    }
    OneChanged(s, DoReparentGive(s, p), i);
  }

  // Init's pid is the smallest.
  lemma InitIsFirst(s: State, q: nat)
    requires Inv(s) && Older(s) && q < NPROC && !s.procs[q].pc.Free?
    ensures s.procs[INIT].pid <= s.procs[q].pid
  {
    hide ProcsOk, CpusOk;
  }

  lemma ReapOlder(s: State, p: nat)
    requires Inv(s) && Older(s) && CanReap(s, p)
    ensures Older(DoReap(s, p))
  {
    var i := s.procs[p].pc.i;
    assert OneOk(s.procs[i], i) && OneOk(s.procs[INIT], INIT);
    hide Inv;
    NoKids(s, i);
    forall k | 0 <= k < NPROC
      ensures OlderForker(DoReap(s, p), k)
    {
      assert OlderForker(s, k);
      if s.procs[k].pc.Forking? && s.procs[k].pc.np == i { OneForker(s, i, k); }
    }
    OneChanged(s, DoReap(s, p), i);
  }

  lemma StepOlder(s: State, a: Step, s': State)
    requires Inv(s) && Older(s) && StepTo(s, a, s')
    ensures Older(s')
  {
    hide Inv, Older, SameKin;
    if !Family(a) {
      StepKin(s, a, s');
      SameOlder(s, s');
    } else if a.ForkAlloc? {
      AllocOlder(s, a.p, a.np);
    } else if a.ReparentGive? {
      GiveOlder(s, a.p);
    } else if a.Reap? {
      ReapOlder(s, a.p);
    } else {
      ForkOlder(s, a, s');
    }
  }

  // ---- init's scan ----

  ghost predicate Alone(s: State) {
    forall k :: 0 <= k < |s.procs| && k != INIT ==> s.procs[k].pc.Free?
  }

  ghost predicate ChildFrom(s: State, i: nat) {
    exists k :: i <= k < |s.procs| && s.procs[k].parent == Some(INIT)
  }

  /** While init's scan has found no child, one is still ahead of it or there is none at all. */
  ghost predicate ScanOk(s: State) {
    |s.procs| == NPROC
      && (s.procs[INIT].pc.WaitScan? && !s.procs[INIT].pc.kids ==> Alone(s) || ChildFrom(s, s.procs[INIT].pc.i))
  }

  /** Parents of q, of its parent, and so on, up to init. */
  ghost predicate Lineage(s: State, line: seq<nat>, q: nat) {
    && line != [] && line[0] == q && line[|line| - 1] == INIT
    && (forall k :: 0 <= k < |line| ==> line[k] < |s.procs|)
    && forall k :: 0 <= k < |line| - 1 ==> s.procs[line[k]].parent == Some(line[k + 1])
  }

  lemma {:induction false} HasLineage(s: State, q: nat) returns (line: seq<nat>)
    requires Inv(s) && Older(s) && q < NPROC && !s.procs[q].pc.Free?
    ensures Lineage(s, line, q)
    decreases s.procs[q].pid
  {
    if q == INIT {
      line := [INIT];
    } else {
      assert OneOk(s.procs[q], q) && OlderParent(s, q);
      var r := s.procs[q].parent.value;
      assert PairOk(s.procs[r], r, s.procs[q], q);
      hide Inv, Older;
      var rest := HasLineage(s, r);
      line := [q] + rest;
    }
  }

  lemma SomeChild(s: State)
    requires Inv(s) && Older(s)
    ensures Alone(s) || ChildFrom(s, 0)
  {
    assert |s.procs| == NPROC;
    hide Inv, Older;
    if !Alone(s) {
      var q :| 0 <= q < |s.procs| && q != INIT && !s.procs[q].pc.Free?;
      var line := HasLineage(s, q);
      assert s.procs[line[|line| - 2]].parent == Some(line[|line| - 1]);
    }
  }

  ghost predicate Scanning(pc: Pc) { pc.WaitScan? && !pc.kids && pc.i > 0 }

  // Init's scan goes on only by looking at a slot.
  lemma InitLooks(s: State, a: Step, s': State)
    requires |s.procs| == |s'.procs| == NPROC && Inv(s) && StepTo(s, a, s') && Scanning(s'.procs[INIT].pc) && Waiting(a)
    ensures Advances(s, s')
  {
    hide PairOk, CpusOk, PidsOk, OneOk;
  }

  lemma InitStays(s: State, a: Step, s': State)
    requires |s.procs| == |s'.procs| == NPROC && Inv(s) && StepTo(s, a, s') && Scanning(s'.procs[INIT].pc)
             && !Waiting(a) && !Scheduling(a)
    ensures Advances(s, s')
  {
    hide PairOk, CpusOk, PidsOk;
    assert OneOk(s.procs[INIT], INIT);
  }

  lemma InitRests(s: State, a: Step, s': State)
    requires |s.procs| == |s'.procs| == NPROC && Inv(s) && StepTo(s, a, s') && Scanning(s'.procs[INIT].pc)
             && Scheduling(a)
    ensures Advances(s, s')
  {
    hide PairOk, CpusOk, PidsOk, OneOk;
  }

  ghost predicate Advances(s: State, s': State)
    requires |s.procs| == |s'.procs| == NPROC
  {
    var pc, pc' := s.procs[INIT].pc, s'.procs[INIT].pc;
    && pc.WaitScan? && !pc.kids && pc'.WaitScan?
    && (pc' == pc || (pc.i < NPROC && pc'.i == pc.i + 1 && s.procs[pc.i].parent != Some(INIT)))
  }

  // Init's children stay while it scans, and when there are no others none appear.
  ghost predicate KidsStay(s: State, s': State) {
    && |s.procs| == |s'.procs|
    && (forall k :: 0 <= k < |s.procs| && s.procs[k].parent == Some(INIT) ==> s'.procs[k].parent == Some(INIT))
    && (Alone(s) ==> Alone(s'))
  }

  // One slot q changes, and a thread other than init's moves on.
  lemma OneStays(s: State, s': State, p: nat, q: nat)
    requires |s.procs| == |s'.procs| == NPROC && p < NPROC && q < NPROC && p != q
    requires p != INIT && !s.procs[p].pc.Free? && s.procs[p].parent == s'.procs[p].parent
    requires forall k :: 0 <= k < NPROC && k != q && k != p ==> s'.procs[k] == s.procs[k]
    requires s.procs[q].parent == Some(INIT) ==> s'.procs[q].parent == Some(INIT)
    ensures KidsStay(s, s')
  {
  }

  lemma ForkStays(s: State, a: Step, s': State)
    requires Inv(s) && StepTo(s, a, s') && (a.ForkFail? || a.ForkParent? || a.ForkDone?) && s.procs[INIT].pc.WaitScan?
    ensures KidsStay(s, s')
  {
    var p := a.p;
    var np := s.procs[p].pc.np;
    assert OneOk(s.procs[p], p) && PairOk(s.procs[p], p, s.procs[np], np);
    hide Inv, KidsStay;
    OneStays(s, s', p, np);
  }

  lemma FamilyStays(s: State, a: Step, s': State)
    requires Inv(s) && StepTo(s, a, s') && Family(a) && s.procs[INIT].pc.WaitScan?
    ensures KidsStay(s, s')
  {
    var p := a.p;
    if a.ForkFail? || a.ForkParent? || a.ForkDone? {
      ForkStays(s, a, s');
    } else {
      var q := if a.ForkAlloc? then a.np else s.procs[p].pc.i;
      assert OneOk(s.procs[p], p) && PairOk(s.procs[p], p, s.procs[q], q);
      hide Inv, KidsStay;
      OneStays(s, s', p, q);
    }
  }

  lemma StepStays(s: State, a: Step, s': State)
    requires Inv(s) && StepTo(s, a, s') && |s.procs| == NPROC && s.procs[INIT].pc.WaitScan?
    ensures KidsStay(s, s')
  {
    hide Inv, StepTo;
    if Family(a) {
      FamilyStays(s, a, s');
    } else {
      StepKin(s, a, s');
      forall k | 0 <= k < |s.procs|
        ensures SameKinOf(s.procs[k], s'.procs[k])
      {
      }
    }
  }

  lemma ScanStep(s: State, a: Step, s': State)
    requires Inv(s) && Inv(s') && Older(s') && ScanOk(s) && StepTo(s, a, s')
    ensures ScanOk(s')
  {
    assert |s.procs| == |s'.procs| == NPROC;
    hide Inv, Older, StepTo;
    var pc' := s'.procs[INIT].pc;
    if pc'.WaitScan? && !pc'.kids {
      if pc'.i == 0 {
        SomeChild(s');
      } else {
        StepAdvances(s, a, s');
        StepStays(s, a, s');
        var i := s.procs[INIT].pc.i;
        if !Alone(s) {
          var k :| i <= k < |s.procs| && s.procs[k].parent == Some(INIT);
          assert k >= pc'.i && s'.procs[k].parent == Some(INIT);
        }
      }
    }
  }

  lemma StepAdvances(s: State, a: Step, s': State)
    requires |s.procs| == |s'.procs| == NPROC && Inv(s) && StepTo(s, a, s') && Scanning(s'.procs[INIT].pc)
    ensures Advances(s, s')
  {
    hide Inv, StepTo, Advances;
    if Waiting(a) {
      InitLooks(s, a, s');
    } else if Scheduling(a) {
      InitRests(s, a, s');
    } else {
      InitStays(s, a, s');
    }
  }

  // ---- Runs ----

  ghost predicate FamilyOk(s: State) { Inv(s) && Older(s) && ScanOk(s) }

  lemma {:induction false} RunFamily(states: seq<State>, i: nat)
    requires ProcTheorems.Run(states) && i < |states|
    ensures FamilyOk(states[i])
  {
    if i == 0 {
      BootedInv();
      var s := Booted();
      forall q | 0 <= q < NPROC
        ensures OlderParent(s, q) && OlderForker(s, q)
      {
        assert q != 0 ==> s.procs[q] == FREE;
      }
    } else {
      hide Inv, Older, ScanOk, StepTo, Booted;
      RunFamily(states, i - 1);
      assert Next(states[i - 1], states[i]);
      var a :| StepTo(states[i - 1], a, states[i]);
      KeepStep(states[i - 1], a, states[i]);
      StepOlder(states[i - 1], a, states[i]);
      ScanStep(states[i - 1], a, states[i]);
    }
  }

  lemma ReachableFamily(s: State)
    requires Reachable(s)
    ensures FamilyOk(s)
  {
    hide FamilyOk;
    var states :| ProcTheorems.Run(states) && states[|states| - 1] == s;
    RunFamily(states, |states| - 1);
  }

  /** Every process descends from init: following parents from any process ends at init. */
  lemma DescendsFromInit(s: State, q: nat) returns (line: seq<nat>)
    requires Reachable(s) && q < |s.procs| && !s.procs[q].state.Unused?
    ensures Lineage(s, line, q)
  {
    ReachableFamily(s);
    assert OneOk(s.procs[q], q);
    line := HasLineage(s, q);
  }

  /** When wait() returns -1 to a process that was not killed, the process has no children. Init can
      be given children behind its scan, but only if it has one that the scan finds. */
  lemma WaitGivesUpRightly(s: State, p: nat, q: nat)
    requires Reachable(s) && CanWaitGiveUp(s, p) && !s.procs[p].killed && q < |s.procs|
    ensures s.procs[q].parent != Some(p)
  {
    ReachableFamily(s);
    assert OneOk(s.procs[q], q);
    assert q != p ==> PairOk(s.procs[p], p, s.procs[q], q);
    if p == INIT {
      assert Alone(s);
    }
  }
}
