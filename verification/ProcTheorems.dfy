/** What the process machine promises over whole runs: scheduling, exit, wait and reparenting. */
module ProcTheorems {
  import opened Wrappers
  import opened ProcProtocol
  import opened ProcInvariant

  datatype Step =
    | Look(c: nat, q: nat)
    | Dispatch(c: nat)
    | Skip(c: nat)
    | BackInScheduler(c: nat)
    | Switch(p: nat)
    | Resume(p: nat)
    | Yield(p: nat)
    | Sleep(p: nat, n: nat)
    | Wake(q: nat, n: nat)
    | Kill(q: nat)
    | ForkAlloc(p: nat, np: nat)
    | ForkFail(p: nat)
    | ForkNoFrame(p: nat)
    | ForkParent(p: nat)
    | ForkDone(p: nat)
    | ExitWake(p: nat)
    | ExitReadParent(p: nat)
    | ExitLock(p: nat)
    | ExitSelf(p: nat)
    | ReparentLook(p: nat)
    | ReparentGive(p: nat)
    | BecomeZombie(p: nat)
    | ExitUnlock(p: nat)
    | WaitLock(p: nat)
    | WaitLook(p: nat)
    | WaitTake(p: nat)
    | Reap(p: nat)
    | ReapFail(p: nat)
    | WaitNext(p: nat)
    | WaitGiveUp(p: nat)
    | WaitSleep(p: nat)

  /** Step a leads from s to s'. */
  ghost predicate StepTo(s: State, a: Step, s': State) {
    match a
    case Look(c, q) => CanLook(s, c, q) && s' == DoLook(s, c, q)
    case Dispatch(c) => CanDispatch(s, c) && s' == DoDispatch(s, c)
    case Skip(c) => CanSkip(s, c) && s' == DoSkip(s, c)
    case BackInScheduler(c) => CanBack(s, c) && s' == DoBack(s, c)
    case Switch(p) => CanSwitch(s, p) && s' == DoSwitch(s, p)
    case Resume(p) => CanResume(s, p) && s' == DoResume(s, p)
    case Yield(p) => CanYield(s, p) && s' == DoYield(s, p)
    case Sleep(p, n) => CanYield(s, p) && s' == DoSleep(s, p, n)
    case Wake(q, n) => CanWake(s, q, n) && s' == DoWake(s, q)
    case Kill(q) => Unlocked(s, q) && s' == DoKill(s, q)
    case ForkAlloc(p, np) => CanForkAlloc(s, p, np) && s' == DoForkAlloc(s, p, np)
    case ForkFail(p) => CanForkFail(s, p) && s' == DoForkFail(s, p)
    case ForkNoFrame(p) => CanForkFail(s, p) && s' == DoForkNoFrame(s, p)
    case ForkParent(p) => CanForkFail(s, p) && s' == DoForkParent(s, p)
    case ForkDone(p) => CanForkDone(s, p) && s' == DoForkDone(s, p)
    case ExitWake(p) => CanExitWake(s, p) && s' == DoExitWake(s, p)
    case ExitReadParent(p) => CanExitRead(s, p) && s' == DoExitRead(s, p)
    case ExitLock(p) => CanExitLock(s, p) && s' == DoExitLock(s, p)
    case ExitSelf(p) => CanExitSelf(s, p) && s' == DoExitSelf(s, p)
    case ReparentLook(p) => CanReparentLook(s, p) && s' == DoReparentLook(s, p)
    case ReparentGive(p) => CanReparentGive(s, p) && s' == DoReparentGive(s, p)
    case BecomeZombie(p) => CanExitZombie(s, p) && s' == DoExitZombie(s, p)
    case ExitUnlock(p) => CanExitUnlock(s, p) && s' == DoExitUnlock(s, p)
    case WaitLock(p) => CanYield(s, p) && s' == DoWaitLock(s, p)
    case WaitLook(p) => CanWaitLook(s, p) && s' == DoWaitLook(s, p)
    case WaitTake(p) => CanWaitTake(s, p) && s' == DoWaitTake(s, p)
    case Reap(p) => CanReap(s, p) && s' == DoReap(s, p)
    case ReapFail(p) => CanReap(s, p) && s' == DoReapFail(s, p)
    case WaitNext(p) => CanWaitNext(s, p) && s' == DoWaitNext(s, p)
    case WaitGiveUp(p) => CanWaitGiveUp(s, p) && s' == DoWaitGiveUp(s, p)
    case WaitSleep(p) => CanWaitSleep(s, p) && s' == DoWaitSleep(s, p)
  }

  /** A run: from boot, each state follows from the one before by a step. */
  ghost predicate Run(states: seq<State>) {
    && states != [] && states[0] == Booted()
    && forall i :: 0 < i < |states| ==> Next(states[i - 1], states[i])
  }

  ghost predicate Next(s: State, s': State) { exists a :: StepTo(s, a, s') }

  ghost predicate Reachable(s: State) { exists states :: Run(states) && states[|states| - 1] == s }

  /** After userinit: init is ready to run, every other slot is unused, every CPU is in its scheduler. */
  function Booted(): (s: State) {
    State([FREE.(state := Runnable, pid := 1, pc := Parked(Forkret))] + seq(NPROC - 1, _ => FREE),
      seq(NCPU, _ => Idle), 2, [])
  }

  lemma BootedInv()
    ensures Inv(Booted())
  {
    var s := Booted();
    forall p, q | 0 <= p < NPROC && 0 <= q < NPROC && p != q
      ensures PairOk(s.procs[p], p, s.procs[q], q)
    {
      assert p != 0 ==> s.procs[p] == FREE;
      assert q != 0 ==> s.procs[q] == FREE;
    }
    forall p | 0 <= p < NPROC
      ensures OneOk(s.procs[p], p) && InRange(s.procs[p], NCPU) && forall c :: 0 <= c < NCPU ==>
              CpuOk(s.cpus[c], c, s.procs[p], p)
    {
      assert p != 0 ==> s.procs[p] == FREE;
    }
    assert PidsOk(s.procs, s.nextPid, s.reaped);
  }

  lemma KeepStep(s: State, a: Step, s': State)
    requires Inv(s) && StepTo(s, a, s')
    ensures Inv(s')
  {
    hide Inv, Put, Woken, Executes, At, Unlocked;
    match a
    case Look(c, q) => KeepLook(s, c, q);
    case Dispatch(c) => KeepDispatch(s, c);
    case Skip(c) => KeepSkip(s, c);
    case BackInScheduler(c) => KeepBack(s, c);
    case Switch(p) => KeepSwitch(s, p);
    case Resume(p) => KeepResume(s, p);
    case Yield(p) => KeepYield(s, p);
    case Sleep(p, n) => KeepSleep(s, p, n);
    case Wake(q, n) => KeepWake(s, q, n);
    case Kill(q) => KeepKill(s, q);
    case ForkAlloc(p, np) => KeepForkAlloc(s, p, np);
    case ForkFail(p) => KeepForkFail(s, p);
    case ForkNoFrame(p) => KeepForkNoFrame(s, p);
    case ForkParent(p) => KeepForkParent(s, p);
    case ForkDone(p) => KeepForkDone(s, p);
    case ExitWake(p) => KeepExitWake(s, p);
    case ExitReadParent(p) => KeepExitRead(s, p);
    case ExitLock(p) => KeepExitLock(s, p);
    case ExitSelf(p) => KeepExitSelf(s, p);
    case ReparentLook(p) => KeepReparentLook(s, p);
    case ReparentGive(p) => KeepReparentGive(s, p);
    case BecomeZombie(p) => KeepExitZombie(s, p);
    case ExitUnlock(p) => KeepExitUnlock(s, p);
    case WaitLock(p) => KeepWaitLock(s, p);
    case WaitLook(p) => KeepWaitLook(s, p);
    case WaitTake(p) => KeepWaitTake(s, p);
    case Reap(p) => KeepReap(s, p);
    case ReapFail(p) => KeepReapFail(s, p);
    case WaitNext(p) => KeepWaitNext(s, p);
    case WaitGiveUp(p) => KeepWaitGiveUp(s, p);
    case WaitSleep(p) => KeepWaitSleep(s, p);
  }

  lemma {:induction false} RunInv(states: seq<State>, i: nat)
    requires Run(states) && i < |states|
    ensures Inv(states[i])
  {
    hide Inv, StepTo;
    if i == 0 {
      BootedInv();
    } else {
      RunInv(states, i - 1);
      assert Next(states[i - 1], states[i]);
      var a :| StepTo(states[i - 1], a, states[i]);
      KeepStep(states[i - 1], a, states[i]);
    }
  }

  lemma ReachableInv(s: State)
    requires Reachable(s)
    ensures Inv(s)
  {
    hide Inv;
    var states :| Run(states) && states[|states| - 1] == s;
    RunInv(states, |states| - 1);
  }

  // c->proc.
  ghost predicate HasProc(u: Cpu, p: nat) { u == Busy(p) || u == Back(p) }

  /** Whenever p->lock is free, p is RUNNING if and only if some CPU has it as its process, and then
      exactly one has. */
  lemma RunningOnOneCpu(s: State, p: nat)
    requires Reachable(s) && Unlocked(s, p)
    ensures s.procs[p].state.Running? <==> exists c :: 0 <= c < |s.cpus| && HasProc(s.cpus[c], p)
    ensures forall c, d ::
              0 <= c < |s.cpus| && 0 <= d < |s.cpus| && HasProc(s.cpus[c], p) && HasProc(s.cpus[d], p) ==> c == d
  {
    ReachableInv(s);
    var x := s.procs[p];
    assert OneOk(x, p);
    if x.on.Some? {
      assert CpuOk(s.cpus[x.on.value], x.on.value, x, p);
      assert HasProc(s.cpus[x.on.value], p);
    }
    forall c | 0 <= c < |s.cpus| && HasProc(s.cpus[c], p)
      ensures x.on == Some(c)
    {
      assert CpuOk(s.cpus[c], c, x, p);
    }
  }

  /** When wait() frees a zombie, no CPU has it as its process any more, not even the scheduler that
      it switched to last; it is a child of the process that waits. */
  lemma ReapAfterLeavingCpu(s: State, p: nat)
    requires Reachable(s) && CanReap(s, p)
    ensures var i := s.procs[p].pc.i;
            s.procs[i].parent == Some(p) && forall c :: 0 <= c < |s.cpus| ==> !HasProc(s.cpus[c], i)
  {
    ReachableInv(s);
    var i := s.procs[p].pc.i;
    assert PairOk(s.procs[p], p, s.procs[i], i) && OneOk(s.procs[i], i);
    forall c | 0 <= c < |s.cpus|
      ensures !HasProc(s.cpus[c], i)
    {
      assert CpuOk(s.cpus[c], c, s.procs[i], i);
    }
  }

  /** No pid is returned by wait() twice. */
  lemma ReapedOnce(s: State)
    requires Reachable(s)
    ensures forall k, l :: 0 <= k < l < |s.reaped| ==> s.reaped[k] != s.reaped[l]
  {
    ReachableInv(s);
  }

  /** Every process but init has a parent, and that parent is neither unused nor a zombie. */
  lemma ParentIsAlive(s: State, q: nat)
    requires Reachable(s) && q < |s.procs| && q != INIT && !s.procs[q].state.Unused?
    ensures var r := s.procs[q].parent;
            r.Some? && r.value < |s.procs| && !s.procs[r.value].state.Unused? && !s.procs[r.value].state.Zombie?
  {
    ReachableInv(s);
    assert OneOk(s.procs[q], q);
    var r := s.procs[q].parent.value;
    assert PairOk(s.procs[r], r, s.procs[q], q) && OneOk(s.procs[r], r);
  }

  // p sleeps in wait().
  ghost predicate SleepsInWait(s: State, p: nat) {
    p < |s.procs| && s.procs[p].state.Sleeping? && s.procs[p].chan == OfProc(p)
  }

  lemma ZombieFacts(x: Proc, p: nat, y: Proc, q: nat)
    requires OneOk(x, p) && OneOk(y, q) && (p != q ==> PairOk(x, p, y, q))
    requires x.state.Sleeping? && x.chan == OfProc(p) && y.parent == Some(p) && y.state.Zombie?
    ensures p == INIT && y.orig != INIT
  {
    assert x.pc == (if x.pc.Switching? then Switching(x.pc.call) else Parked(x.pc.call));
    assert x.pc.call != Never by { assert x.pc == Switching(Never) || x.pc == Parked(Never) ==> Dead(x.pc); }
    assert x.pc.call != FromYield && x.pc.call != Forkret && x.pc.call != FromSleep;
    assert x.pc.call == FromWait;
  }

  /** No process but init sleeps in wait() while it has a zombie child. Init can, but only for a
      zombie that was given to it after its exit() had read another parent. */
  lemma NoMissedZombie(s: State, p: nat, q: nat)
    requires Reachable(s) && SleepsInWait(s, p)
    requires q < |s.procs| && s.procs[q].parent == Some(p) && s.procs[q].state.Zombie?
    ensures p == INIT && s.procs[q].orig != INIT
  {
    hide CpusOk, PidsOk, OneOk, PairOk;
    ReachableInv(s);
    assert OneOk(s.procs[p], p) && OneOk(s.procs[q], q);
    assert p != q ==> PairOk(s.procs[p], p, s.procs[q], q);
    ZombieFacts(s.procs[p], p, s.procs[q], q);
  }

  /** sched() is called with p->lock held and no other process lock, and never in state RUNNING. */
  lemma SchedChecksHold(s: State, p: nat, q: nat)
    requires Reachable(s) && CanSwitch(s, p) && q < |s.procs|
    ensures s.procs[q].lock == Thread(p) <==> q == p
    ensures !s.procs[p].state.Running?
  {
    ReachableInv(s);
    assert OneOk(s.procs[p], p);
    if q != p {
      assert PairOk(s.procs[p], p, s.procs[q], q);
    }
  }

  /** What the scheduler finds RUNNABLE is always a thread that was switched out and can go on: never
      a zombie, so the panic "zombie exit" is not reached. */
  lemma RunnableCanResume(s: State, c: nat)
    requires Reachable(s) && c < |s.cpus| && s.cpus[c].Looking? && s.cpus[c].q < |s.procs|
             && s.procs[s.cpus[c].q].state.Runnable?
    ensures CanDispatch(s, c) && s.procs[s.cpus[c].q].pc != Parked(Never)
  {
    ReachableInv(s);
    var q := s.cpus[c].q;
    assert OneOk(s.procs[q], q) && CpuOk(s.cpus[c], c, s.procs[q], q);
  }

  /** The parent that wait() and reparent() saw without a lock is still the parent when they have
      the lock, and exit() always finds a parent other than the process itself to lock. */
  lemma UnlockedReadsAreStable(s: State, p: nat)
    requires Reachable(s) && Executes(s, p)
    ensures s.procs[p].pc.WaitSeen? || s.procs[p].pc.WaitHold? || s.procs[p].pc.ReparentSeen? ==>
              s.procs[p].pc.i < |s.procs| && s.procs[p].pc.i != p && s.procs[s.procs[p].pc.i].parent == Some(p)
    ensures s.procs[p].pc.ExitWoken? ==> s.procs[p].parent.Some?
    ensures s.procs[p].pc.ExitRead? ==> s.procs[p].orig < |s.procs| && s.procs[p].orig != p
  {
    ReachableInv(s);
    var x := s.procs[p];
    assert OneOk(x, p);
    if x.pc.WaitSeen? || x.pc.WaitHold? || x.pc.ReparentSeen? {
      assert PairOk(x, p, s.procs[x.pc.i], x.pc.i);
    }
  }
}
