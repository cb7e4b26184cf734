/** The wakeup that init can miss (kernel/proc.c:350-361): a run in which init stays asleep in wait()
    although it has a zombie child. Init forks process 1, that forks 2, and that forks 3. */
module ProcMissed {
  import opened Wrappers
  import opened ProcProtocol
  import opened ProcTheorems

  lemma Then(s: State, a: Step, s': State)
    requires Reachable(s) && StepTo(s, a, s')
    ensures Reachable(s')
  {
    hide StepTo, Booted;
    var states :| ProcTheorems.Run(states) && states[|states| - 1] == s;
    var more := states + [s'];
    forall i | 0 < i < |more|
      ensures Next(more[i - 1], more[i])
    {
      assert i < |states| ==> Next(states[i - 1], states[i]);
    }
    assert ProcTheorems.Run(more) && more[|more| - 1] == s';
  }

  // CPU k takes up the new process in slot k.
  predicate CanStart(s: State, k: nat) {
    && k < |s.procs| && k < |s.cpus| && s.cpus[k].Idle?
    && s.procs[k].state.Runnable? && s.procs[k].pc == Parked(Forkret) && s.procs[k].lock.NoOne?
  }

  function Started(s: State, k: nat): (s': State)
    requires CanStart(s, k)
  {
    Put(s, k, s.procs[k].(state := Running, pc := Pc.Run, on := Some(k))).(cpus := s.cpus[k := Busy(k)])
  }

  lemma Start(s: State, k: nat)
    requires Reachable(s) && CanStart(s, k)
    ensures Reachable(Started(s, k))
  {
    hide Reachable, Booted;
    var s1 := DoLook(s, k, k);
    Then(s, Look(k, k), s1);
    var s2 := DoDispatch(s1, k);
    Then(s1, Dispatch(k), s2);
    assert DoResume(s2, k) == Started(s, k) by {
      assert DoResume(s2, k).procs == Started(s, k).procs;
      assert DoResume(s2, k).cpus == Started(s, k).cpus;
    }
    Then(s2, Step.Resume(k), Started(s, k));
  }

  predicate CanFork(s: State, p: nat, np: nat) { At(s, p, Pc.Run) && p != np < |s.procs| && s.procs[np] == FREE }

  function Forked(s: State, p: nat, np: nat): (s': State)
    requires CanFork(s, p, np)
  {
    Put(s, np, FREE.(state := Runnable, parent := Some(p), pid := s.nextPid, pc := Parked(Forkret))).(nextPid :=
      s.nextPid + 1)
  }

  lemma Fork(s: State, p: nat, np: nat)
    requires Reachable(s) && CanFork(s, p, np)
    ensures Reachable(Forked(s, p, np))
  {
    hide Reachable, Booted;
    var s1 := DoForkAlloc(s, p, np);
    Then(s, ForkAlloc(p, np), s1);
    var s2 := DoForkParent(s1, p);
    Then(s1, ForkParent(p), s2);
    assert DoForkDone(s2, p) == Forked(s, p, np) by {
      assert DoForkDone(s2, p).procs == Forked(s, p, np).procs;
    }
    Then(s2, ForkDone(p), Forked(s, p, np));
  }

  // p's thread goes on at pc.
  function Goes(s: State, p: nat, pc: Pc): (s': State)
    requires p < |s.procs|
  {
    Put(s, p, s.procs[p].(pc := pc))
  }

  ghost predicate NoChild(s: State, p: nat, i: nat, j: nat) {
    forall k :: i <= k < j && k < |s.procs| ==> s.procs[k].parent != Some(p)
  }

  // reparent() passes over slots without a child of p.
  lemma {:induction false} PassReparent(s: State, p: nat, i: nat, j: nat)
    requires Executes(s, p) && Reachable(Goes(s, p, Reparent(i))) && i <= j <= |s.procs| && NoChild(s, p, i, j)
    ensures Reachable(Goes(s, p, Reparent(j)))
    decreases j - i
  {
    hide Reachable, Booted;
    if i < j {
      var t := Goes(s, p, Reparent(i));
      assert t.procs[i].parent == s.procs[i].parent;
      assert DoReparentLook(t, p) == Goes(s, p, Reparent(i + 1)) by {
        assert DoReparentLook(t, p).procs == Goes(s, p, Reparent(i + 1)).procs;
      }
      Then(t, ReparentLook(p), Goes(s, p, Reparent(i + 1)));
      PassReparent(s, p, i + 1, j);
    }
  }

  // wait() passes over slots without a child of p.
  lemma {:induction false} PassWait(s: State, p: nat, i: nat, j: nat, kids: bool)
    requires Executes(s, p) && Reachable(Goes(s, p, WaitScan(i, kids))) && i <= j <= |s.procs| && NoChild(s, p, i, j)
    ensures Reachable(Goes(s, p, WaitScan(j, kids)))
    decreases j - i
  {
    hide Reachable, Booted;
    if i < j {
      var t := Goes(s, p, WaitScan(i, kids));
      assert t.procs[i].parent == s.procs[i].parent;
      assert DoWaitLook(t, p) == Goes(s, p, WaitScan(i + 1, kids)) by {
        assert DoWaitLook(t, p).procs == Goes(s, p, WaitScan(i + 1, kids)).procs;
      }
      Then(t, WaitLook(p), Goes(s, p, WaitScan(i + 1, kids)));
      PassWait(s, p, i + 1, j, kids);
    }
  }

  // p, in sched() on CPU p, gives the CPU up.
  function Left(s: State, p: nat): (s': State)
    requires p < |s.procs| && p < |s.cpus| && s.procs[p].pc.Switching?
  {
    Put(s, p, s.procs[p].(lock := NoOne, on := None, pc := Parked(s.procs[p].pc.call))).(cpus := s.cpus[p := Idle])
  }

  lemma Leave(s: State, p: nat)
    requires Reachable(s) && p < |s.procs| && p < |s.cpus| && s.procs[p].pc.Switching? && s.procs[p].on == Some(p)
    ensures Reachable(Left(s, p))
  {
    hide Reachable, Booted;
    var s1 := DoSwitch(s, p);
    Then(s, Switch(p), s1);
    assert DoBack(s1, p) == Left(s, p) by {
      assert DoBack(s1, p).procs == Left(s, p).procs;
      assert DoBack(s1, p).cpus == Left(s, p).cpus;
    }
    Then(s1, BackInScheduler(p), Left(s, p));
  }

  // p, on CPU p, starts exit() and has read its parent.
  function Exiting(s: State, p: nat, par: nat): (s': State)
    requires p < |s.procs|
  {
    Put(s, p, s.procs[p].(orig := par, pc := ExitRead))
  }

  lemma BeginExit(s: State, p: nat, par: nat)
    requires Reachable(s) && At(s, p, Pc.Run) && p != INIT && Unlocked(s, p) && Unlocked(s, INIT)
             && s.procs[p].parent == Some(par)
    requires !s.procs[INIT].state.Sleeping?
    ensures Reachable(Exiting(s, p, par))
  {
    hide Reachable, Booted;
    var s1 := DoExitWake(s, p);
    Then(s, ExitWake(p), s1);
    assert DoExitRead(s1, p) == Exiting(s, p, par) by {
      assert DoExitRead(s1, p).procs == Exiting(s, p, par).procs;
    }
    Then(s1, ExitReadParent(p), Exiting(s, p, par));
  }

  // p, past reading its parent, holds both locks and is about to look at slot i.
  function Holding(s: State, p: nat, par: nat, i: nat): (s': State)
    requires p < |s.procs| && par < |s.procs|
  {
    Put(Put(s, par, s.procs[par].(lock := Thread(p))), p, s.procs[p].(lock := Thread(p), pc := Reparent(i)))
  }

  lemma HoldBoth(s: State, p: nat, par: nat)
    requires Reachable(s) && At(s, p, ExitRead) && Unlocked(s, p) && Unlocked(s, par) && p != par
             && s.procs[p].orig == par
    ensures Reachable(Holding(s, p, par, 0))
  {
    hide Reachable, Booted;
    var s1 := DoExitLock(s, p);
    Then(s, ExitLock(p), s1);
    assert DoExitSelf(s1, p) == Holding(s, p, par, 0) by {
      assert DoExitSelf(s1, p).procs == Holding(s, p, par, 0).procs;
    }
    Then(s1, ExitSelf(p), Holding(s, p, par, 0));
  }

  // p has become a zombie and given up its CPU.
  function Exited(s: State, p: nat): (s': State)
    requires p < |s.procs| && p < |s.cpus|
  {
    Put(s, p, s.procs[p].(state := Zombie, lock := NoOne, on := None, pc := Parked(Never))).(cpus := s.cpus[p := Idle])
  }

  lemma EndExit(s: State, p: nat, par: nat)
    requires p < |s.procs| && par < |s.procs| && p != par && Reachable(Holding(s, p, par, |s.procs|))
    requires s.procs[p].on == Some(p) && p < |s.cpus| && s.procs[p].orig == par && Unlocked(s, par)
             && !s.procs[par].state.Sleeping?
    ensures Reachable(Exited(s, p))
  {
    hide Reachable, Booted;
    var s1 := Holding(s, p, par, |s.procs|);
    var s2 := DoExitZombie(s1, p);
    Then(s1, BecomeZombie(p), s2);
    var s3 := DoExitUnlock(s2, p);
    Then(s2, ExitUnlock(p), s3);
    Leave(s3, p);
    assert Left(s3, p) == Exited(s, p) by {
      assert Left(s3, p).procs == Exited(s, p).procs;
      assert Left(s3, p).cpus == Exited(s, p).cpus;
    }
  }

  // The whole exit() of a process without children, whose parent is par.
  lemma Exit(s: State, p: nat, par: nat)
    requires Reachable(s) && At(s, p, ExitRead) && s.procs[p].on == Some(p) && p < |s.cpus| && Unlocked(s, p)
             && Unlocked(s, par) && p != par
    requires s.procs[p].orig == par && !s.procs[par].state.Sleeping? && NoChild(s, p, 0, |s.procs|)
    ensures Reachable(Exited(s, p))
  {
    hide Reachable, Booted;
    HoldBoth(s, p, par);
    var t := Holding(s, p, par, 0);
    assert Goes(t, p, Reparent(0)) == t by { assert Goes(t, p, Reparent(0)).procs == t.procs; }
    PassReparent(t, p, 0, |s.procs|);
    assert Goes(t, p, Reparent(|s.procs|)) == Holding(s, p, par, |s.procs|) by {
      assert Goes(t, p, Reparent(|s.procs|)).procs == Holding(s, p, par, |s.procs|).procs;
    }
    EndExit(s, p, par);
  }

  // reparent() gives q, a child of p, to init.
  lemma GiveAway(t: State, p: nat, q: nat)
    requires Executes(t, p) && Unlocked(t, q) && q != p && t.procs[q].parent == Some(p)
             && Reachable(Goes(t, p, Reparent(q)))
    ensures Reachable(Goes(Put(t, q, t.procs[q].(parent := Some(INIT))), p, Reparent(q + 1)))
  {
    hide Reachable, Booted;
    var t1, t2 := Goes(t, p, Reparent(q)), Goes(t, p, ReparentSeen(q));
    assert DoReparentLook(t1, p) == t2 by { assert DoReparentLook(t1, p).procs == t2.procs; }
    Then(t1, ReparentLook(p), t2);
    var t3 := Goes(Put(t, q, t.procs[q].(parent := Some(INIT))), p, Reparent(q + 1));
    assert DoReparentGive(t2, p) == t3 by { assert DoReparentGive(t2, p).procs == t3.procs; }
    Then(t2, ReparentGive(p), t3);
  }

  // exit() of a process whose one child is q: q is init's child then.
  lemma ExitGiving(s: State, p: nat, par: nat, q: nat)
    requires Reachable(s) && At(s, p, ExitRead) && s.procs[p].on == Some(p) && p < |s.cpus| && Unlocked(s, p)
             && Unlocked(s, par) && p != par
    requires s.procs[p].orig == par && !s.procs[par].state.Sleeping? && Unlocked(s, q) && q != p && q != par
    requires s.procs[q].parent == Some(p) && NoChild(s, p, 0, q) && NoChild(s, p, q + 1, |s.procs|)
    ensures Reachable(Exited(Put(s, q, s.procs[q].(parent := Some(INIT))), p))
  {
    hide Reachable, Booted;
    HoldBoth(s, p, par);
    var t := Holding(s, p, par, 0);
    assert Goes(t, p, Reparent(0)) == t by { assert Goes(t, p, Reparent(0)).procs == t.procs; }
    PassReparent(t, p, 0, q);
    GiveAway(t, p, q);
    var t3 := Goes(Put(t, q, t.procs[q].(parent := Some(INIT))), p, Reparent(q + 1));
    var s' := Put(s, q, s.procs[q].(parent := Some(INIT)));
    assert Goes(t3, p, Reparent(q + 1)) == t3 by { assert Goes(t3, p, Reparent(q + 1)).procs == t3.procs; }
    PassReparent(t3, p, q + 1, |s.procs|);
    assert Goes(t3, p, Reparent(|s.procs|)) == Holding(s', p, par, |s.procs|) by {
      assert Goes(t3, p, Reparent(|s.procs|)).procs == Holding(s', p, par, |s.procs|).procs;
    }
    EndExit(s', p, par);
  }

  // p, on CPU p, sleeps in wait() since its one child q is not a zombie.
  function Waiting(s: State, p: nat): (s': State)
    requires p < |s.procs| && p < |s.cpus|
  {
    Put(s, p, s.procs[p].(state := Sleeping, chan := OfProc(p), lock := NoOne, on := None,
      pc := Parked(FromWait))).(cpus := s.cpus[p := Idle])
  }

  lemma Wait(s: State, p: nat, q: nat)
    requires Reachable(s) && At(s, p, Pc.Run) && s.procs[p].on == Some(p) && p < |s.cpus| && Unlocked(s, p)
             && !s.procs[p].killed
    requires Unlocked(s, q) && q != p && s.procs[q].parent == Some(p) && !s.procs[q].state.Zombie?
    requires NoChild(s, p, 0, q) && NoChild(s, p, q + 1, |s.procs|)
    ensures Reachable(Waiting(s, p))
  {
    hide Reachable, Booted;
    var t := DoWaitLock(s, p);
    Then(s, WaitLock(p), t);
    assert Goes(t, p, WaitScan(0, false)) == t by { assert Goes(t, p, WaitScan(0, false)).procs == t.procs; }
    PassWait(t, p, 0, q, false);
    WaitPasses(t, p, q);
    PassWait(t, p, q + 1, |s.procs|, true);
    WaitEnds(s, t, p);
  }

  // wait() finds that q, a child of p, is not a zombie.
  lemma WaitPasses(t: State, p: nat, q: nat)
    requires Executes(t, p) && Reachable(Goes(t, p, WaitScan(q, false)))
    requires Unlocked(t, q) && q != p && t.procs[q].parent == Some(p) && !t.procs[q].state.Zombie?
    ensures Reachable(Goes(t, p, WaitScan(q + 1, true)))
  {
    hide Reachable, Booted;
    var t1, t2 := Goes(t, p, WaitScan(q, false)), Goes(t, p, WaitSeen(q, false));
    assert DoWaitLook(t1, p) == t2 by { assert DoWaitLook(t1, p).procs == t2.procs; }
    Then(t1, WaitLook(p), t2);
    WaitHolds(t, p, q);
  }

  lemma WaitHolds(t: State, p: nat, q: nat)
    requires Executes(t, p) && Reachable(Goes(t, p, WaitSeen(q, false)))
    requires Unlocked(t, q) && q != p && !t.procs[q].state.Zombie?
    ensures Reachable(Goes(t, p, WaitScan(q + 1, true)))
  {
    hide Reachable, Booted;
    var t2 := Goes(t, p, WaitSeen(q, false));
    var t3 := DoWaitTake(t2, p);
    Then(t2, WaitTake(p), t3);
    assert DoWaitNext(t3, p) == Goes(t, p, WaitScan(q + 1, true)) by {
      assert DoWaitNext(t3, p).procs == Goes(t, p, WaitScan(q + 1, true)).procs;
    }
    Then(t3, WaitNext(p), Goes(t, p, WaitScan(q + 1, true)));
  }

  lemma WaitEnds(s: State, t: State, p: nat)
    requires p < |s.procs| && t == Put(s, p, s.procs[p].(lock := Thread(p), pc := WaitScan(0, false)))
    requires s.procs[p].on == Some(p) && p < |s.cpus| && !s.procs[p].killed
             && Reachable(Goes(t, p, WaitScan(|s.procs|, true)))
    ensures Reachable(Waiting(s, p))
  {
    hide Reachable, Booted;
    var t4 := Goes(t, p, WaitScan(|s.procs|, true));
    var t5 := DoWaitSleep(t4, p);
    Then(t4, WaitSleep(p), t5);
    Leave(t5, p);
    assert Left(t5, p) == Waiting(s, p) by {
      assert Left(t5, p).procs == Waiting(s, p).procs;
      assert Left(t5, p).cpus == Waiting(s, p).cpus;
    }
  }

  // Processes 0 to n - 1 run, each on the CPU of the same number and forked by the one before it.
  ghost predicate Chain(s: State, n: nat) {
    && |s.procs| == NPROC && |s.cpus| == NCPU
    && (forall k :: 0 <= k < n && k < NPROC ==> IsRunning(s.procs[k], k))
    && (forall k :: n <= k < NPROC ==> s.procs[k] == FREE)
    && (forall k :: n <= k < NCPU ==> s.cpus[k].Idle?)
  }

  predicate IsRunning(x: Proc, k: nat) {
    && x.state.Running? && x.pc == Pc.Run && x.lock.NoOne? && !x.killed && x.on == Some(k)
    && x.parent == if k == 0 then None else Some(k - 1)
  }

  lemma {:induction false} Chains(n: nat) returns (s: State)
    requires 0 < n <= NCPU
    ensures Reachable(s) && Chain(s, n)
  {
    if n == 1 {
      var b := Booted();
      assert Reachable(b) by { assert ProcTheorems.Run([b]); }
      hide Reachable;
      Start(b, 0);
      s := Started(b, 0);
    } else {
      hide Reachable, Booted;
      var r := Chains(n - 1);
      assert IsRunning(r.procs[n - 2], n - 2);
      Fork(r, n - 2, n - 1);
      var f := Forked(r, n - 2, n - 1);
      Start(f, n - 1);
      s := Started(f, n - 1);
    }
  }

  /** Init can sleep in wait() with a zombie child: 3 exits; 2, in exit(), wakes init, which is not
      asleep yet; init scans, finds only its child 1 and goes to sleep; 2 then gives it the zombie 3.
      Nobody is left inside exit() to wake init; 1, its other child, is in user space. */
  lemma InitMissesZombie() returns (s: State)
    ensures Reachable(s) && SleepsInWait(s, INIT) && |s.procs| == NPROC && s.procs[3].parent == Some(INIT)
            && s.procs[3].state.Zombie?
    ensures forall p :: 0 <= p < |s.procs| && Executes(s, p) ==> At(s, p, Pc.Run)
  {
    s := Chains(4);
    hide Reachable, Booted;
    assert forall k :: 0 <= k < 4 ==> IsRunning(s.procs[k], k);
    BeginExit(s, 3, 2);
    s := Exiting(s, 3, 2);
    Exit(s, 3, 2);
    s := Exited(s, 3);
    BeginExit(s, 2, 1);
    s := Exiting(s, 2, 1);
    Wait(s, 0, 1);
    s := Waiting(s, 0);
    ExitGiving(s, 2, 1, 3);
    s := Exited(Put(s, 3, s.procs[3].(parent := Some(INIT))), 2);
  }
}
