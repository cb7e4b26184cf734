/** Processes, CPUs and the per-process locks of kernel/proc.c as a state machine. A step is one
    access to shared state, or one critical section of a single lock; processes and schedulers
    interleave freely. */
module ProcProtocol {
  import opened Wrappers

  const NPROC := 64
  const NCPU := 8
  const INIT := 0 // initproc: the first slot that allocproc finds

  datatype RunState = Unused | Sleeping | Runnable | Running | Zombie

  datatype Chan = NoChan | OfProc(q: nat) | Other(n: nat)

  /** Who holds a spinlock: nobody, the scheduler of a CPU, or the kernel thread of a process. */
  datatype Owner = NoOne | Cpu(c: nat) | Thread(p: nat)

  /** Which call of sched() a process made; Forkret and Never are the start and the end of its life. */
  datatype Call = Forkret | FromYield | FromSleep | FromWait | Never

  /** Where the kernel thread of a process is. */
  datatype Pc =
    | Free                          // no process in this slot
    | Run                           // in user space, or in kernel code that uses no process lock
    | Switching(call: Call)         // in sched(), about to swtch
    | Parked(call: Call)            // switched out
    | Resumed(call: Call)           // switched in again, p->lock held
    | Forking(np: nat, hasParent: bool)
    | ExitWoken                     // exit(), after waking init
    | ExitRead                      // after reading p->parent into original_parent
    | ExitLocked                    // holding original_parent->lock
    | Reparent(i: nat)              // holding both locks, next to look at slot i
    | ReparentSeen(i: nat)          // saw slot i's parent is p, next to acquire its lock
    | ExitZombie                    // holding both locks, p is a zombie
    | WaitScan(i: nat, kids: bool)  // wait(), holding p->lock, next to look at slot i
    | WaitSeen(i: nat, kids: bool)  // saw slot i's parent is p, next to acquire its lock
    | WaitHold(i: nat, kids: bool)  // holding p->lock and the lock of slot i

  /** `orig` is exit()'s local variable original_parent; `on` is the CPU whose c->proc this is and
      that has switched to it. */
  datatype Proc = Proc(state: RunState, parent: Option<nat>, chan: Chan, killed: bool, pid: nat,
                       lock: Owner, pc: Pc, orig: nat, on: Option<nat>)

  /** scheduler(): between processes; holding q's lock before looking at it; switched to q; switched
      back from q, still holding q's lock. c->proc is q in the last two. */
  datatype Cpu = Idle | Looking(q: nat) | Busy(q: nat) | Back(q: nat)

  datatype State = State(procs: seq<Proc>, cpus: seq<Cpu>, nextPid: nat, reaped: seq<nat>)

  const FREE := Proc(Unused, None, NoChan, false, 0, NoOne, Free, 0, None)

  function Put(s: State, p: nat, x: Proc): (s': State)
    requires p < |s.procs|
  {
    s.(procs := s.procs[p := x])
  }

  // p's thread is executing.
  predicate Executes(s: State, p: nat) { p < |s.procs| && s.procs[p].on.Some? }

  predicate At(s: State, p: nat, pc: Pc) { Executes(s, p) && s.procs[p].pc == pc }

  predicate Unlocked(s: State, q: nat) { q < |s.procs| && s.procs[q].lock.NoOne? }

  // wakeup1.
  function Woken(x: Proc, q: nat): (x': Proc) {
    if x.chan == OfProc(q) && x.state.Sleeping? then x.(state := Runnable) else x
  }

  // ---- scheduler ----

  predicate CanLook(s: State, c: nat, q: nat) { c < |s.cpus| && s.cpus[c].Idle? && Unlocked(s, q) }

  function DoLook(s: State, c: nat, q: nat): (s': State)
    requires CanLook(s, c, q)
  {
    Put(s, q, s.procs[q].(lock := Owner.Cpu(c))).(cpus := s.cpus[c := Looking(q)])
  }

  predicate CanDispatch(s: State, c: nat) {
    && c < |s.cpus| && s.cpus[c].Looking? && s.cpus[c].q < |s.procs|
    && s.procs[s.cpus[c].q].state.Runnable? && s.procs[s.cpus[c].q].pc.Parked?
  }

  function DoDispatch(s: State, c: nat): (s': State)
    requires CanDispatch(s, c)
  {
    var q := s.cpus[c].q;
    var x := s.procs[q];
    Put(s, q, x.(state := Running, lock := Thread(q), on := Some(c), pc := Resumed(x.pc.call)))
    .(cpus := s.cpus[c := Busy(q)])
  }

  predicate CanSkip(s: State, c: nat) {
    c < |s.cpus| && s.cpus[c].Looking? && s.cpus[c].q < |s.procs| && !s.procs[s.cpus[c].q].state.Runnable?
  }

  function DoSkip(s: State, c: nat): (s': State)
    requires CanSkip(s, c)
  {
    Put(s, s.cpus[c].q, s.procs[s.cpus[c].q].(lock := NoOne)).(cpus := s.cpus[c := Idle])
  }

  predicate CanBack(s: State, c: nat) { c < |s.cpus| && s.cpus[c].Back? && s.cpus[c].q < |s.procs| }

  function DoBack(s: State, c: nat): (s': State)
    requires CanBack(s, c)
  {
    Put(s, s.cpus[c].q, s.procs[s.cpus[c].q].(lock := NoOne)).(cpus := s.cpus[c := Idle])
  }

  // ---- sched, yield, sleep ----

  // swtch to the scheduler, which goes on to hold p's lock.
  predicate CanSwitch(s: State, p: nat) { Executes(s, p) && s.procs[p].pc.Switching? && s.procs[p].on.value < |s.cpus| }

  function DoSwitch(s: State, p: nat): (s': State)
    requires CanSwitch(s, p)
  {
    var x := s.procs[p];
    Put(s, p, x.(lock := Owner.Cpu(x.on.value), on := None, pc := Parked(x.pc.call)))
    .(cpus := s.cpus[x.on.value := Back(p)])
  }

  predicate CanResume(s: State, p: nat) { Executes(s, p) && s.procs[p].pc.Resumed? }

  function DoResume(s: State, p: nat): (s': State)
    requires CanResume(s, p)
  {
    var x := s.procs[p];
    match x.pc.call
    case FromWait => Put(s, p, x.(chan := NoChan, pc := WaitScan(0, false)))
    case FromSleep => Put(s, p, x.(chan := NoChan, lock := NoOne, pc := Run))
    case _ => Put(s, p, x.(lock := NoOne, pc := Run))
  }

  predicate CanYield(s: State, p: nat) { At(s, p, Run) && Unlocked(s, p) }

  function DoYield(s: State, p: nat): (s': State)
    requires CanYield(s, p)
  {
    Put(s, p, s.procs[p].(lock := Thread(p), state := Runnable, pc := Switching(FromYield)))
  }

  function DoSleep(s: State, p: nat, n: nat): (s': State)
    requires CanYield(s, p)
  {
    Put(s, p, s.procs[p].(lock := Thread(p), state := Sleeping, chan := Other(n), pc := Switching(FromSleep)))
  }

  // One slot's turn in wakeup(chan), or in kill.
  predicate CanWake(s: State, q: nat, n: nat) {
    Unlocked(s, q) && s.procs[q].state.Sleeping? && s.procs[q].chan == Other(n)
  }

  function DoWake(s: State, q: nat): (s': State)
    requires q < |s.procs|
  {
    Put(s, q, s.procs[q].(state := Runnable))
  }

  function DoKill(s: State, q: nat): (s': State)
    requires Unlocked(s, q)
  {
    var x := s.procs[q].(killed := true);
    Put(s, q, if x.state.Sleeping? then x.(state := Runnable) else x)
  }

  // ---- fork ----

  predicate CanForkAlloc(s: State, p: nat, np: nat) {
    At(s, p, Run) && Unlocked(s, np) && s.procs[np].state.Unused? && np != p
  }

  function DoForkAlloc(s: State, p: nat, np: nat): (s': State)
    requires CanForkAlloc(s, p, np)
  {
    var s1 := Put(s, p, s.procs[p].(pc := Forking(np, false)));
    Put(s1, np, s.procs[np].(lock := Thread(p), pid := s.nextPid)).(nextPid := s.nextPid + 1)
  }

  // Out of memory: freeproc, and the slot is free again.
  predicate CanForkFail(s: State, p: nat) {
    Executes(s, p) && s.procs[p].pc.Forking? && !s.procs[p].pc.hasParent && s.procs[p].pc.np < |s.procs|
      && s.procs[p].pc.np != p
  }

  function DoForkFail(s: State, p: nat): (s': State)
    requires CanForkFail(s, p)
  {
    Put(Put(s, p, s.procs[p].(pc := Run)), s.procs[p].pc.np, FREE)
  }

  // No page for the trapframe: allocproc gives the slot back but leaves the pid in it.
  function DoForkNoFrame(s: State, p: nat): (s': State)
    requires CanForkFail(s, p)
  {
    var np := s.procs[p].pc.np;
    Put(Put(s, p, s.procs[p].(pc := Run)), np, s.procs[np].(lock := NoOne))
  }

  function DoForkParent(s: State, p: nat): (s': State)
    requires CanForkFail(s, p)
  {
    var np := s.procs[p].pc.np;
    Put(Put(s, p, s.procs[p].(pc := Forking(np, true))), np, s.procs[np].(parent := Some(p)))
  }

  predicate CanForkDone(s: State, p: nat) {
    Executes(s, p) && s.procs[p].pc.Forking? && s.procs[p].pc.hasParent && s.procs[p].pc.np < |s.procs|
      && s.procs[p].pc.np != p
  }

  function DoForkDone(s: State, p: nat): (s': State)
    requires CanForkDone(s, p)
  {
    var np := s.procs[p].pc.np;
    Put(Put(s, p, s.procs[p].(pc := Run)), np, s.procs[np].(state := Runnable, lock := NoOne, pc := Parked(Forkret)))
  }

  // ---- exit and reparent ----

  predicate CanExitWake(s: State, p: nat) { At(s, p, Run) && p != INIT && Unlocked(s, INIT) }

  function DoExitWake(s: State, p: nat): (s': State)
    requires CanExitWake(s, p)
  {
    Put(Put(s, p, s.procs[p].(pc := ExitWoken)), INIT, Woken(s.procs[INIT], INIT))
  }

  predicate CanExitRead(s: State, p: nat) { At(s, p, ExitWoken) && Unlocked(s, p) && s.procs[p].parent.Some? }

  function DoExitRead(s: State, p: nat): (s': State)
    requires CanExitRead(s, p)
  {
    Put(s, p, s.procs[p].(orig := s.procs[p].parent.value, pc := ExitRead))
  }

  predicate CanExitLock(s: State, p: nat) { At(s, p, ExitRead) && s.procs[p].orig != p && Unlocked(s, s.procs[p].orig) }

  function DoExitLock(s: State, p: nat): (s': State)
    requires CanExitLock(s, p)
  {
    var op := s.procs[p].orig;
    Put(Put(s, p, s.procs[p].(pc := ExitLocked)), op, s.procs[op].(lock := Thread(p)))
  }

  predicate CanExitSelf(s: State, p: nat) { At(s, p, ExitLocked) && Unlocked(s, p) }

  function DoExitSelf(s: State, p: nat): (s': State)
    requires CanExitSelf(s, p)
  {
    Put(s, p, s.procs[p].(lock := Thread(p), pc := Reparent(0)))
  }

  predicate CanReparentLook(s: State, p: nat) {
    Executes(s, p) && s.procs[p].pc.Reparent? && s.procs[p].pc.i < |s.procs|
  }

  function DoReparentLook(s: State, p: nat): (s': State)
    requires CanReparentLook(s, p)
  {
    var i := s.procs[p].pc.i;
    Put(s, p, s.procs[p].(pc := if s.procs[i].parent == Some(p) then ReparentSeen(i) else Reparent(i + 1)))
  }

  predicate CanReparentGive(s: State, p: nat) {
    Executes(s, p) && s.procs[p].pc.ReparentSeen? && s.procs[p].pc.i != p && Unlocked(s, s.procs[p].pc.i)
  }

  function DoReparentGive(s: State, p: nat): (s': State)
    requires CanReparentGive(s, p)
  {
    var i := s.procs[p].pc.i;
    Put(Put(s, p, s.procs[p].(pc := Reparent(i + 1))), i, s.procs[i].(parent := Some(INIT)))
  }

  // wakeup1(original_parent), and p becomes a zombie.
  predicate CanExitZombie(s: State, p: nat) {
    Executes(s, p) && s.procs[p].pc == Reparent(|s.procs|) && s.procs[p].orig < |s.procs| && s.procs[p].orig != p
  }

  function DoExitZombie(s: State, p: nat): (s': State)
    requires CanExitZombie(s, p)
  {
    var op := s.procs[p].orig;
    Put(Put(s, p, s.procs[p].(state := Zombie, pc := ExitZombie)), op, Woken(s.procs[op], op))
  }

  predicate CanExitUnlock(s: State, p: nat) {
    At(s, p, ExitZombie) && s.procs[p].orig < |s.procs| && s.procs[p].orig != p
  }

  function DoExitUnlock(s: State, p: nat): (s': State)
    requires CanExitUnlock(s, p)
  {
    var op := s.procs[p].orig;
    Put(Put(s, p, s.procs[p].(pc := Switching(Never))), op, s.procs[op].(lock := NoOne))
  }

  // ---- wait ----

  function DoWaitLock(s: State, p: nat): (s': State)
    requires CanYield(s, p)
  {
    Put(s, p, s.procs[p].(lock := Thread(p), pc := WaitScan(0, false)))
  }

  predicate CanWaitLook(s: State, p: nat) { Executes(s, p) && s.procs[p].pc.WaitScan? && s.procs[p].pc.i < |s.procs| }

  function DoWaitLook(s: State, p: nat): (s': State)
    requires CanWaitLook(s, p)
  {
    var pc := s.procs[p].pc;
    Put(s, p, s.procs[p].(pc := if s.procs[pc.i].parent == Some(p) then WaitSeen(pc.i, pc.kids)
      else WaitScan(pc.i + 1, pc.kids)))
  }

  predicate CanWaitTake(s: State, p: nat) {
    Executes(s, p) && s.procs[p].pc.WaitSeen? && s.procs[p].pc.i != p && Unlocked(s, s.procs[p].pc.i)
  }

  function DoWaitTake(s: State, p: nat): (s': State)
    requires CanWaitTake(s, p)
  {
    var pc := s.procs[p].pc;
    Put(Put(s, p, s.procs[p].(pc := WaitHold(pc.i, pc.kids))), pc.i, s.procs[pc.i].(lock := Thread(p)))
  }

  predicate CanWaitHeld(s: State, p: nat) {
    Executes(s, p) && s.procs[p].pc.WaitHold? && s.procs[p].pc.i < |s.procs| && s.procs[p].pc.i != p
  }

  // The child is a zombie: freeproc, both locks released, and wait returns its pid.
  predicate CanReap(s: State, p: nat) { CanWaitHeld(s, p) && s.procs[s.procs[p].pc.i].state.Zombie? }

  function DoReap(s: State, p: nat): (s': State)
    requires CanReap(s, p)
  {
    var i := s.procs[p].pc.i;
    Put(Put(s, p, s.procs[p].(pc := Run, lock := NoOne)), i, FREE).(reaped := s.reaped + [s.procs[i].pid])
  }

  // The child is a zombie but copyout failed: wait returns -1 and leaves it.
  function DoReapFail(s: State, p: nat): (s': State)
    requires CanReap(s, p)
  {
    var i := s.procs[p].pc.i;
    Put(Put(s, p, s.procs[p].(pc := Run, lock := NoOne)), i, s.procs[i].(lock := NoOne))
  }

  predicate CanWaitNext(s: State, p: nat) { CanWaitHeld(s, p) && !s.procs[s.procs[p].pc.i].state.Zombie? }

  function DoWaitNext(s: State, p: nat): (s': State)
    requires CanWaitNext(s, p)
  {
    var i := s.procs[p].pc.i;
    Put(Put(s, p, s.procs[p].(pc := WaitScan(i + 1, true))), i, s.procs[i].(lock := NoOne))
  }

  // The scan is over: return -1 without children or when killed, otherwise sleep on p itself.
  predicate CanWaitGiveUp(s: State, p: nat) {
    Executes(s, p) && s.procs[p].pc.WaitScan? && s.procs[p].pc.i == |s.procs|
      && (!s.procs[p].pc.kids || s.procs[p].killed)
  }

  function DoWaitGiveUp(s: State, p: nat): (s': State)
    requires CanWaitGiveUp(s, p)
  {
    Put(s, p, s.procs[p].(lock := NoOne, pc := Run))
  }

  predicate CanWaitSleep(s: State, p: nat) {
    Executes(s, p) && s.procs[p].pc.WaitScan? && s.procs[p].pc.i == |s.procs| && s.procs[p].pc.kids
      && !s.procs[p].killed
  }

  function DoWaitSleep(s: State, p: nat): (s': State)
    requires CanWaitSleep(s, p)
  {
    Put(s, p, s.procs[p].(chan := OfProc(p), state := Sleeping, pc := Switching(FromWait)))
  }
}
