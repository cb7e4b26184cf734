/** Sleep locks (kernel/sleeplock.c) over sleep and wakeup (kernel/proc.c), one step for each acquire and
    release of a spinlock, for any number of processes in any interleaving. */
module SleepLock {
  import opened Wrappers

  /** Where a process is. `inner` is the sleep lock's spinlock, `own` the process's p->lock.
      Out, Want, Check: not concerned; about to acquire inner; testing lk->locked with inner held.
      WantOwn, Both, Doze: in sleep(): about to acquire own; own and inner held; inner released.
      Switching, Asleep, Back: SLEEPING with own held by sched; off the CPU; on the CPU with own held.
      Held, WantRel, Clear: has the sleep lock; about to acquire inner to release it; inner held.
      Scan(k), Look(k), Leave: in wakeup() before process k; with k's p->lock held; about to release inner. */
  datatype Pc = Out | Want | Check | WantOwn | Both | Doze | Switching | Asleep | Back | Held | WantRel | Clear
              | Scan(k: nat) | Look(k: nat) | Leave

  // Who holds a process's p->lock: a process, or code that is not modelled, such as kill().
  datatype Holder = Nobody | By(i: nat) | Other

  /** asleep[i]: process i is SLEEPING with chan the sleep lock. */
  datatype State = State(locked: bool, pid: nat, inner: Option<nat>, own: seq<Holder>, asleep: seq<bool>, pcs: seq<Pc>)

  datatype Step = Begin(i: nat) | GetInner(i: nat) | Test(i: nat) | GetOwn(i: nat) | DropInner(i: nat)
                | FallAsleep(i: nat) | SwitchOut(i: nat) | SwitchIn(i: nat) | Resume(i: nat) | Release(i: nat)
                | GetInnerRel(i: nat) | Unlock(i: nat) | GetOther(i: nat) | WakeOne(i: nat) | Finish(i: nat)
                | Grab(i: nat) | Kill(i: nat)

  ghost predicate Shape(s: State) { |s.own| == |s.asleep| == |s.pcs| }

  ghost predicate Enabled(s: State, t: Step)
    requires Shape(s)
  {
    && t.i < |s.pcs|
    && match t
       case Begin(i) => s.pcs[i] == Out
       case GetInner(i) => s.pcs[i] == Want && s.inner.None?
       case Test(i) => s.pcs[i] == Check
       case GetOwn(i) => s.pcs[i] == WantOwn && s.own[i] == Nobody
       case DropInner(i) => s.pcs[i] == Both
       case FallAsleep(i) => s.pcs[i] == Doze
       case SwitchOut(i) => s.pcs[i] == Switching
       case SwitchIn(i) => s.pcs[i] == Asleep && !s.asleep[i] && s.own[i] == Nobody
       case Resume(i) => s.pcs[i] == Back
       case Release(i) => s.pcs[i] == Held
       case GetInnerRel(i) => s.pcs[i] == WantRel && s.inner.None?
       case Unlock(i) => s.pcs[i] == Clear
       case GetOther(i) => s.pcs[i].Scan? && s.pcs[i].k < |s.pcs| && s.own[s.pcs[i].k] == Nobody
       case WakeOne(i) => s.pcs[i].Look? && s.pcs[i].k < |s.pcs|
       case Finish(i) => (s.pcs[i].Scan? && s.pcs[i].k >= |s.pcs|) || s.pcs[i] == Leave
       case Grab(i) => s.own[i] == Nobody
       case Kill(i) => s.own[i] == Other
  }

  ghost function Apply(s: State, t: Step): (s': State)
    requires Shape(s) && Enabled(s, t)
    ensures Shape(s') && |s'.pcs| == |s.pcs|
  {
    match t
    case Begin(i) => s.(pcs := s.pcs[i := Want])
    case GetInner(i) => s.(inner := Some(i), pcs := s.pcs[i := Check])
    case Test(i) =>
      if s.locked then s.(pcs := s.pcs[i := WantOwn])
      else s.(locked := true, pid := i, inner := None, pcs := s.pcs[i := Held])
    case GetOwn(i) => s.(own := s.own[i := By(i)], pcs := s.pcs[i := Both])
    case DropInner(i) => s.(inner := None, pcs := s.pcs[i := Doze])
    case FallAsleep(i) => s.(asleep := s.asleep[i := true], pcs := s.pcs[i := Switching])
    case SwitchOut(i) => s.(own := s.own[i := Nobody], pcs := s.pcs[i := Asleep])
    case SwitchIn(i) => s.(own := s.own[i := By(i)], pcs := s.pcs[i := Back])
    case Resume(i) => s.(own := s.own[i := Nobody], pcs := s.pcs[i := Want])
    case Release(i) => s.(pcs := s.pcs[i := WantRel])
    case GetInnerRel(i) => s.(inner := Some(i), pcs := s.pcs[i := Clear])
    case Unlock(i) => s.(locked := false, pid := 0, pcs := s.pcs[i := Scan(0)])
    case GetOther(i) => s.(own := s.own[s.pcs[i].k := By(i)], pcs := s.pcs[i := Look(s.pcs[i].k)])
    case WakeOne(i) =>
      s.(asleep := s.asleep[s.pcs[i].k := false], own := s.own[s.pcs[i].k := Nobody],
        pcs := s.pcs[i := Scan(s.pcs[i].k + 1)])
    case Finish(i) => if s.pcs[i] == Leave then s.(inner := None, pcs := s.pcs[i := Out])
      else s.(pcs := s.pcs[i := Leave])
    case Grab(i) => s.(own := s.own[i := Other])
    case Kill(i) => s.(asleep := s.asleep[i := false], own := s.own[i := Nobody])
  }

  // ---- The invariant ----

  predicate HasInner(c: Pc) { c.Check? || c.WantOwn? || c.Both? || c.Clear? || c.Scan? || c.Look? || c.Leave? }

  predicate HasOwn(c: Pc) { c.Both? || c.Doze? || c.Switching? || c.Back? }

  predicate HasLock(c: Pc) { c.Held? || c.WantRel? || c.Clear? }

  predicate Waking(c: Pc) { c.Scan? || c.Look? || c.Leave? }

  // Process i has given up inner in sleep() and is not on its way back yet.
  ghost predicate Dozing(s: State, i: nat)
    requires Shape(s) && i < |s.pcs|
  {
    s.pcs[i].Doze? || s.asleep[i]
  }

  // Someone holds inner and is in wakeup(), and has not come past process i.
  ghost predicate WillLook(s: State, i: nat) {
    s.inner.Some? && s.inner.value < |s.pcs| && (s.pcs[s.inner.value].Scan? || s.pcs[s.inner.value].Look?)
      && s.pcs[s.inner.value].k <= i
  }

  ghost predicate OneOk(s: State, i: nat)
    requires Shape(s) && i < |s.pcs|
  {
    var c := s.pcs[i];
    && (HasInner(c) ==> s.inner == Some(i))
    && (HasOwn(c) ==> s.own[i] == By(i))
    && (c.Look? ==> c.k < |s.pcs| && s.own[c.k] == By(i))
    && (s.asleep[i] ==> c.Switching? || c.Asleep?) && (c.Switching? ==> s.asleep[i])
    && (HasLock(c) ==> s.locked && s.pid == i)
    && (c.WantOwn? || c.Both? ==> s.locked)
    && (Waking(c) ==> !s.locked)
    && (Dozing(s, i) ==> s.locked || WillLook(s, i))
  }

  ghost predicate Inv(s: State) {
    && Shape(s)
    && (s.inner.Some? ==> s.inner.value < |s.pcs| && HasInner(s.pcs[s.inner.value]))
    && (s.locked ==> s.pid < |s.pcs| && HasLock(s.pcs[s.pid]))
    && (forall i :: 0 <= i < |s.pcs| ==> OneOk(s, i))
    && (forall j :: 0 <= j < |s.own| && s.own[j].By? ==> s.own[j].i < |s.pcs| && OwnedRightly(s, j, s.own[j].i))
  }

  ghost predicate OwnedRightly(s: State, j: nat, i: nat)
    requires i < |s.pcs|
  {
    (i == j && HasOwn(s.pcs[i])) || (s.pcs[i].Look? && s.pcs[i].k == j)
  }

  // What a step leaves of one process, for the steps of acquiresleep, sleep, the scheduler, releasesleep,
  // wakeup, and other code.

  lemma KeepGoing(s: State, t: Step, i: nat)
    requires Inv(s) && Enabled(s, t) && i < |s.pcs| && (t.Begin? || t.GetInner? || t.Test?)
    ensures OneOk(Apply(s, t), i)
  {
    assert OneOk(s, t.i) && OneOk(s, i);
  }

  lemma KeepDozing(s: State, t: Step, i: nat)
    requires Inv(s) && Enabled(s, t) && i < |s.pcs| && (t.GetOwn? || t.DropInner? || t.FallAsleep?)
    ensures OneOk(Apply(s, t), i)
  {
    assert OneOk(s, t.i) && OneOk(s, i);
  }

  lemma KeepComing(s: State, t: Step, i: nat)
    requires Inv(s) && Enabled(s, t) && i < |s.pcs| && (t.SwitchOut? || t.SwitchIn? || t.Resume?)
    ensures OneOk(Apply(s, t), i)
  {
    assert OneOk(s, t.i) && OneOk(s, i);
  }

  lemma KeepReleasing(s: State, t: Step, i: nat)
    requires Inv(s) && Enabled(s, t) && i < |s.pcs| && (t.Release? || t.GetInnerRel? || t.Unlock?)
    ensures OneOk(Apply(s, t), i)
  {
    assert OneOk(s, t.i) && OneOk(s, i);
  }

  lemma KeepWaking(s: State, t: Step, i: nat)
    requires Inv(s) && Enabled(s, t) && i < |s.pcs| && (t.GetOther? || t.WakeOne? || t.Finish?)
    ensures OneOk(Apply(s, t), i)
  {
    assert OneOk(s, t.i) && OneOk(s, i);
  }

  lemma KeepForeign(s: State, t: Step, i: nat)
    requires Inv(s) && Enabled(s, t) && i < |s.pcs| && (t.Grab? || t.Kill?)
    ensures OneOk(Apply(s, t), i)
  {
    assert OneOk(s, t.i) && OneOk(s, i);
  }

  lemma KeepLocks(s: State, t: Step)
    requires Inv(s) && Enabled(s, t)
    ensures var s' := Apply(s, t);
            && (s'.inner.Some? ==> s'.inner.value < |s'.pcs| && HasInner(s'.pcs[s'.inner.value]))
            && (s'.locked ==> s'.pid < |s'.pcs| && HasLock(s'.pcs[s'.pid]))
  {
    assert OneOk(s, t.i);
  }

  lemma KeepOwn(s: State, t: Step, j: nat)
    requires Inv(s) && Enabled(s, t) && j < |s.own| && Apply(s, t).own[j].By?
    ensures var s' := Apply(s, t); s'.own[j].i < |s'.pcs| && OwnedRightly(s', j, s'.own[j].i)
  {
    assert OneOk(s, t.i) && OneOk(s, j);
  }

  lemma KeepStep(s: State, t: Step)
    requires Inv(s) && Enabled(s, t)
    ensures Inv(Apply(s, t))
  {
    hide OneOk, OwnedRightly, Enabled, Apply;
    var s' := Apply(s, t);
    KeepLocks(s, t);
    forall i | 0 <= i < |s'.pcs|
      ensures OneOk(s', i)
    {
      match t
      case Begin(_) | GetInner(_) | Test(_) => KeepGoing(s, t, i);
      case GetOwn(_) | DropInner(_) | FallAsleep(_) => KeepDozing(s, t, i);
      case SwitchOut(_) | SwitchIn(_) | Resume(_) => KeepComing(s, t, i);
      case Release(_) | GetInnerRel(_) | Unlock(_) => KeepReleasing(s, t, i);
      case GetOther(_) | WakeOne(_) | Finish(_) => KeepWaking(s, t, i);
      case Grab(_) | Kill(_) => KeepForeign(s, t, i);
    }
    forall j | 0 <= j < |s'.own| && s'.own[j].By?
      ensures s'.own[j].i < |s'.pcs| && OwnedRightly(s', j, s'.own[j].i)
    {
      KeepOwn(s, t, j);
    }
  }

  // ---- Runs ----

  ghost predicate Initial(s: State) {
    && Shape(s) && !s.locked && s.inner.None?
    && forall i :: 0 <= i < |s.pcs| ==> s.pcs[i] == Out && !s.asleep[i] && s.own[i] == Nobody
  }

  ghost predicate Legal(s: State, ts: seq<Step>)
    requires Shape(s)
    decreases |ts|
  {
    |ts| == 0 || (Enabled(s, ts[0]) && Legal(Apply(s, ts[0]), ts[1..]))
  }

  ghost function After(s: State, ts: seq<Step>): (s': State)
    requires Shape(s) && Legal(s, ts)
    ensures Shape(s')
    decreases |ts|
  {
    if |ts| == 0 then s else After(Apply(s, ts[0]), ts[1..])
  }

  lemma {:induction false} KeepRun(s: State, ts: seq<Step>)
    requires Inv(s) && Legal(s, ts)
    ensures Inv(After(s, ts))
    decreases |ts|
  {
    if |ts| > 0 {
      KeepStep(s, ts[0]);
      KeepRun(Apply(s, ts[0]), ts[1..]);
    }
  }

  lemma Reached(s: State, ts: seq<Step>)
    requires Initial(s) && Legal(s, ts)
    ensures Inv(After(s, ts))
  {
    KeepRun(s, ts);
  }

  /** At most one process has the sleep lock, in every state of every run. */
  lemma OneHolder(s: State, ts: seq<Step>, i: nat, j: nat)
    requires Initial(s) && Legal(s, ts)
    requires var e := After(s, ts); i < |e.pcs| && j < |e.pcs| && HasLock(e.pcs[i]) && HasLock(e.pcs[j])
    ensures i == j
  {
    Reached(s, ts);
    assert OneOk(After(s, ts), i) && OneOk(After(s, ts), j);
  }

  /** No process sleeps, or is about to, on a sleep lock that is free and whose spinlock is free. */
  lemma NoForgottenSleeper(s: State, ts: seq<Step>, i: nat)
    requires Initial(s) && Legal(s, ts)
    requires var e := After(s, ts); i < |e.pcs| && !e.locked && e.inner.None?
    ensures !Dozing(After(s, ts), i)
  {
    Reached(s, ts);
    assert OneOk(After(s, ts), i);
  }

  /** wakeup misses no one: when it has come to the end, no process that gave up the spinlock in sleep()
      is SLEEPING or about to be, however its steps and the sleepers' were interleaved. */
  lemma NoLostWakeup(s: State, ts: seq<Step>, w: nat, i: nat)
    requires Initial(s) && Legal(s, ts)
    requires var e := After(s, ts);
             w < |e.pcs| && i < |e.pcs| && (e.pcs[w].Leave? || (e.pcs[w].Scan? && i < e.pcs[w].k))
    ensures !Dozing(After(s, ts), i)
  {
    Reached(s, ts);
    var e := After(s, ts);
    assert OneOk(e, i) && OneOk(e, w);
  }
}
