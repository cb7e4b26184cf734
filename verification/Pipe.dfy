/** Pipes (kernel/pipe.c): any number of readers and writers, one step for each round of their loops. sleep
    and wakeup are one step each: they are called with pi->lock held, so that no wakeup is lost. */
module Pipe {
  import opened Wrappers

  const PIPESIZE := 512
  const UINT := 0x1_0000_0000

  /** Where a process is, and how many of its n bytes it has transferred. WantW and WantR: about to acquire
      pi->lock; Writing, and Reading once past the loop that waits for data: with pi->lock held; Waiting: in
      that loop; SleepW and SleepR: asleep on nwrite and on nread; Done: returned `result`. */
  datatype Pc = Idle | WantW(k: nat, n: int) | Writing(k: nat, n: int) | SleepW(k: nat, n: int)
              | WantR(n: int) | Waiting(n: int) | SleepR(n: int) | Reading(k: nat, n: int)
              | Done(result: int)

  /** The pipe, and three histories: the bytes that were put into it, those that were taken out, and those
      of them that reached a reader. `deserted` says that a killed writer has left the pipe full, and that
      since then no writer has woken the readers and the pipe has not been empty. */
  datatype State = State(data: seq<int>, nread: nat, nwrite: nat, readopen: bool, writeopen: bool, freed: nat,
                         lock: Option<nat>, killed: seq<bool>, pcs: seq<Pc>,
                         put: seq<int>, taken: seq<int>, delivered: seq<int>, deserted: bool)

  /** copied says whether copyin or copyout succeeds; byte is what copyin gets. */
  datatype Step = CallWrite(i: nat, n: int) | CallRead(i: nat, n: int) | Acquire(i: nat)
                | WriteByte(i: nat, byte: int, copied: bool) | Wait(i: nat) | ReadByte(i: nat, copied: bool)
                | Close(writable: bool) | Kill(i: nat) | Return(i: nat)

  predicate Full(s: State) { s.nwrite == (s.nread + PIPESIZE) % UINT }

  predicate Empty(s: State) { s.nread == s.nwrite }

  predicate InWrite(c: Pc) { c.WantW? || c.Writing? || c.SleepW? }

  predicate InRead(c: Pc) { c.WantR? || c.Waiting? || c.SleepR? || c.Reading? }

  ghost predicate Shape(s: State) { |s.data| == PIPESIZE && |s.killed| == |s.pcs| && s.nread < UINT && s.nwrite < UINT }

  // Everyone who sleeps on nread, or on nwrite, wants the lock again.
  ghost function WakeReaders(pcs: seq<Pc>): (r: seq<Pc>)
    ensures |r| == |pcs| && forall i :: 0 <= i < |pcs| ==> r[i] == if pcs[i].SleepR? then WantR(pcs[i].n) else pcs[i]
  {
    seq(|pcs|, i requires 0 <= i < |pcs| => if pcs[i].SleepR? then WantR(pcs[i].n) else pcs[i])
  }

  ghost function WakeWriters(pcs: seq<Pc>): (r: seq<Pc>)
    ensures |r| == |pcs| && forall i :: 0 <= i < |pcs| ==>
            r[i] == if pcs[i].SleepW? then WantW(pcs[i].k, pcs[i].n) else pcs[i]
  {
    seq(|pcs|, i requires 0 <= i < |pcs| => if pcs[i].SleepW? then WantW(pcs[i].k, pcs[i].n) else pcs[i])
  }

  /** A process is in a call for one end of the pipe only while that end is open, and the last reference to
      an end is closed only while no process is in a call for it: a file's reference count sees to that. */
  ghost predicate Enabled(s: State, t: Step)
    requires Shape(s)
  {
    && (!t.Close? ==> t.i < |s.pcs|)
    && match t
       case CallWrite(i, n) => s.pcs[i].Idle? && s.writeopen
       case CallRead(i, n) => s.pcs[i].Idle? && s.readopen
       case Acquire(i) => (s.pcs[i].WantW? || s.pcs[i].WantR?) && s.lock.None?
       case WriteByte(i, byte, copied) => s.pcs[i].Writing?
       case Wait(i) => s.pcs[i].Waiting?
       case ReadByte(i, copied) => s.pcs[i].Reading?
       case Close(writable) =>
         && s.lock.None?
         && if writable then s.writeopen && forall j :: 0 <= j < |s.pcs| ==> !InWrite(s.pcs[j])
            else s.readopen && forall j :: 0 <= j < |s.pcs| ==> !InRead(s.pcs[j])
       case Kill(i) => true
       case Return(i) => s.pcs[i].Done?
  }

  ghost function Apply(s: State, t: Step): (s': State)
    requires Shape(s) && Enabled(s, t)
    ensures Shape(s') && |s'.pcs| == |s.pcs|
  {
    match t
    case CallWrite(i, n) => s.(pcs := s.pcs[i := WantW(0, n)])
    case CallRead(i, n) => s.(pcs := s.pcs[i := WantR(n)])
    case Acquire(i) =>
      s.(lock := Some(i),
        pcs := s.pcs[i := if s.pcs[i].WantW? then Writing(s.pcs[i].k, s.pcs[i].n) else Waiting(s.pcs[i].n)])
    case WriteByte(i, byte, copied) => DoWrite(s, i, byte, copied)
    case Wait(i) =>
      if !(Empty(s) && s.writeopen) then s.(pcs := s.pcs[i := Reading(0, s.pcs[i].n)])
      else if s.killed[i] then s.(lock := None, pcs := s.pcs[i := Done(-1)])
      else s.(lock := None, pcs := s.pcs[i := SleepR(s.pcs[i].n)])
    case ReadByte(i, copied) => DoRead(s, i, copied)
    case Close(writable) =>
      var s1 := if writable then s.(writeopen := false, pcs := WakeReaders(s.pcs), deserted := false)
        else s.(readopen := false, pcs := WakeWriters(s.pcs));
      if !s1.readopen && !s1.writeopen then s1.(freed := s1.freed + 1) else s1
    case Kill(i) =>
      s.(killed := s.killed[i := true],
         pcs := s.pcs[i := match s.pcs[i] case SleepW(k, n) => WantW(k, n) case SleepR(n) => WantR(n) case c => c])
    case Return(i) => s.(pcs := s.pcs[i := Idle])
  }

  ghost function DoWrite(s: State, i: nat, byte: int, copied: bool): (s': State)
    requires Shape(s) && i < |s.pcs| && s.pcs[i].Writing?
    ensures Shape(s') && |s'.pcs| == |s.pcs|
  {
    var c := s.pcs[i];
    if c.k < c.n && Full(s) then
      if !s.readopen || s.killed[i]
        then s.(lock := None, pcs := s.pcs[i := Done(-1)], deserted := s.deserted || s.readopen)
      else s.(lock := None, pcs := WakeReaders(s.pcs)[i := SleepW(c.k, c.n)], deserted := false)
    else if c.k < c.n && copied then
      s.(data := s.data[s.nwrite % PIPESIZE := byte], nwrite := (s.nwrite + 1) % UINT, put := s.put + [byte],
        pcs := s.pcs[i := Writing(c.k + 1, c.n)])
    else s.(lock := None, pcs := WakeReaders(s.pcs)[i := Done(c.k)], deserted := false)
  }

  ghost function DoRead(s: State, i: nat, copied: bool): (s': State)
    requires Shape(s) && i < |s.pcs| && s.pcs[i].Reading?
    ensures Shape(s') && |s'.pcs| == |s.pcs|
  {
    var c := s.pcs[i];
    if c.k < c.n && !Empty(s) then
      var byte := s.data[s.nread % PIPESIZE];
      var s0 := s.(nread := (s.nread + 1) % UINT, taken := s.taken + [byte]);
      var s1 := s0.(deserted := s.deserted && !Empty(s0));
      if copied then s1.(delivered := s.delivered + [byte], pcs := s.pcs[i := Reading(c.k + 1, c.n)])
      else s1.(lock := None, pcs := WakeWriters(s.pcs)[i := Done(c.k)])
    else s.(lock := None, pcs := WakeWriters(s.pcs)[i := Done(c.k)])
  }

  // ---- The ring ----

  /** The counters count, in 32 bits, the bytes put in and taken out; what is between is in the ring. */
  ghost predicate RingOk(s: State) {
    && Shape(s) && |s.taken| <= |s.put| <= |s.taken| + PIPESIZE
    && s.nread == |s.taken| % UINT && s.nwrite == |s.put| % UINT
    && (forall k :: |s.taken| <= k < |s.put| ==> s.data[k % PIPESIZE] == s.put[k])
    && s.taken == s.put[..|s.taken|]
  }

  lemma Counters(s: State)
    requires RingOk(s)
    ensures Full(s) <==> |s.put| == |s.taken| + PIPESIZE
    ensures Empty(s) <==> |s.put| == |s.taken|
    ensures s.nwrite % PIPESIZE == |s.put| % PIPESIZE && s.nread % PIPESIZE == |s.taken| % PIPESIZE
  {
    Wraps(|s.taken|);
    Wraps(|s.put|);
    Gap(|s.taken|, |s.put|);
  }

  lemma Wraps(x: nat)
    ensures x % UINT % PIPESIZE == x % PIPESIZE && (x % UINT + 1) % UINT == (x + 1) % UINT
  {
  }

  lemma Gap(a: nat, b: nat)
    requires a <= b <= a + PIPESIZE
    ensures b % UINT == (a % UINT + PIPESIZE) % UINT <==> b == a + PIPESIZE
    ensures a % UINT == b % UINT <==> a == b
  {
    var d := b - a;
    assert (a + d) % UINT == if a % UINT + d < UINT then a % UINT + d else a % UINT + d - UINT;
  }

  lemma PutKeeps(s: State, byte: int)
    requires RingOk(s) && !Full(s)
    ensures RingOk(s.(data := s.data[s.nwrite % PIPESIZE := byte], nwrite := (s.nwrite + 1) % UINT,
            put := s.put + [byte]))
  {
    Counters(s);
    Wraps(|s.put|);
    var s' := s.(data := s.data[s.nwrite % PIPESIZE := byte], nwrite := (s.nwrite + 1) % UINT, put := s.put + [byte]);
    forall k | |s'.taken| <= k < |s'.put|
      ensures s'.data[k % PIPESIZE] == s'.put[k]
    {
      if k < |s.put| {
        Apart(k, |s.put|);
      }
    }
  }

  lemma Apart(a: nat, b: nat)
    requires a < b < a + PIPESIZE
    ensures a % PIPESIZE != b % PIPESIZE
  {
  }

  lemma TakeKeeps(s: State)
    requires RingOk(s) && !Empty(s)
    ensures s.data[s.nread % PIPESIZE] == s.put[|s.taken|]
    ensures RingOk(s.(nread := (s.nread + 1) % UINT, taken := s.taken + [s.data[s.nread % PIPESIZE]]))
  {
    Counters(s);
    Wraps(|s.taken|);
    assert s.put[..|s.taken| + 1] == s.put[..|s.taken|] + [s.put[|s.taken|]];
  }

  lemma KeepRingWrite(s: State, t: Step)
    requires Shape(s) && RingOk(s) && Enabled(s, t) && t.WriteByte?
    ensures RingOk(Apply(s, t))
  {
    hide RingOk, Full;
    if s.pcs[t.i].k < s.pcs[t.i].n && !Full(s) && t.copied {
      PutKeeps(s, t.byte);
      SameRing(s.(data := s.data[s.nwrite % PIPESIZE := t.byte], nwrite := (s.nwrite + 1) % UINT,
        put := s.put + [t.byte]), Apply(s, t));
    } else {
      SameRing(s, Apply(s, t));
    }
  }

  lemma KeepRingRead(s: State, t: Step)
    requires Shape(s) && RingOk(s) && Enabled(s, t) && t.ReadByte?
    ensures RingOk(Apply(s, t))
  {
    hide RingOk, Empty;
    if s.pcs[t.i].k < s.pcs[t.i].n && !Empty(s) {
      TakeKeeps(s);
      SameRing(s.(nread := (s.nread + 1) % UINT, taken := s.taken + [s.data[s.nread % PIPESIZE]]), Apply(s, t));
    } else {
      SameRing(s, Apply(s, t));
    }
  }

  lemma KeepRing(s: State, t: Step)
    requires Shape(s) && RingOk(s) && Enabled(s, t)
    ensures RingOk(Apply(s, t))
  {
    hide RingOk;
    if t.WriteByte? {
      KeepRingWrite(s, t);
    } else if t.ReadByte? {
      KeepRingRead(s, t);
    } else {
      SameRing(s, Apply(s, t));
    }
  }

  lemma SameRing(s: State, s': State)
    requires RingOk(s) && Shape(s') && s'.data == s.data && s'.nread == s.nread && s'.nwrite == s.nwrite
             && s'.put == s.put && s'.taken == s.taken
    ensures RingOk(s')
  {
  }

  // ---- The processes ----

  predicate HasLock(c: Pc) { c.Writing? || c.Waiting? || c.Reading? }

  // Whoever has the lock is not putting bytes in, or not taking bytes out.
  ghost predicate NoWriter(s: State) { s.lock.Some? && s.lock.value < |s.pcs| ==> !s.pcs[s.lock.value].Writing? }

  ghost predicate NoReader(s: State) { s.lock.Some? && s.lock.value < |s.pcs| ==> !s.pcs[s.lock.value].Reading? }

  ghost predicate OneOk(s: State, i: nat)
    requires Shape(s) && i < |s.pcs|
  {
    var c := s.pcs[i];
    && (HasLock(c) ==> s.lock == Some(i))
    && (InWrite(c) ==> s.writeopen) && (InRead(c) ==> s.readopen)
    && (c.SleepW? && NoReader(s) ==> Full(s) && s.readopen)
    && (c.SleepR? ==> s.writeopen && (NoWriter(s) && !s.deserted ==> Empty(s)))
    && (c.Reading? && c.k == 0 ==> !(Empty(s) && s.writeopen))
    && (c.Reading? ==> 0 <= c.k && (c.k > 0 ==> c.k <= c.n))
  }

  ghost predicate Inv(s: State) {
    && RingOk(s)
    && (s.lock.Some? ==> s.lock.value < |s.pcs| && HasLock(s.pcs[s.lock.value]))
    && s.freed == (if s.readopen || s.writeopen then 0 else 1)
    && (s.deserted ==> !Empty(s))
    && forall i :: 0 <= i < |s.pcs| ==> OneOk(s, i)
  }

  lemma KeepOne(s: State, t: Step, i: nat)
    requires Inv(s) && Enabled(s, t) && i < |s.pcs| && !t.WriteByte? && !t.ReadByte?
    ensures OneOk(Apply(s, t), i)
  {
    assert OneOk(s, i);
    if !t.Close? {
      assert OneOk(s, t.i);
    }
  }

  lemma KeepOneWrite(s: State, t: Step, i: nat)
    requires Inv(s) && Enabled(s, t) && i < |s.pcs| && t.WriteByte?
    ensures OneOk(Apply(s, t), i)
  {
    assert OneOk(s, i) && OneOk(s, t.i);
    Counters(s);
    KeepRing(s, t);
    Counters(Apply(s, t));
  }

  lemma KeepOneRead(s: State, t: Step, i: nat)
    requires Inv(s) && Enabled(s, t) && i < |s.pcs| && t.ReadByte?
    ensures OneOk(Apply(s, t), i)
  {
    assert OneOk(s, i) && OneOk(s, t.i);
    Counters(s);
  }

  lemma KeepStep(s: State, t: Step)
    requires Inv(s) && Enabled(s, t)
    ensures Inv(Apply(s, t))
  {
    KeepRing(s, t);
    KeepLock(s, t);
    forall i | 0 <= i < |s.pcs|
      ensures OneOk(Apply(s, t), i)
    {
      if t.WriteByte? {
        KeepOneWrite(s, t, i);
      } else if t.ReadByte? {
        KeepOneRead(s, t, i);
      } else {
        KeepOne(s, t, i);
      }
    }
  }

  lemma KeepLock(s: State, t: Step)
    requires Inv(s) && Enabled(s, t)
    ensures var s' := Apply(s, t);
            && (s'.lock.Some? ==> s'.lock.value < |s'.pcs| && HasLock(s'.pcs[s'.lock.value]))
            && s'.freed == (if s'.readopen || s'.writeopen then 0 else 1)
            && (s'.deserted ==> !Empty(s'))
  {
    if !t.Close? {
      assert OneOk(s, t.i);
    }
    KeepRing(s, t);
    Counters(s);
    Counters(Apply(s, t));
  }

  // ---- Runs ----

  ghost predicate Initial(s: State) {
    && Shape(s) && s.nread == 0 && s.nwrite == 0 && s.readopen && s.writeopen && s.freed == 0 && s.lock.None?
       && s.put == [] && s.taken == []
    && s.delivered == [] && !s.deserted && forall i :: 0 <= i < |s.pcs| ==> s.pcs[i].Idle?
  }

  ghost predicate Legal(s: State, ts: seq<Step>)
    requires Shape(s)
    decreases |ts|
  {
    |ts| == 0 || (Enabled(s, ts[0]) && Legal(Apply(s, ts[0]), ts[1..]))
  }

  ghost function After(s: State, ts: seq<Step>): (s': State)
    requires Shape(s) && Legal(s, ts)
    ensures Shape(s') && |s'.pcs| == |s.pcs|
    decreases |ts|
  {
    if |ts| == 0 then s else After(Apply(s, ts[0]), ts[1..])
  }

  lemma {:induction false} KeepRun(s: State, ts: seq<Step>)
    requires Inv(s) && Legal(s, ts)
    ensures Inv(After(s, ts))
    decreases |ts|
  {
    if |ts| > 0 {
      KeepStep(s, ts[0]);
      KeepRun(Apply(s, ts[0]), ts[1..]);
    }
  }

  lemma Reached(s: State, ts: seq<Step>)
    requires Initial(s) && Legal(s, ts)
    ensures Inv(After(s, ts))
  {
    KeepRun(s, ts);
  }

  /** In every run, whatever the counters have wrapped around to, the bytes taken out are the first of those
      put in, in order, and at most 512 are in between. */
  lemma Fifo(s: State, ts: seq<Step>)
    requires Initial(s) && Legal(s, ts)
    ensures var e := After(s, ts); e.taken <= e.put && |e.put| - |e.taken| <= PIPESIZE
  {
    Reached(s, ts);
  }

  // A byte that is taken out and does not reach the reader, because copyout fails.
  ghost predicate Drops(s: State, t: Step)
    requires Shape(s) && Enabled(s, t)
  {
    t.ReadByte? && !t.copied && s.pcs[t.i].k < s.pcs[t.i].n && !Empty(s)
  }

  ghost function Dropped(s: State, ts: seq<Step>): (n: nat)
    requires Shape(s) && Legal(s, ts)
    decreases |ts|
  {
    if |ts| == 0 then 0 else (if Drops(s, ts[0]) then 1 else 0) + Dropped(Apply(s, ts[0]), ts[1..])
  }

  lemma {:induction false} Deliveries(s: State, ts: seq<Step>)
    requires Shape(s) && Legal(s, ts)
    ensures var e := After(s, ts);
            && |e.taken| - |s.taken| == |e.delivered| - |s.delivered| + Dropped(s, ts)
            && (Dropped(s, ts) == 0 && s.delivered == s.taken ==> e.delivered == e.taken)
    decreases |ts|
  {
    hide Apply, Enabled, Drops;
    if |ts| > 0 {
      Delivery(s, ts[0]);
      Deliveries(Apply(s, ts[0]), ts[1..]);
    }
  }

  lemma Delivery(s: State, t: Step)
    requires Shape(s) && Enabled(s, t)
    ensures var s' := Apply(s, t);
            && |s'.taken| - |s.taken| == |s'.delivered| - |s.delivered| + (if Drops(s, t) then 1 else 0)
            && (!Drops(s, t) && s.delivered == s.taken ==> s'.delivered == s'.taken)
  {
  }

  /** The readers together got every byte that was taken out, in order, if and only if copyout never failed
      on one: piperead has moved on by then, and the byte is lost. */
  lemma DeliveredIff(s: State, ts: seq<Step>)
    requires Initial(s) && Legal(s, ts)
    ensures After(s, ts).delivered == After(s, ts).taken <==> Dropped(s, ts) == 0
  {
    Deliveries(s, ts);
  }

  /** Whoever sleeps with the lock free has reason to: a writer, because the pipe is full and someone can
      read; a reader, because it is empty and someone can write. A reader's reason is missing exactly if a
      killed writer has left the pipe full and nothing has happened since that would make up for it. */
  lemma SleepersHaveReason(s: State, ts: seq<Step>, i: nat)
    requires Initial(s) && Legal(s, ts)
    requires var e := After(s, ts); i < |e.pcs| && e.lock.None?
    ensures var e := After(s, ts);
            && (e.pcs[i].SleepW? ==> |e.put| == |e.taken| + PIPESIZE && e.readopen)
            && (e.pcs[i].SleepR? ==> e.writeopen && (e.put == e.taken <==> !e.deserted))
  {
    Reached(s, ts);
    var e := After(s, ts);
    assert OneOk(e, i);
    Counters(e);
  }

  /** read returns 0 for n > 0, if copyout succeeds, only at the end of the stream: all bytes that were put
      in have been taken out, and none will be put in. */
  lemma ZeroIsEnd(s: State, ts: seq<Step>, i: nat, copied: bool)
    requires Initial(s) && Legal(s, ts)
    requires var e := After(s, ts);
             i < |e.pcs| && e.pcs[i].Reading? && e.pcs[i].n > 0 && copied
             && Apply(e, ReadByte(i, copied)).pcs[i] == Done(0)
    ensures var e := After(s, ts); e.put == e.taken && !e.writeopen
  {
    Reached(s, ts);
    var e := After(s, ts);
    assert OneOk(e, i);
    Counters(e);
  }

  lemma {:induction false} NothingAfterEnd(s: State, ts: seq<Step>)
    requires Inv(s) && Legal(s, ts) && !s.writeopen
    ensures After(s, ts).put == s.put && !After(s, ts).writeopen
    decreases |ts|
  {
    if |ts| > 0 {
      KeepStep(s, ts[0]);
      assert !ts[0].Close? ==> OneOk(s, ts[0].i);
      NothingAfterEnd(Apply(s, ts[0]), ts[1..]);
    }
  }

  /** The pipe's page is freed once, when both ends are closed, and no process is in a call for it then. */
  lemma FreedOnce(s: State, ts: seq<Step>, i: nat)
    requires Initial(s) && Legal(s, ts) && i < |s.pcs|
    ensures var e := After(s, ts);
            && e.freed <= 1 && (e.freed == 1 <==> !e.readopen && !e.writeopen)
            && (e.freed == 1 ==> !InWrite(e.pcs[i]) && !InRead(e.pcs[i]))
  {
    Reached(s, ts);
    assert OneOk(After(s, ts), i);
  }

  // ---- A killed writer ----

  // Every sleeping reader has reason to sleep, unless a writer is just putting bytes in.
  ghost predicate ReadersOk(s: State) {
    NoWriter(s) ==> forall j :: 0 <= j < |s.pcs| && s.pcs[j].SleepR? ==> Empty(s) && s.writeopen
  }

  // The branch of pipewrite that returns without a wakeup, taken while someone can still read.
  ghost predicate GivesUpFull(s: State, t: Step)
    requires Shape(s) && Enabled(s, t)
  {
    t.WriteByte? && s.pcs[t.i].k < s.pcs[t.i].n && Full(s) && s.killed[t.i] && s.readopen
  }

  /** Among all steps of all processes, the one that takes the reason to sleep from a reader is a killed
      writer's return from a full pipe while a reader is asleep; no other step does. */
  lemma KilledWriterStrandsIff(s: State, t: Step)
    requires Inv(s) && Enabled(s, t) && !s.deserted
    ensures ReadersOk(Apply(s, t)) <==> !(GivesUpFull(s, t) && exists j :: 0 <= j < |s.pcs| && s.pcs[j].SleepR?)
  {
    KeepStep(s, t);
    Counters(s);
    var s' := Apply(s, t);
    if GivesUpFull(s, t) {
      assert forall j :: 0 <= j < |s.pcs| ==> (s'.pcs[j].SleepR? <==> s.pcs[j].SleepR?);
      assert NoWriter(s') && !Empty(s');
    } else {
      assert t.WriteByte? ==> OneOk(s, t.i);
      forall j | 0 <= j < |s.pcs| && s'.pcs[j].SleepR? && NoWriter(s')
        ensures Empty(s') && s'.writeopen
      {
        assert OneOk(s', j) && OneOk(s, j);
      }
    }
  }

  // k bytes into an empty pipe, by process 1.
  lemma {:induction false} Fill(s: State, k: nat) returns (ts: seq<Step>)
    requires RingOk(s) && |s.pcs| == 2 && s.pcs[1] == Writing(|s.put|, 513) && |s.taken| == 0 && |s.put| + k <= PIPESIZE
    ensures Legal(s, ts)
    ensures var e := After(s, ts);
            RingOk(e) && e.pcs == s.pcs[1 := Writing(|s.put| + k, 513)] && |e.put| == |s.put| + k && e.taken == []
              && e.killed == s.killed && e.readopen == s.readopen && e.lock == s.lock
    decreases k
  {
    if k == 0 {
      ts := [];
      assert s.pcs[1 := Writing(|s.put| + k, 513)] == s.pcs;
    } else {
      Counters(s);
      var t := WriteByte(1, 0, true);
      KeepRing(s, t);
      var s1 := Apply(s, t);
      var us := Fill(s1, k - 1);
      ts := [t] + us;
      assert ts[1..] == us;
    }
  }

  lemma Three(s: State, t: Step, u: Step, w: Step)
    requires Shape(s) && Enabled(s, t) && Enabled(Apply(s, t), u) && Enabled(Apply(Apply(s, t), u), w)
    ensures Legal(s, [t, u, w]) && After(s, [t, u, w]) == Apply(Apply(Apply(s, t), u), w)
  {
    hide Apply, Enabled;
    var e := Apply(Apply(Apply(s, t), u), w);
    assert Legal(e, []) && After(e, []) == e;
    Then1(Apply(Apply(s, t), u), w, []);
    Then1(Apply(s, t), u, [w] + []);
    Then1(s, t, [u] + ([w] + []));
    assert [t] + ([u] + ([w] + [])) == [t, u, w];
  }

  /** There is a run in which a reader sleeps while the pipe is full: a writer of 513 bytes, killed after
      the reader fell asleep. */
  lemma StrandedReader(s: State) returns (ts: seq<Step>)
    requires Initial(s) && |s.pcs| == 2 && !s.killed[0]
    ensures Legal(s, ts)
    ensures var e := After(s, ts); e.lock.None? && e.pcs[0].SleepR? && |e.put| == PIPESIZE && e.taken == []
  {
    var a, b := [CallRead(0, 1), Acquire(0), Wait(0)], [CallWrite(1, 513), Acquire(1), Kill(1)];
    Three(s, a[0], a[1], a[2]);
    var s3 := After(s, a);
    Three(s3, b[0], b[1], b[2]);
    var s6 := After(s3, b);
    var c := Fill(s6, PIPESIZE);
    GivesUp(s6, c);
    Then(s3, b, c + [WriteByte(1, 0, true)]);
    Then(s, a, b + (c + [WriteByte(1, 0, true)]));
    ts := a + (b + (c + [WriteByte(1, 0, true)]));
  }

  lemma GivesUp(s: State, c: seq<Step>)
    requires Shape(s) && |s.pcs| == 2 && Legal(s, c) && s.killed[1] && s.pcs[0].SleepR?
    requires var e := After(s, c);
             RingOk(e) && e.pcs == s.pcs[1 := Writing(PIPESIZE, 513)] && |e.put| == PIPESIZE && e.taken == []
             && e.killed == s.killed
    ensures Legal(s, c + [WriteByte(1, 0, true)])
    ensures var e := After(s, c + [WriteByte(1, 0, true)]);
            e.lock.None? && e.pcs[0].SleepR? && |e.put| == PIPESIZE && e.taken == []
  {
    var e, t := After(s, c), WriteByte(1, 0, true);
    Counters(e);
    assert Legal(Apply(e, t), []) && After(Apply(e, t), []) == Apply(e, t);
    Then1(e, t, []);
    assert [t] + [] == [t];
    Then(s, c, [t]);
  }

  lemma Then1(s: State, t: Step, ts: seq<Step>)
    requires Shape(s) && Enabled(s, t) && Legal(Apply(s, t), ts)
    ensures Legal(s, [t] + ts) && After(s, [t] + ts) == After(Apply(s, t), ts)
  {
    assert ([t] + ts)[1..] == ts;
  }

  lemma {:induction false} Then(s: State, ts: seq<Step>, us: seq<Step>)
    requires Shape(s) && Legal(s, ts) && Legal(After(s, ts), us)
    ensures Legal(s, ts + us) && After(s, ts + us) == After(After(s, ts), us)
    decreases |ts|
  {
    if |ts| == 0 {
      assert ts + us == us;
    } else {
      Then(Apply(s, ts[0]), ts[1..], us);
      assert (ts + us)[1..] == ts[1..] + us;
    }
  }
}
