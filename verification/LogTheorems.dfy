/** What the log promises over whole runs: crash atomicity, durability, a cache that reads as a flat
    array, exactly which bytes a commit puts on the disk that nobody logged, and exactly which boots
    break those promises. */
module LogTheorems {
  import opened Wrappers
  import opened LogDisk
  import opened LogProtocol
  import opened LogCrash

  lemma KeepStep(g: Geometry, init: Disk, s: State, a: Step)
    requires Inv(g, init, s) && Enabled(g, s, a) && SoundStep(g, s, a)
    ensures Inv(g, init, Apply(g, s, a))
  {
    hide Inv, HistoryOk, OpsOk, CacheOk, MemoryOk, DiskOk;
    match a
    case Begin(p) => KeepBegin(g, init, s, p);
    case Ref(p, b) => KeepRef(g, init, s, p, b);
    case Lock(p, b) => KeepLock(g, init, s, p, b);
    case Modify(p, b, d) => KeepModify(g, init, s, p, b, d);
    case Check(p, b) => KeepCheck(g, init, s, p, b);
    case Add(p, b) => KeepAdd(g, init, s, p, b);
    case Release(p, b) => KeepRelease(g, init, s, p, b);
    case Evict(b) => KeepEvict(g, init, s, b);
    case End(p) => KeepEnd(g, init, s, p);
    case WriteLogBlock => KeepWriteLogBlock(g, init, s);
    case WriteHeader => KeepWriteHeader(g, init, s);
    case InstallBlock => KeepInstallBlock(g, init, s);
    case EraseHeader => KeepEraseHeader(g, init, s);
    case FinishCommit => KeepFinish(g, init, s);
    case Crash => KeepCrash(g, init, s);
    case ReadHeader => KeepReadHeader(g, init, s);
  }

  lemma {:induction false} RunInv(g: Geometry, init: Disk, s: State, run: seq<Step>)
    requires Inv(g, init, s) && Legal(g, s, run) && Sound(g, s, run)
    ensures Inv(g, init, After(g, s, run))
    decreases |run|
  {
    hide Inv, Apply, Enabled, SoundStep;
    if run != [] {
      KeepStep(g, init, s, run[0]);
      RunInv(g, init, Apply(g, s, run[0]), run[1..]);
    }
  }

  // ---- Changes that nobody logged ----

  /** A buffer that nobody holds has bytes in it that were not passed to log_write. */
  ghost predicate Loose(s: State, b: nat) { b in s.cache && s.cache[b].unlogged && s.cache[b].holder.None? }

  /** Of all steps, only the release of a buffer with an unlogged change leaves one so. */
  lemma LooseIff(g: Geometry, init: Disk, s: State, a: Step, b: nat)
    requires Inv(g, init, s) && Enabled(g, s, a) && !Loose(s, b)
    ensures Loose(Apply(g, s, a), b) <==> a.Release? && a.b == b && s.cache[b].unlogged
  {
    hide DiskOk, MemoryOk, HistoryOk, OpsOk;
  }

  /** Nothing unlogged is left in a buffer, and everything in the history was logged. */
  ghost predicate TidyOk(s: State) {
    (forall b :: !Loose(s, b)) && forall i :: 0 <= i < |s.h.writes| ==> s.h.writes[i].logged
  }

  // When nothing unlogged is in the buffer, a commit copies what was logged.
  lemma CopyTidy(g: Geometry, init: Disk, s: State)
    requires Inv(g, init, s) && CanWriteLogBlock(g, s) && !Loose(s, s.lh[s.pc.t])
    ensures DoWriteLogBlock(g, s).h == s.h
  {
    hide CacheOk, MemoryOk, Replay;
    var b := s.lh[s.pc.t];
    ReadViaIsLatest(g, init, s, b);
    ReplayLast(g, init, s.h.writes, b);
  }

  lemma KeepTidy(g: Geometry, init: Disk, s: State, a: Step)
    requires Inv(g, init, s) && Enabled(g, s, a) && TidyOk(s) && TidyStep(g, s, a)
    ensures TidyOk(Apply(g, s, a))
  {
    hide Inv, Loose;
    forall b
      ensures !Loose(Apply(g, s, a), b)
    {
      LooseIff(g, init, s, a, b);
      assert a.Release? && a.b == b ==> b in s.cache;
    }
    if a.WriteLogBlock? {
      CopyTidy(g, init, s);
    }
  }

  lemma {:induction false} RunTidy(g: Geometry, init: Disk, s: State, run: seq<Step>)
    requires Inv(g, init, s) && TidyOk(s) && Legal(g, s, run) && Sound(g, s, run) && Tidy(g, s, run)
    ensures TidyOk(After(g, s, run))
    decreases |run|
  {
    hide Inv, Apply, Enabled, SoundStep, TidyStep, TidyOk;
    if run != [] {
      KeepStep(g, init, s, run[0]);
      KeepTidy(g, init, s, run[0]);
      RunTidy(g, init, Apply(g, s, run[0]), run[1..]);
    }
  }

  lemma InitialTidy(g: Geometry, s0: State, run: seq<Step>)
    requires Initial(g, s0) && Legal(g, s0, run) && Sound(g, s0, run) && Tidy(g, s0, run)
    ensures Inv(g, s0.disk, After(g, s0, run)) && TidyOk(After(g, s0, run))
  {
    hide Inv, Legal, After;
    InitialInv(g, s0);
    RunInv(g, s0.disk, s0, run);
    assert TidyOk(s0);
    RunTidy(g, s0.disk, s0, run);
  }

  lemma TidyPromise(g: Geometry, init: Disk, s: State)
    requires Inv(g, init, s) && TidyOk(s)
    ensures Promised(g, init, s.h) == Committed(g, init, s.h)
  {
    hide CacheOk, MemoryOk, DiskOk, Replay, Logged;
    AllLogged(s.h.writes[..s.h.durable]);
  }

  // ---- Crash atomicity ----

  ghost predicate Recovery(run: seq<Step>) {
    forall i :: 0 <= i < |run| ==> run[i].Crash? || run[i].ReadHeader? || run[i].InstallBlock? || run[i].EraseHeader?
  }

  lemma {:induction false} RecoveryKeepsHistory(g: Geometry, s: State, run: seq<Step>)
    requires Legal(g, s, run) && Recovery(run) && s.h.durable == |s.h.writes|
    ensures Sound(g, s, run) && After(g, s, run).h.writes == s.h.writes && After(g, s, run).h.durable == s.h.durable
    decreases |run|
  {
    if run != [] {
      assert s.h.writes[..s.h.durable] == s.h.writes;
      RecoveryKeepsHistory(g, Apply(g, s, run[0]), run[1..]);
    }
  }

  lemma RecoverFrom(g: Geometry, init: Disk, s: State, recovery: seq<Step>)
    requires Inv(g, init, s) && Legal(g, DoCrash(s), recovery) && Recovery(recovery)
    requires After(g, DoCrash(s), recovery).pc.Idle?
    ensures var s' := After(g, DoCrash(s), recovery);
            |s'.disk| == g.size && HomeIs(g, s'.disk, Committed(g, init, s.h), [])
  {
    hide OpsOk, CacheOk, MemoryOk, Replay, HomeIs;
    var c := DoCrash(s);
    KeepCrash(g, init, s);
    RecoveryKeepsHistory(g, c, recovery);
    RunInv(g, init, c, recovery);
    assert c.h.writes[..c.h.durable] == s.h.writes[..s.h.durable];
  }

  // A crash at the end of the run, and a recovery from it, however often that is cut short by further
  // crashes, which completes.
  ghost predicate Recovers(g: Geometry, s: State, recovery: seq<Step>) {
    && CanCrash(s) && Legal(g, DoCrash(s), recovery) && Recovery(recovery)
    && After(g, DoCrash(s), recovery).pc.Idle?
  }

  /** For every run in which the log does not overflow, a crash at its end, and every recovery: each home
      block holds what the group commits whose header reached the disk put there last, and nothing else.
      That is what was logged there last, unless and only unless the last of it is a slip. */
  lemma CrashExact(g: Geometry, s0: State, run: seq<Step>, recovery: seq<Step>, b: nat)
    requires Initial(g, s0) && Legal(g, s0, run) && Sound(g, s0, run)
    requires Recovers(g, After(g, s0, run), recovery) && g.Home(b)
    ensures var s, s' := After(g, s0, run), After(g, DoCrash(After(g, s0, run)), recovery);
            && WritesOk(g, s.h.writes) && |s'.disk| == g.size
            && s'.disk[b] == Committed(g, s0.disk, s.h)[b]
            && (s'.disk[b] != Promised(g, s0.disk, s.h)[b] <==> Slipped(s.h.writes[..s.h.durable], b))
  {
    hide OpsOk, CacheOk, MemoryOk, DiskOk, Replay;
    var s := After(g, s0, run);
    InitialInv(g, s0);
    RunInv(g, s0.disk, s0, run);
    RecoverFrom(g, s0.disk, s, recovery);
    SlipsPrefix(s.h.writes, s.h.durable);
    SlippedIff(g, s0.disk, s.h.writes[..s.h.durable], b);
  }

  /** If moreover no buffer is released with an unlogged change, that is exactly what was logged. */
  lemma CrashAtomicity(g: Geometry, s0: State, run: seq<Step>, recovery: seq<Step>)
    requires Initial(g, s0) && Legal(g, s0, run) && Sound(g, s0, run) && Tidy(g, s0, run)
    requires Recovers(g, After(g, s0, run), recovery)
    ensures var s, s' := After(g, s0, run), After(g, DoCrash(After(g, s0, run)), recovery);
            && Inv(g, s0.disk, s) && |s'.disk| == g.size
            && HomeIs(g, s'.disk, Promised(g, s0.disk, s.h), [])
  {
    hide Inv, Legal, After, HomeIs;
    var s := After(g, s0, run);
    InitialTidy(g, s0, run);
    RecoverFrom(g, s0.disk, s, recovery);
    TidyPromise(g, s0.disk, s);
  }

  /** No operation is ever half visible: the logged writes of one operation are all covered by a
      header on the disk, or none is; this includes writes that earlier crashes discarded. */
  lemma NoHalfOperation(g: Geometry, s0: State, run: seq<Step>)
    requires Initial(g, s0) && Legal(g, s0, run) && Sound(g, s0, run)
    ensures var h := After(g, s0, run).h;
            && h.durable <= |h.writes|
            && (forall i, j :: 0 <= i < h.durable && h.durable <= j < |h.writes| ==> h.writes[i].op != h.writes[j].op)
            && (forall i, j :: 0 <= i < h.durable && 0 <= j < |h.lost| ==> h.writes[i].op != h.lost[j].op)
  {
    InitialInv(g, s0);
    RunInv(g, s0.disk, s0, run);
  }

  /** When the last end_op of a group is done with its commit, everything logged is durable, the log is
      empty, and a home block differs from what was logged there last if and only if the commit found
      other bytes in the buffer when it copied the block. */
  lemma UnloggedCommitIff(g: Geometry, s0: State, run: seq<Step>, b: nat)
    requires Initial(g, s0) && Legal(g, s0, run) && Sound(g, s0, run) && After(g, s0, run).pc.Finish? && g.Home(b)
    ensures var s := After(g, s0, run);
            && s.h.durable == |s.h.writes| && WritesOk(g, s.h.writes) && |s.disk| == g.size && s.lh == []
            && (s.disk[b] != Promised(g, s0.disk, s.h)[b] <==> Slipped(s.h.writes, b))
  {
    hide OpsOk, CacheOk, MemoryOk, Replay;
    InitialInv(g, s0);
    RunInv(g, s0.disk, s0, run);
    var s := After(g, s0, run);
    assert s.h.writes[..s.h.durable] == s.h.writes;
    SlippedIff(g, s0.disk, s.h.writes, b);
  }

  /** That is so if and only if the last holder left bytes in the buffer that differ from those logged. */
  lemma CopySlipsIff(g: Geometry, init: Disk, s: State)
    requires Inv(g, init, s) && CanWriteLogBlock(g, s)
    ensures var b := s.lh[s.pc.t];
            && b in s.cache && s.cache[b].holder.None? && s.cache[b].data.Some? && LastWrite(s.h.writes, b).Some?
            && (Slipped(DoWriteLogBlock(g, s).h.writes, b) <==>
                  s.cache[b].data.value != LastWrite(s.h.writes, b).value.data)
            && (s.cache[b].data.value != LastWrite(s.h.writes, b).value.data ==> Loose(s, b))
  {
    hide HistoryOk, OpsOk, CacheOk;
    var b := s.lh[s.pc.t];
    LastAppend(s.h.writes, Write(s.h.nextOp, b, ReadVia(s, b), false), b);
    if !Loose(s, b) {
      CopyTidy(g, init, s);
    }
  }

  // The commit that starts in s will leave bytes in block b that nobody logged.
  ghost predicate WillSlip(s: State, b: nat) {
    if b in s.lh then LastWrite(s.h.writes, b).None? || BufOf(s, b).data != Some(LastWrite(s.h.writes, b).value.data)
    else Slipped(s.h.writes, b)
  }

  // A step of the commit in progress.
  predicate CommitStep(g: Geometry, s: State, a: Step) { !a.Crash? && !a.FinishCommit? && SoundStep(g, s, a) }

  predicate InCommit(pc: Pc) {
    pc.CopyLog? || pc.Header? || (pc.Install? && !pc.boot) || (pc.Erase? && !pc.boot) || pc.Finish?
  }

  // s is a later state of the commit that started in c.
  ghost predicate Committing(c: State, s: State, b: nat) {
    && InCommit(s.pc) && (s.pc.CopyLog? ==> s.lh == c.lh)
    && if Awaits(s, b) then BufOf(s, b).data == BufOf(c, b).data && LastWrite(s.h.writes, b) == LastWrite(c.h.writes, b)
       else Slipped(s.h.writes, b) <==> WillSlip(c, b)
  }

  // Block b is still to be copied.
  ghost predicate Awaits(s: State, b: nat) {
    s.pc.CopyLog? && exists i :: s.pc.t <= i < |s.lh| && s.lh[i] == b
  }

  lemma KeepCommitting(g: Geometry, init: Disk, c: State, s: State, a: Step, b: nat)
    requires Inv(g, init, s) && Committing(c, s, b) && Enabled(g, s, a) && CommitStep(g, s, a)
    ensures Committing(c, Apply(g, s, a), b)
  {
    hide LastWrite, Inv;
    var s' := Apply(g, s, a);
    if a.WriteLogBlock? {
      CopyCommitting(g, init, c, s, b);
    } else if s.pc.CopyLog? {
      hide Enabled, Apply;
      WaitCommitting(g, init, s, a, b);
      assert Awaits(s', b) <==> Awaits(s, b);
    } else {
      assert s'.h.writes == s.h.writes && InCommit(s'.pc) && !s'.pc.CopyLog?;
    }
  }

  // While a block waits to be copied, nothing changes its buffer.
  lemma WaitCommitting(g: Geometry, init: Disk, s: State, a: Step, b: nat)
    requires Inv(g, init, s) && s.pc.CopyLog? && Enabled(g, s, a) && CommitStep(g, s, a) && !a.WriteLogBlock?
    ensures var s' := Apply(g, s, a); s'.pc == s.pc && s'.lh == s.lh && s'.h == s.h
    ensures b in s.lh ==> BufOf(Apply(g, s, a), b).data == BufOf(s, b).data
  {
    hide HistoryOk, OpsOk, DiskOk, CacheOk;
    assert b in s.lh ==> b in Pinned(s.pc, s.lh);
  }

  lemma CopyCommitting(g: Geometry, init: Disk, c: State, s: State, b: nat)
    requires Inv(g, init, s) && Committing(c, s, b) && CanWriteLogBlock(g, s)
    ensures Committing(c, DoWriteLogBlock(g, s), b)
  {
    hide HistoryOk, OpsOk, CacheOk, LastWrite;
    var s', x, d := DoWriteLogBlock(g, s), s.lh[s.pc.t], ReadVia(s, s.lh[s.pc.t]);
    LastAppend(s.h.writes, Write(s.h.nextOp, x, d, false), b);
    CopySlipsIff(g, init, s);
    assert x == b ==> Awaits(s, b) && !Awaits(s', b);
    assert x != b ==> (Awaits(s, b) <==> Awaits(s', b)) && LastWrite(s'.h.writes, b) == LastWrite(s.h.writes, b);
  }

  lemma {:induction false} RunCommitting(g: Geometry, init: Disk, c: State, s: State, run: seq<Step>, b: nat)
    requires Inv(g, init, s) && Committing(c, s, b) && Legal(g, s, run) && Along(g, s, run, CommitStep)
    ensures Inv(g, init, After(g, s, run)) && Committing(c, After(g, s, run), b)
    decreases |run|
  {
    hide Inv, Committing, Enabled, Apply, SoundStep;
    if run != [] {
      KeepStep(g, init, s, run[0]);
      KeepCommitting(g, init, c, s, run[0], b);
      RunCommitting(g, init, c, Apply(g, s, run[0]), run[1..], b);
    }
  }

  /** Which home blocks a commit leaves with bytes that nobody logged is settled when the last end_op
      starts it: those of the group whose buffer holds, at that moment, other bytes than those logged
      last, and of the others those that an earlier commit had left so. */
  lemma CommitSlipsIff(g: Geometry, init: Disk, c: State, run: seq<Step>, b: nat)
    requires Inv(g, init, c) && c.pc == CopyLog(0) && Legal(g, c, run) && Along(g, c, run, CommitStep)
    requires After(g, c, run).pc.Finish? && g.Home(b)
    ensures var s := After(g, c, run);
            && WritesOk(g, s.h.writes) && s.h.durable == |s.h.writes| && |s.disk| == g.size
            && (s.disk[b] != Promised(g, init, s.h)[b] <==> WillSlip(c, b))
  {
    hide OpsOk, CacheOk, MemoryOk, Replay, LastWrite;
    assert b in c.lh <==> Awaits(c, b);
    RunCommitting(g, init, c, c, run, b);
    var s := After(g, c, run);
    assert s.h.writes[..s.h.durable] == s.h.writes;
    SlippedIff(g, init, s.h.writes, b);
  }

  /** If moreover no buffer is released with an unlogged change, everything logged is in its home place. */
  lemma CommitIsDurable(g: Geometry, s0: State, run: seq<Step>)
    requires Initial(g, s0) && Legal(g, s0, run) && Sound(g, s0, run) && Tidy(g, s0, run)
             && After(g, s0, run).pc.Finish?
    ensures var s := After(g, s0, run);
            && s.h.durable == |s.h.writes| && WritesOk(g, s.h.writes) && |s.disk| == g.size && s.lh == []
            && Logged(s.h.writes) == s.h.writes && HomeIs(g, s.disk, Promised(g, s0.disk, s.h), [])
  {
    hide OpsOk, CacheOk, MemoryOk, Replay, Logged;
    InitialTidy(g, s0, run);
    var s := After(g, s0, run);
    TidyPromise(g, s0.disk, s);
    AllLogged(s.h.writes);
  }

  /** The cache with the log is a flat array of blocks: whoever has a buffer locked in which nothing is
      unlogged sees the latest contents; a logged block stays cached until it is installed; and refcnt is
      exactly the number of users plus the log's pin. If no buffer is released with an unlogged change,
      the only unlogged changes are those of a buffer's present holder. */
  lemma CacheIsFlatArray(g: Geometry, s0: State, run: seq<Step>, b: nat)
    requires Initial(g, s0) && Legal(g, s0, run) && Sound(g, s0, run)
    ensures var s := After(g, s0, run);
            && WritesOk(g, s.h.writes)
            && (b in s.cache ==> g.Home(b))
            && (b in s.cache && s.cache[b].holder.Some? && !s.cache[b].unlogged ==>
                  s.cache[b].data == Some(Latest(g, s0.disk, s.h)[b]))
            && (!s.foundLog ==>
                  && (b in Pinned(s.pc, s.lh) ==> b in s.cache && s.cache[b].refcnt > 0)
                  && (b in s.cache ==>
                     s.cache[b].refcnt == |s.cache[b].users| + (if b in Pinned(s.pc, s.lh) then 1 else 0)))
            && (Tidy(g, s0, run) ==> Logged(s.h.writes) == s.h.writes && !Loose(s, b))
  {
    InitialInv(g, s0);
    RunInv(g, s0.disk, s0, run);
    if Tidy(g, s0, run) {
      InitialTidy(g, s0, run);
      AllLogged(After(g, s0, run).h.writes);
    }
  }

  // ---- Runs ----

  /** A run from s to s', every step of which is taken where `ok` allows it. */
  ghost predicate Going(g: Geometry, s: State, run: seq<Step>, s': State, ok: (Geometry, State, Step) -> bool) {
    Legal(g, s, run) && s' == After(g, s, run) && Along(g, s, run, ok)
  }

  /** Extending a run by one step that is enabled at its end. */
  lemma Then(g: Geometry, s: State, run: seq<Step>, s1: State, a: Step, ok: (Geometry, State, Step) -> bool)
    returns (run': seq<Step>, s2: State)
    requires Going(g, s, run, s1, ok) && Enabled(g, s1, a) && ok(g, s1, a)
    ensures Going(g, s, run', s2, ok) && s2 == Apply(g, s1, a) && run' == run + [a]
  {
    hide Enabled, Apply;
    assert [a][1..] == [];
    RunConcat(g, s, run, [a]);
    AlongConcat(g, s, run, [a], ok);
    run', s2 := run + [a], Apply(g, s1, a);
  }

  lemma ThenAll(g: Geometry, s: State, run: seq<Step>, s1: State, more: seq<Step>, s2: State,
                ok: (Geometry, State, Step) -> bool)
    requires Going(g, s, run, s1, ok) && Going(g, s1, more, s2, ok)
    ensures Going(g, s, run + more, s2, ok)
  {
    RunConcat(g, s, run, more);
    AlongConcat(g, s, run, more, ok);
  }

  lemma {:induction false} AlongWeaker(g: Geometry, s: State, run: seq<Step>, ok: (Geometry, State, Step) -> bool,
                                       ok': (Geometry, State, Step) -> bool)
    requires Legal(g, s, run) && Along(g, s, run, ok) && forall g, s, a :: ok(g, s, a) ==> ok'(g, s, a)
    ensures Along(g, s, run, ok')
    decreases |run|
  {
    if run != [] {
      AlongWeaker(g, Apply(g, s, run[0]), run[1..], ok, ok');
    }
  }

  // ---- The boots that break it ----

  // A step of the same boot, of a log that does not overflow, that leaves nothing unlogged behind.
  predicate BootStep(g: Geometry, s: State, a: Step) {
    !a.Crash? && !a.ReadHeader? && FitsStep(g, s, a) && TidyStep(g, s, a)
  }

  /** What one boot owes its users: whenever a commit is done, the home blocks hold what was logged, as long
      as the log does not overflow and no unlogged change is released. */
  ghost predicate KeepsPromises(g: Geometry, init: Disk, s: State)
    requires |init| == g.size
  {
    forall run, s' :: Going(g, s, run, s', BootStep) ==> CommitOk(g, init, s')
  }

  ghost predicate CommitOk(g: Geometry, init: Disk, s: State)
    requires |init| == g.size
  {
    s.pc.Finish? ==>
      && WritesOk(g, s.h.writes) && s.h.durable <= |s.h.writes| && |s.disk| == g.size
      && HomeIs(g, s.disk, Promised(g, init, s.h), [])
  }

  // A boot that found a log, back at work, with an underpinned buffer for block b.
  ghost predicate Fragile(g: Geometry, s: State, b: nat) {
    && s.pc.Idle? && |s.ops| == NPROC && s.ops[0].None? && s.outstanding == 0 && s.lh == [] && g.Capacity() >= 1
    && |s.disk| == g.size && g.Home(b) && Underpinned(s.cache, b)
    && (forall x :: x in s.cache ==> s.cache[x].holder.None?)
  }

  // An operation of process 0 that has block b locked, with a reference count of zero.
  ghost predicate Exposed(g: Geometry, s: State, b: nat) {
    && s.pc.Idle? && |s.ops| == NPROC && s.ops[0].Some? && s.ops[0].value.passed.None? && s.outstanding == 1
    && s.lh == [] && g.Capacity() >= 1 && |s.disk| == g.size && g.Home(b)
    && b in s.cache && s.cache[b].data.Some? && s.cache[b].refcnt == 0 && s.cache[b].users == {0}
    && s.cache[b].holder == Some(0)
    && (forall x :: x in s.cache && x != b ==> s.cache[x].holder.None?)
  }

  lemma Expose(g: Geometry, s: State, b: nat) returns (run: seq<Step>, s': State)
    requires Fragile(g, s, b)
    ensures Going(g, s, run, s', BootStep)
    ensures Exposed(g, s', b) && s'.disk == s.disk && s'.ops[0].value.id == s.h.nextOp
    ensures s'.h.writes == s.h.writes && s'.h.durable == s.h.durable
  {
    var s1;
    run, s1 := Then(g, s, [], s, Begin(0), BootStep);
    run, s1 := Then(g, s, run, s1, Ref(0, b), BootStep);
    run, s' := Then(g, s, run, s1, Lock(0, b), BootStep);
  }

  lemma LogExposed(g: Geometry, s: State, b: nat, d: Block) returns (run: seq<Step>, s': State)
    requires Exposed(g, s, b)
    ensures Going(g, s, run, s', BootStep)
    ensures s'.pc.Idle? && |s'.ops| == NPROC && s'.ops[0].Some? && s'.ops[0].value.passed.None? && s'.outstanding == 1
            && s'.lh == [b] && s'.disk == s.disk
    ensures b in s'.cache && s'.cache[b].refcnt == 1 && s'.cache[b].holder == Some(0) && !s'.cache[b].unlogged
    ensures forall x :: x in s'.cache && x != b ==> x in s.cache && s'.cache[x] == s.cache[x]
    ensures s'.h.writes == s.h.writes + [Write(s.ops[0].value.id, b, d, true)] && s'.h.durable == s.h.durable
  {
    var s1;
    run, s1 := Then(g, s, [], s, Modify(0, b, d), BootStep);
    run, s1 := Then(g, s, run, s1, Check(0, b), BootStep);
    run, s' := Then(g, s, run, s1, Add(0, b), BootStep);
  }

  // brelse takes the count back to zero, so the buffer can be recycled before the commit.
  lemma DropLogged(g: Geometry, s: State, b: nat) returns (run: seq<Step>, s': State)
    requires s.pc.Idle? && |s.ops| == NPROC && s.ops[0].Some? && s.ops[0].value.passed.None? && s.outstanding == 1
    requires s.lh == [b] && b in s.cache && s.cache[b].refcnt == 1 && s.cache[b].holder == Some(0)
             && !s.cache[b].unlogged
    requires forall x :: x in s.cache && x != b ==> s.cache[x].holder.None?
    ensures Going(g, s, run, s', BootStep)
    ensures s'.pc == CopyLog(0) && s'.lh == [b] && b !in s'.cache && s'.disk == s.disk
    ensures s'.h == s.h
  {
    var s1;
    run, s1 := Then(g, s, [], s, Release(0, b), BootStep);
    run, s1 := Then(g, s, run, s1, Evict(b), BootStep);
    run, s' := Then(g, s, run, s1, End(0), BootStep);
  }

  // The commit then reads the old block back from the disk and commits that.
  lemma CopyStale(g: Geometry, s: State, b: nat) returns (run: seq<Step>, s': State)
    requires s.pc == CopyLog(0) && s.lh == [b] && b !in s.cache && g.Ok() && g.Capacity() >= 1 && |s.disk| == g.size
             && g.Home(b)
    ensures Going(g, s, run, s', BootStep)
    ensures s'.pc == Install(0, false) && s'.lh == [b] && |s'.disk| == g.size && s'.disk[g.start + 1] == s.disk[b]
    ensures s'.h.writes == Copied(s.h, b, s.disk[b]).writes && s'.h.durable == |s'.h.writes| && Free(s', b)
  {
    hide EncodeHead, LastWrite;
    var s1;
    run, s1 := Then(g, s, [], s, WriteLogBlock, BootStep);
    run, s' := Then(g, s, run, s1, WriteHeader, BootStep);
  }

  lemma InstallOne(g: Geometry, s: State, b: nat, ok: (Geometry, State, Step) -> bool)
    returns (run: seq<Step>, s': State)
    requires s.pc == Install(0, false) && s.lh == [b] && g.Ok() && g.Capacity() >= 1 && |s.disk| == g.size
             && g.Home(b) && Free(s, b)
    requires ok(g, s, InstallBlock) && forall s :: ok(g, s, EraseHeader)
    ensures Going(g, s, run, s', ok)
    ensures s'.pc.Finish? && |s'.disk| == g.size && s'.disk[b] == s.disk[g.start + 1] && s'.h == s.h
  {
    hide EncodeHead;
    var s1;
    run, s1 := Then(g, s, [], s, InstallBlock, ok);
    run, s' := Then(g, s, run, s1, EraseHeader, ok);
  }

  // A slip after the last logged write leaves the promise where it was.
  lemma PromiseOf(g: Geometry, init: Disk, ws: seq<Write>, w: Write, slip: Write, h: History)
    requires |init| == g.size && WritesOk(g, ws) && g.Home(w.block) && w.logged
    requires slip.block == w.block && !slip.logged
    requires h.writes == ws + [w] || h.writes == ws + [w] + [slip]
    requires h.durable == |h.writes|
    ensures WritesOk(g, h.writes) && Promised(g, init, h)[w.block] == w.data
    ensures Logged(h.writes) == Logged(ws) + [w]
  {
    assert h.writes[..h.durable] == h.writes;
    assert (ws + [w])[..|ws|] == ws;
    LoggedOk(g, ws);
    assert Logged(ws + [w]) == Logged(ws) + [w];
    ReplayAppend(g, init, Logged(ws), w);
    if h.writes != ws + [w] {
      assert h.writes[..|ws| + 1] == ws + [w];
      assert Logged(h.writes) == Logged(ws + [w]);
    }
  }

  /** After a recovery that found a log, one operation's committed write can be lost. */
  lemma LoseWrite(g: Geometry, init: Disk, s: State, b: nat, d: Block) returns (run: seq<Step>, s': State)
    requires g.Ok() && |init| == g.size && Fragile(g, s, b) && WritesOk(g, s.h.writes) && d != s.disk[b]
    ensures Going(g, s, run, s', BootStep) && !CommitOk(g, init, s')
  {
    hide Going, LastWrite;
    var r1, s1 := Expose(g, s, b);
    var r2, s2 := LogExposed(g, s1, b, d);
    ThenAll(g, s, r1, s1, r2, s2, BootStep);
    var r3, s3 := DropLogged(g, s2, b);
    ThenAll(g, s, r1 + r2, s2, r3, s3, BootStep);
    var r4, s4 := CopyStale(g, s3, b);
    ThenAll(g, s, r1 + r2 + r3, s3, r4, s4, BootStep);
    var r5;
    r5, s' := InstallOne(g, s4, b, BootStep);
    ThenAll(g, s, r1 + r2 + r3 + r4, s4, r5, s', BootStep);
    run := r1 + r2 + r3 + r4 + r5;
    var w, slip := Write(s1.ops[0].value.id, b, d, true), Write(s3.h.nextOp, b, s.disk[b], false);
    PromiseOf(g, init, s.h.writes, w, slip, s'.h);
  }

  lemma {:induction false} SameBootSound(g: Geometry, s: State, run: seq<Step>)
    requires Legal(g, s, run) && !s.foundLog && Along(g, s, run, BootStep)
    ensures Sound(g, s, run) && Tidy(g, s, run)
    decreases |run|
  {
    if run != [] {
      SameBootSound(g, Apply(g, s, run[0]), run[1..]);
    }
  }

  /** A boot, once its recovery is done and before anything else happens, keeps its promises over all
      of its runs if and only if the recovery found an empty log: install_trans drops a pin for every
      recovered block although recovery took none (kernel/log.c:78). */
  lemma BootIsSafeIff(g: Geometry, init: Disk, s: State)
    requires Inv(g, init, s) && TidyOk(s) && s.pc.Idle?
    ensures KeepsPromises(g, init, s) <==> !s.foundLog
  {
    if s.foundLog {
      assert Fragile(g, s, SomeUnderpinned(s.cache)) by { ActiveZero(s.ops); }
      var b := SomeUnderpinned(s.cache);
      var d := OtherBlock(s.disk[b]);
      var run, s' := LoseWrite(g, init, s, b, d);
      assert Going(g, s, run, s', BootStep) && !CommitOk(g, init, s');
    } else {
      forall run, s' | Going(g, s, run, s', BootStep)
        ensures CommitOk(g, init, s')
      {
        SafeRun(g, init, s, run, s');
      }
    }
  }

  lemma SafeRun(g: Geometry, init: Disk, s: State, run: seq<Step>, s': State)
    requires Inv(g, init, s) && TidyOk(s) && !s.foundLog && Going(g, s, run, s', BootStep)
    ensures CommitOk(g, init, s')
  {
    hide OpsOk, CacheOk, MemoryOk, TidyOk;
    SameBootSound(g, s, run);
    RunInv(g, init, s, run);
    RunTidy(g, init, s, run);
    TidyPromise(g, init, s');
  }

  ghost function SomeUnderpinned(cache: map<nat, Buf>): (b: nat)
    requires exists b :: Underpinned(cache, b)
    ensures Underpinned(cache, b)
  {
    var b :| Underpinned(cache, b);
    b
  }

  ghost function OtherBlock(d: Block): (e: Block)
    ensures e != d
  {
    d[0 := d[0] + 1]
  }

  // ---- Runs from a machine that was off ----

  // The log is at work and empty, with nothing cached.
  ghost predicate Fresh(g: Geometry, s: State) {
    && g.Ok() && |s.disk| == g.size && s.disk[g.start][0] == 0 && g.start < g.size
    && s.cache == map[] && s.lh == [] && s.ops == NoOps() && s.outstanding == 0 && s.pc.Idle? && !s.foundLog
  }

  lemma PowerOn(g: Geometry, s0: State, ok: (Geometry, State, Step) -> bool) returns (run: seq<Step>, s: State)
    requires Initial(g, s0) && ok(g, s0, ReadHeader) && forall s: State | !s.foundLog :: ok(g, s, EraseHeader)
    ensures Going(g, s0, run, s, ok) && Fresh(g, s) && s.h == s0.h
    ensures forall b: nat :: g.Home(b) ==> s.disk[b] == s0.disk[b]
  {
    run, s := Then(g, s0, [], s0, ReadHeader, ok);
    run, s := Then(g, s0, run, s, EraseHeader, ok);
  }

  // An operation of process 0 that has logged d for block b and still holds it.
  ghost predicate Written(g: Geometry, s: State, b: nat, d: Block) {
    && g.Ok() && |s.disk| == g.size && g.Home(b) && g.Capacity() >= 1
    && s.pc.Idle? && |s.ops| == NPROC && s.ops[0].Some? && s.ops[0].value.passed.None? && s.outstanding == 1
    && s.lh == [b] && s.cache == map[b := Buf(Some(d), 2, {0}, Some(0), false)] && !s.foundLog
  }

  lemma LogOne(g: Geometry, s: State, b: nat, d: Block) returns (run: seq<Step>, s': State)
    requires Fresh(g, s) && g.Home(b) && g.Capacity() >= 1
    ensures Going(g, s, run, s', CalmStep) && Written(g, s', b, d) && s'.disk == s.disk
    ensures s'.h == s.h.(nextOp := s.h.nextOp + 1, writes := s.h.writes + [Write(s.h.nextOp, b, d, true)])
  {
    run, s' := Then(g, s, [], s, Begin(0), CalmStep);
    run, s' := Then(g, s, run, s', Ref(0, b), CalmStep);
    assert {} + {0} == {0};
    assert s'.cache[b] == Buf(None, 1, {0}, None, false);
    run, s' := Then(g, s, run, s', Lock(0, b), CalmStep);
    run, s' := Then(g, s, run, s', Modify(0, b, d), CalmStep);
    assert s'.cache == map[b := Buf(Some(d), 1, {0}, Some(0), true)];
    run, s' := Then(g, s, run, s', Check(0, b), CalmStep);
    run, s' := Then(g, s, run, s', Add(0, b), CalmStep);
  }

  // The end of that operation, and the commit up to its header.
  lemma CommitOne(g: Geometry, s: State, b: nat, e: Block) returns (run: seq<Step>, s': State)
    requires g.Ok() && |s.disk| == g.size && g.Home(b) && g.Capacity() >= 1
    requires s.pc.Idle? && |s.ops| == NPROC && s.ops[0].Some? && s.ops[0].value.passed.None? && s.outstanding == 1
    requires s.lh == [b] && b in s.cache && s.cache[b].data == Some(e) && s.cache[b].holder.None? && !s.foundLog
    ensures Going(g, s, run, s', CalmStep)
    ensures s'.pc == Install(0, false) && s'.lh == [b] && |s'.disk| == g.size && s'.disk[g.start + 1] == e
    ensures Encodes(s'.disk[g.start], [b]) && Free(s', b) && !s'.foundLog
    ensures s'.h.writes == Copied(s.h, b, e).writes && s'.h.durable == |s'.h.writes|
  {
    hide LastWrite;
    run, s' := Then(g, s, [], s, End(0), CalmStep);
    run, s' := Then(g, s, run, s', WriteLogBlock, CalmStep);
    run, s' := Then(g, s, run, s', WriteHeader, CalmStep);
  }

  // A step of a run in which every boot found an empty log, the log does not overflow, and nothing
  // unlogged is released.
  predicate CalmStep(g: Geometry, s: State, a: Step) { SoundStep(g, s, a) && TidyStep(g, s, a) }

  ghost predicate Encodes(head: Block, lh: seq<nat>) {
    head[0] == |lh| < WORDS && forall i :: 0 <= i < |lh| ==> head[i + 1] == lh[i]
  }

  lemma FirstLogged(g: Geometry, s0: State, b: nat, d: Block) returns (run: seq<Step>, s: State)
    requires Initial(g, s0) && g.Home(b) && g.Capacity() >= 1
    ensures Going(g, s0, run, s, CalmStep) && Written(g, s, b, d)
    ensures s.h == History([Write(0, b, d, true)], 0, 0, 1, [])
  {
    hide Going;
    var r1, s1 := PowerOn(g, s0, CalmStep);
    var r2;
    r2, s := LogOne(g, s1, b, d);
    ThenAll(g, s0, r1, s1, r2, s, CalmStep);
    run := r1 + r2;
  }

  // A crash after the commit point, and the boot that follows.
  lemma Reboot(g: Geometry, s: State, b: nat) returns (run: seq<Step>, s': State)
    requires g.Ok() && g.Home(b) && g.Capacity() >= 1 && |s.disk| == g.size && Encodes(s.disk[g.start], [b])
    requires s.h.durable == |s.h.writes|
    ensures Going(g, s, run, s', CalmStep) && s'.pc.Idle? && s'.foundLog && s'.h.writes == s.h.writes
    ensures |s'.disk| == g.size && s'.disk[b] == s.disk[g.start + 1]
  {
    hide EncodeHead;
    var head := s.disk[g.start];
    assert head[0 + 1] == [b][0];
    assert DecodeHead(head) == [b];
    run, s' := Then(g, s, [], s, Crash, CalmStep);
    run, s' := Then(g, s, run, s', ReadHeader, CalmStep);
    run, s' := Then(g, s, run, s', InstallBlock, CalmStep);
    run, s' := Then(g, s, run, s', EraseHeader, CalmStep);
  }

  // More bytes in the buffer, which are not logged, and brelse.
  lemma ReleaseLoose(g: Geometry, s: State, b: nat, d: Block, e: Block) returns (run: seq<Step>, s': State)
    requires Written(g, s, b, d)
    ensures Going(g, s, run, s', SoundStep)
    ensures s' == s.(cache := map[b := Buf(Some(e), 1, {}, None, true)])
  {
    run, s' := Then(g, s, [], s, Modify(0, b, e), SoundStep);
    run, s' := Then(g, s, run, s', Release(0, b), SoundStep);
    assert {0} - {0} == {};
  }

  /** On every disk with room for a logged block, a run in which the only logged write is committed, and
      after which the disk holds, durably, other bytes: those with which the buffer was released. */
  lemma DirtyRun(g: Geometry, s0: State, b: nat, d: Block, e: Block) returns (run: seq<Step>, s: State)
    requires Initial(g, s0) && g.Home(b) && g.Capacity() >= 1 && d != e
    ensures Legal(g, s0, run) && Sound(g, s0, run) && s == After(g, s0, run) && s.pc.Finish?
    ensures Logged(s.h.writes) == [Write(0, b, d, true)] && s.h.durable == |s.h.writes|
    ensures |s.disk| == g.size && s.disk[b] == e && Slipped(s.h.writes, b)
  {
    hide Along, Legal, After;
    var r1, s1 := FirstLogged(g, s0, b, d);
    AlongWeaker(g, s0, r1, CalmStep, SoundStep);
    var r2, s2 := ReleaseLoose(g, s1, b, d, e);
    ThenAll(g, s0, r1, s1, r2, s2, SoundStep);
    var r3, s3 := CommitOne(g, s2, b, e);
    AlongWeaker(g, s2, r3, CalmStep, SoundStep);
    ThenAll(g, s0, r1 + r2, s2, r3, s3, SoundStep);
    var r4;
    r4, s := InstallOne(g, s3, b, SoundStep);
    ThenAll(g, s0, r1 + r2 + r3, s3, r4, s, SoundStep);
    run := r1 + r2 + r3 + r4;
    PromiseOf(g, s0.disk, [], Write(0, b, d, true), Write(1, b, e, false), s.h);
  }

  /** On every disk with room for a logged block, a run in which nothing goes wrong except a crash between
      the commit point and the installation: the next boot finds the log. */
  lemma FoundLogBoot(g: Geometry, s0: State, b: nat, d: Block) returns (run: seq<Step>, s: State)
    requires Initial(g, s0) && g.Home(b) && g.Capacity() >= 1
    ensures Legal(g, s0, run) && Sound(g, s0, run) && Tidy(g, s0, run) && s == After(g, s0, run)
    ensures s.pc.Idle? && s.foundLog && s.h.writes == [Write(0, b, d, true)] && |s.disk| == g.size && s.disk[b] == d
    ensures Inv(g, s0.disk, s) && !KeepsPromises(g, s0.disk, s)
  {
    hide Along, Legal, After, Inv, KeepsPromises;
    var r2, s2 := FirstLogged(g, s0, b, d);
    var r3, s3 := Then(g, s0, r2, s2, Release(0, b), CalmStep);
    var r4, s4 := CommitOne(g, s3, b, d);
    ThenAll(g, s0, r3, s3, r4, s4, CalmStep);
    var r5;
    r5, s := Reboot(g, s4, b);
    ThenAll(g, s0, r3 + r4, s4, r5, s, CalmStep);
    run := r3 + r4 + r5;
    AlongWeaker(g, s0, run, CalmStep, SoundStep);
    AlongWeaker(g, s0, run, CalmStep, TidyStep);
    InitialTidy(g, s0, run);
    BootIsSafeIff(g, s0.disk, s);
  }
}
