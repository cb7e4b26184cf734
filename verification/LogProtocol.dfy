/** The redo log and the buffer cache under it (kernel/log.c, kernel/bio.c) as a state machine.
    A step is one critical section, one single-block disk write, or a crash; processes interleave
    freely. Apply says what a step does, Enabled when the code can do it. */
module LogProtocol {
  import opened Wrappers
  import opened Numbers
  import opened LogDisk

  /** A cached block. `data` is None until the block is read (valid == 0); `users` are the
      processes between bget and brelse, of which `holder` has the sleep lock; `unlogged` says that
      a holder changed the data and that log_write has not been called for the block since. */
  datatype Buf = Buf(data: Option<Block>, refcnt: nat, users: set<nat>, holder: Option<nat>, unlogged: bool)

  /** A file-system operation between begin_op and end_op: its identity, how many log_write calls
      it made, and how many of them added a block to the log. `passed` is the block for which it is
      inside log_write, past the test that the log has room, which is made without log.lock. */
  datatype Op = Op(id: nat, calls: nat, added: nat, passed: Option<nat>)

  /** Where the log is: Idle when log.committing is 0, otherwise inside commit() or, when `boot`,
      inside recover_from_log(). */
  datatype Pc =
    | Boot
    | Idle
    | CopyLog(t: nat)
    | Header
    | Install(t: nat, boot: bool)
    | Erase(boot: bool)
    | Finish

  /** What happened so far, for stating properties: all writes, logged or slips, that no crash
      discarded, how many of them a written header covers, the first operation number after those, the next
      operation number, and the writes that crashes discarded. */
  datatype History = History(writes: seq<Write>, durable: nat, firstOp: nat, nextOp: nat, lost: seq<Write>)

  /** `foundLog` says that the recovery of this boot found a header with entries. */
  datatype State = State(disk: Disk, cache: map<nat, Buf>, lh: seq<nat>, ops: seq<Option<Op>>, outstanding: nat,
                         pc: Pc, foundLog: bool, h: History)

  datatype Step =
    | Begin(p: nat)
    | Ref(p: nat, b: nat)
    | Lock(p: nat, b: nat)
    | Modify(p: nat, b: nat, d: Block)
    | Check(p: nat, b: nat)
    | Add(p: nat, b: nat)
    | Release(p: nat, b: nat)
    | Evict(b: nat)
    | End(p: nat)
    | WriteLogBlock
    | WriteHeader
    | InstallBlock
    | EraseHeader
    | FinishCommit
    | Crash
    | ReadHeader

  predicate Up(s: State) { !s.pc.Boot? && !(s.pc.Install? && s.pc.boot) && !(s.pc.Erase? && s.pc.boot) }

  predicate Holds(s: State, p: nat, b: nat) { b in s.cache && s.cache[b].holder == Some(p) }

  predicate InOp(s: State, p: nat) { p < |s.ops| && s.ops[p].Some? }

  // p is inside log_write, between its test and its critical section.
  predicate Busy(s: State, p: nat) { InOp(s, p) && s.ops[p].value.passed.Some? }

  /** The panic "too big a transaction" of log_write. */
  predicate TooBig(g: Geometry, s: State) { |s.lh| >= LOGSIZE || |s.lh| >= g.nlog - 1 }

  predicate Free(s: State, b: nat) { b !in s.cache || s.cache[b].holder.None? }

  /** What bread returns for b. */
  function ReadVia(s: State, b: nat): (d: Block)
    requires b < |s.disk|
  {
    if b in s.cache && s.cache[b].data.Some? then s.cache[b].data.value else s.disk[b]
  }

  function BufOf(s: State, b: nat): (f: Buf) {
    if b in s.cache then s.cache[b] else Buf(None, 0, {}, None, false)
  }

  function NoOps(): (ops: seq<Option<Op>>) { seq(NPROC, _ => None) }

  // begin_op, past its waiting loop.
  predicate CanBegin(s: State, p: nat) {
    s.pc.Idle? && p < |s.ops| && s.ops[p].None? && |s.lh| + (s.outstanding + 1) * MAXOPBLOCKS <= LOGSIZE
  }

  function DoBegin(s: State, p: nat): (s': State)
    requires CanBegin(s, p)
  {
    s.(ops := s.ops[p := Some(Op(s.h.nextOp, 0, 0, None))], outstanding := s.outstanding + 1,
    h := s.h.(nextOp := s.h.nextOp + 1))
  }

  // bget's search: a reference to the cached block, or a fresh buffer for it.
  predicate CanRef(g: Geometry, s: State, p: nat, b: nat) {
    Up(s) && p < NPROC && !Busy(s, p) && g.Home(b) && (b in s.cache ==> p !in s.cache[b].users)
  }

  function DoRef(s: State, p: nat, b: nat): (s': State) {
    var f := BufOf(s, b);
    s.(cache := s.cache[b := f.(refcnt := Inc(f.refcnt), users := f.users + {p})])
  }

  // The rest of bread: the sleep lock, and the disk read if the buffer is not valid.
  predicate CanLock(s: State, p: nat, b: nat) {
    Up(s) && !Busy(s, p) && b in s.cache && p in s.cache[b].users && s.cache[b].holder.None? && b < |s.disk|
  }

  function DoLock(s: State, p: nat, b: nat): (s': State)
    requires CanLock(s, p, b)
  {
    s.(cache := s.cache[b := s.cache[b].(holder := Some(p), data := Some(ReadVia(s, b)))])
  }

  predicate CanModify(s: State, p: nat, b: nat) {
    s.pc.Idle? && InOp(s, p) && !Busy(s, p) && Holds(s, p, b) && s.cache[b].data.Some?
  }

  function DoModify(s: State, p: nat, b: nat, d: Block): (s': State)
    requires CanModify(s, p, b)
  {
    s.(cache := s.cache[b := s.cache[b].(data := Some(d), unlogged := true)])
  }

  // log_write's test, without log.lock.
  predicate CanCheck(g: Geometry, s: State, p: nat, b: nat) { CanModify(s, p, b) && !TooBig(g, s) }

  function DoCheck(s: State, p: nat, b: nat): (s': State)
    requires CanModify(s, p, b)
  {
    s.(ops := s.ops[p := Some(s.ops[p].value.(passed := Some(b)))])
  }

  // log_write's critical section, whatever has happened to the log since the test.
  predicate CanAdd(s: State, p: nat, b: nat) {
    s.pc.Idle? && InOp(s, p) && s.ops[p].value.passed == Some(b) && Holds(s, p, b) && s.cache[b].data.Some?
  }

  function DoAdd(s: State, p: nat, b: nat): (s': State)
    requires CanAdd(s, p, b)
  {
    var f := s.cache[b].(unlogged := false);
    var op := s.ops[p].value.(calls := s.ops[p].value.calls + 1, passed := None);
    var h := s.h.(writes := s.h.writes + [Write(op.id, b, f.data.value, true)]);
    if b in s.lh then // absorbed
      s.(cache := s.cache[b := f], ops := s.ops[p := Some(op)], h := h)
    else
      s.(cache := s.cache[b := f.(refcnt := Inc(f.refcnt))], lh := s.lh + [b],
      ops := s.ops[p := Some(op.(added := op.added + 1))], h := h)
  }

  // brelse, also of a buffer with a change that was not logged.
  predicate CanRelease(s: State, p: nat, b: nat) { Up(s) && !Busy(s, p) && Holds(s, p, b) }

  function DoRelease(s: State, p: nat, b: nat): (s': State)
    requires CanRelease(s, p, b)
  {
    var f := s.cache[b];
    s.(cache := s.cache[b := f.(holder := None, refcnt := Dec(f.refcnt), users := f.users - {p})])
  }

  // bget's recycling of an unreferenced buffer.
  predicate CanEvict(s: State, b: nat) { Up(s) && b in s.cache && s.cache[b].refcnt == 0 }

  function DoEvict(s: State, b: nat): (s': State) { s.(cache := s.cache - {b}) }

  // end_op's critical section; the last operation starts the commit.
  predicate CanEnd(s: State, p: nat) { s.pc.Idle? && InOp(s, p) && !Busy(s, p) && s.outstanding > 0 }

  function DoEnd(s: State, p: nat): (s': State)
    requires CanEnd(s, p)
  {
    s.(ops := s.ops[p := None], outstanding := s.outstanding - 1,
    pc := if s.outstanding > 1 then Idle else if s.lh == [] then Finish else CopyLog(0))
  }

  /** What a commit's copy of block b does to the history: bytes other than those logged last are a slip,
      as if one more operation had written them. */
  function Copied(h: History, b: nat, d: Block): (h': History) {
    var w := LastWrite(h.writes, b);
    if w.Some? && w.value.data == d then h
    else h.(writes := h.writes + [Write(h.nextOp, b, d, false)], nextOp := h.nextOp + 1)
  }

  // One iteration of write_log.
  predicate CanWriteLogBlock(g: Geometry, s: State) {
    && s.pc.CopyLog? && s.pc.t < |s.lh| && g.start + 1 + s.pc.t < |s.disk| && s.lh[s.pc.t] < |s.disk|
    && Free(s, s.lh[s.pc.t])
  }

  function DoWriteLogBlock(g: Geometry, s: State): (s': State)
    requires CanWriteLogBlock(g, s)
  {
    var t, b, d := s.pc.t, s.lh[s.pc.t], ReadVia(s, s.lh[s.pc.t]);
    s.(disk := s.disk[g.start + 1 + t := d], h := Copied(s.h, b, d),
    cache := s.cache[b := BufOf(s, b).(data := Some(d), unlogged := false)],
    pc := if t + 1 == |s.lh| then Header else CopyLog(t + 1))
  }

  // write_head in commit: the commit point.
  predicate CanWriteHeader(g: Geometry, s: State) { s.pc.Header? && |s.lh| < WORDS && g.start < |s.disk| }

  function DoWriteHeader(g: Geometry, s: State): (s': State)
    requires CanWriteHeader(g, s)
  {
    s.(disk := s.disk[g.start := EncodeHead(s.disk[g.start], s.lh)], pc := Install(0, false),
    h := s.h.(durable := |s.h.writes|, firstOp := s.h.nextOp))
  }

  // One iteration of install_trans: bread adds a reference, bunpin and brelse each drop one.
  predicate CanInstallBlock(g: Geometry, s: State) {
    && s.pc.Install? && s.pc.t < |s.lh| && g.start + 1 + s.pc.t < |s.disk| && s.lh[s.pc.t] < |s.disk|
    && Free(s, s.lh[s.pc.t])
  }

  function DoInstallBlock(g: Geometry, s: State): (s': State)
    requires CanInstallBlock(g, s)
  {
    var t, b, d := s.pc.t, s.lh[s.pc.t], s.disk[g.start + 1 + s.pc.t];
    var f := BufOf(s, b);
    s.(disk := s.disk[b := d], cache := s.cache[b := f.(data := Some(d), refcnt := Dec(f.refcnt))],
    pc := if t + 1 == |s.lh| then Erase(s.pc.boot) else Install(t + 1, s.pc.boot))
  }

  // log.lh.n = 0 and the second write_head.
  predicate CanEraseHeader(g: Geometry, s: State) { s.pc.Erase? && g.start < |s.disk| }

  function DoEraseHeader(g: Geometry, s: State): (s': State)
    requires CanEraseHeader(g, s)
  {
    s.(disk := s.disk[g.start := EncodeHead(s.disk[g.start], [])], lh := [],
    pc := if s.pc.boot then Idle else Finish)
  }

  // A crash keeps only the disk; the writes that no header covers are lost.
  predicate CanCrash(s: State) { s.h.durable <= |s.h.writes| }

  function DoCrash(s: State): (s': State)
    requires CanCrash(s)
  {
    State(s.disk, map[], [], NoOps(), 0, Boot, false,
          s.h.(writes := s.h.writes[..s.h.durable], lost := s.h.lost + s.h.writes[s.h.durable..]))
  }

  predicate CanReadHeader(g: Geometry, s: State) {
    && s.pc.Boot? && g.start < |s.disk| && 0 <= s.disk[g.start][0] < WORDS
    && forall i | 1 <= i <= s.disk[g.start][0] :: s.disk[g.start][i] >= 0
  }

  function DoReadHeader(g: Geometry, s: State): (s': State)
    requires CanReadHeader(g, s)
  {
    var lh := DecodeHead(s.disk[g.start]);
    s.(lh := lh, foundLog := lh != [], pc := if lh == [] then Erase(true) else Install(0, true))
  }

  predicate Enabled(g: Geometry, s: State, a: Step)
  {
    match a
    case Begin(p) => CanBegin(s, p)
    case Ref(p, b) => CanRef(g, s, p, b)
    case Lock(p, b) => CanLock(s, p, b)
    case Modify(p, b, _) => CanModify(s, p, b)
    case Check(p, b) => CanCheck(g, s, p, b)
    case Add(p, b) => CanAdd(s, p, b)
    case Release(p, b) => CanRelease(s, p, b)
    case Evict(b) => CanEvict(s, b)
    case End(p) => CanEnd(s, p)
    case WriteLogBlock => CanWriteLogBlock(g, s)
    case WriteHeader => CanWriteHeader(g, s)
    case InstallBlock => CanInstallBlock(g, s)
    case EraseHeader => CanEraseHeader(g, s)
    case FinishCommit => s.pc.Finish?
    case Crash => CanCrash(s)
    case ReadHeader => CanReadHeader(g, s)
  }

  function Apply(g: Geometry, s: State, a: Step): (s': State)
    requires Enabled(g, s, a)
  {
    match a
    case Begin(p) => DoBegin(s, p)
    case Ref(p, b) => DoRef(s, p, b)
    case Lock(p, b) => DoLock(s, p, b)
    case Modify(p, b, d) => DoModify(s, p, b, d)
    case Check(p, b) => DoCheck(s, p, b)
    case Add(p, b) => DoAdd(s, p, b)
    case Release(p, b) => DoRelease(s, p, b)
    case Evict(b) => DoEvict(s, b)
    case End(p) => DoEnd(s, p)
    case WriteLogBlock => DoWriteLogBlock(g, s)
    case WriteHeader => DoWriteHeader(g, s)
    case InstallBlock => DoInstallBlock(g, s)
    case EraseHeader => DoEraseHeader(g, s)
    case FinishCommit => s.(pc := Idle)
    case Crash => DoCrash(s)
    case ReadHeader => DoReadHeader(g, s)
  }

  /** A run: a sequence of steps, each enabled where it is taken. */
  ghost predicate Legal(g: Geometry, s: State, run: seq<Step>)
    decreases |run|
  {
    run != [] ==> Enabled(g, s, run[0]) && Legal(g, Apply(g, s, run[0]), run[1..])
  }

  ghost function After(g: Geometry, s: State, run: seq<Step>): (s': State)
    requires Legal(g, s, run)
    decreases |run|
  {
    if run == [] then s else After(g, Apply(g, s, run[0]), run[1..])
  }

  lemma {:induction false} RunConcat(g: Geometry, s: State, run: seq<Step>, more: seq<Step>)
    requires Legal(g, s, run) && Legal(g, After(g, s, run), more)
    ensures Legal(g, s, run + more) && After(g, s, run + more) == After(g, After(g, s, run), more)
    decreases |run|
  {
    hide Enabled, Apply;
    if run == [] {
      assert run + more == more;
    } else {
      RunConcat(g, Apply(g, s, run[0]), run[1..], more);
      assert (run + more)[1..] == run[1..] + more;
    }
  }

  /** Every step of the run is taken where `ok` allows it. */
  ghost predicate Along(g: Geometry, s: State, run: seq<Step>, ok: (Geometry, State, Step) -> bool)
    requires Legal(g, s, run)
    decreases |run|
  {
    run != [] ==> ok(g, s, run[0]) && Along(g, Apply(g, s, run[0]), run[1..], ok)
  }

  lemma {:induction false} AlongConcat(g: Geometry, s: State, run: seq<Step>, more: seq<Step>,
                                       ok: (Geometry, State, Step) -> bool)
    requires Legal(g, s, run) && Along(g, s, run, ok)
    requires Legal(g, After(g, s, run), more) && Along(g, After(g, s, run), more, ok)
    ensures Legal(g, s, run + more) && Along(g, s, run + more, ok)
    decreases |run|
  {
    hide Enabled, Apply;
    RunConcat(g, s, run, more);
    if run == [] {
      assert run + more == more;
    } else {
      AlongConcat(g, Apply(g, s, run[0]), run[1..], more, ok);
      assert (run + more)[1..] == run[1..] + more;
    }
  }

  // Every boot that goes on to use the file system found an empty log.
  predicate CleanStep(g: Geometry, s: State, a: Step) { s.foundLog ==> !a.Begin? && !a.Ref? }

  // log_write adds a block only if the log still has room for it.
  predicate FitsStep(g: Geometry, s: State, a: Step) { a.Add? && a.b !in s.lh ==> |s.lh| < g.Capacity() }

  // No buffer is released with a change that was not logged.
  predicate TidyStep(g: Geometry, s: State, a: Step) { a.Release? && a.b in s.cache ==> !s.cache[a.b].unlogged }

  predicate SoundStep(g: Geometry, s: State, a: Step) { CleanStep(g, s, a) && FitsStep(g, s, a) }

  ghost predicate Clean(g: Geometry, s: State, run: seq<Step>)
    requires Legal(g, s, run)
  {
    Along(g, s, run, CleanStep)
  }

  /** A run in which every boot that goes on to use the file system found an empty log, and in which the
      log never overflows. */
  ghost predicate Sound(g: Geometry, s: State, run: seq<Step>)
    requires Legal(g, s, run)
  {
    Along(g, s, run, SoundStep)
  }

  ghost predicate Tidy(g: Geometry, s: State, run: seq<Step>)
    requires Legal(g, s, run)
  {
    Along(g, s, run, TidyStep)
  }

  /** A machine that was off: nothing in memory, and a disk with an empty log. */
  ghost predicate Initial(g: Geometry, s: State) {
    && g.Ok() && |s.disk| == g.size
    && s == State(s.disk, map[], [], NoOps(), 0, Boot, false, History([], 0, 0, 0, []))
    && s.disk[g.start][0] == 0
  }
}
