/** Crash safety of the log machine: the invariant that every clean run keeps, and what follows from
    it about recovery, about operations, and about what bread returns. */
module LogCrash {
  import opened Wrappers
  import opened Numbers
  import opened LogDisk
  import opened LogProtocol

  /** All writes, done in order on the initial disk. */
  ghost function Latest(g: Geometry, init: Disk, h: History): (d: Disk)
    requires |init| == g.size && WritesOk(g, h.writes)
  {
    Replay(g, init, h.writes)
  }

  /** The writes of the group commits whose header reached the disk, done in order. */
  ghost function Committed(g: Geometry, init: Disk, h: History): (d: Disk)
    requires |init| == g.size && WritesOk(g, h.writes) && h.durable <= |h.writes|
  {
    Replay(g, init, h.writes[..h.durable])
  }

  /** What the callers of log_write were promised of it: the same without the slips. */
  ghost function Promised(g: Geometry, init: Disk, h: History): (d: Disk)
    requires |init| == g.size && WritesOk(g, h.writes) && h.durable <= |h.writes|
  {
    LoggedOk(g, h.writes[..h.durable]);
    Replay(g, init, Logged(h.writes[..h.durable]))
  }

  // ---- Counting operations ----

  ghost function Active(ops: seq<Option<Op>>): (n: nat)
  {
    if ops == [] then 0 else Active(ops[..|ops| - 1]) + (if ops[|ops| - 1].Some? then 1 else 0)
  }

  lemma {:induction false} ActiveUpdate(ops: seq<Option<Op>>, p: nat, o: Option<Op>)
    requires p < |ops|
    ensures Active(ops[p := o]) ==
            Active(ops) + (if o.Some? then 1 else 0) - (if ops[p].Some? then 1 else 0)
  {
    var n := |ops| - 1;
    if p < n {
      ActiveUpdate(ops[..n], p, o);
      assert ops[p := o][..n] == ops[..n][p := o];
    } else {
      assert ops[p := o][..n] == ops[..n];
    }
  }

  lemma {:induction false} ActiveZero(ops: seq<Option<Op>>)
    ensures Active(ops) == 0 <==> forall p :: 0 <= p < |ops| ==> ops[p].None?
  {
    if ops != [] {
      var n := |ops| - 1;
      ActiveZero(ops[..n]);
      assert forall p :: 0 <= p < n ==> ops[..n][p] == ops[p];
    }
  }

  lemma NoOpsActive()
    ensures Active(NoOps()) == 0
  {
    ActiveZero(NoOps());
  }

  // ---- The invariant ----

  ghost predicate HistoryOk(g: Geometry, h: History) {
    && WritesOk(g, h.writes) && h.durable <= |h.writes| && h.firstOp <= h.nextOp
    && (forall i :: 0 <= i < h.durable ==> h.writes[i].op < h.firstOp)
    && (forall i :: h.durable <= i < |h.writes| ==> h.firstOp <= h.writes[i].op < h.nextOp)
    && (forall i :: 0 <= i < |h.lost| ==> h.lost[i].op < h.nextOp)
    && (forall i, j :: 0 <= i < |h.lost| && 0 <= j < |h.writes| ==> h.lost[i].op != h.writes[j].op)
    && SlipsOk(h.writes)
  }

  // From position k on, the last write to a block in the header is one that was logged.
  ghost predicate ListOk(lh: seq<nat>, k: nat, h: History) {
    forall i :: k <= i < |lh| ==> LastWrite(h.writes, lh[i]).Some? && LastWrite(h.writes, lh[i]).value.logged
  }

  // Only with a log of two blocks or more can a log_write get past its test.
  ghost predicate PassedOk(g: Geometry, ops: seq<Option<Op>>) {
    forall p :: 0 <= p < |ops| && ops[p].Some? && ops[p].value.passed.Some? ==> g.nlog >= 2
  }

  // Operations in progress are in the current group and are not among the lost ones.
  ghost predicate OpsOk(ops: seq<Option<Op>>, outstanding: nat, pc: Pc, h: History) {
    && |ops| == NPROC && outstanding == Active(ops)
    && (!pc.Idle? ==> forall p :: 0 <= p < NPROC ==> ops[p].None?)
    && (forall p :: 0 <= p < NPROC && ops[p].Some? ==> h.firstOp <= ops[p].value.id < h.nextOp)
    && (forall i, p :: 0 <= i < |h.lost| && 0 <= p < NPROC && ops[p].Some? ==> h.lost[i].op != ops[p].value.id)
  }

  // The logged blocks whose buffers hold the log's extra reference.
  ghost function Pinned(pc: Pc, lh: seq<nat>): (r: seq<nat>) {
    if pc.Install? && pc.t <= |lh| then lh[pc.t..] else if pc.Erase? then [] else lh
  }

  ghost predicate BufOk(f: Buf, b: nat, latest: Disk)
    requires b < |latest|
  {
    && (f.data.Some? && !f.unlogged ==> f.data.value == latest[b])
    && (f.unlogged ==> f.data.Some?)
    && (f.holder.Some? ==> f.data.Some? && f.holder.value in f.users)
    && (forall p :: p in f.users ==> p < NPROC)
  }

  ghost predicate CacheOk(g: Geometry, cache: map<nat, Buf>, latest: Disk)
    requires |latest| == g.size
  {
    forall b :: b in cache ==> g.Home(b) && BufOk(cache[b], b, latest)
  }

  // refcnt counts the users and the log's pin, and pinned blocks are cached.
  ghost predicate RefsOk(cache: map<nat, Buf>, pinned: seq<nat>) {
    && (forall b :: b in cache ==> cache[b].refcnt == |cache[b].users| + (if b in pinned then 1 else 0))
    && (forall b :: b in pinned ==> b in cache && cache[b].data.Some?)
  }

  ghost predicate Unused(cache: map<nat, Buf>) { forall b :: b in cache ==> cache[b].users == {} }

  // A buffer whose reference count was taken below zero.
  ghost predicate Underpinned(cache: map<nat, Buf>, b: nat) {
    b in cache && cache[b].data.Some? && cache[b].refcnt == WRAP - 1 && cache[b].users == {}
  }

  // A recovery that found a log drops pins that were never taken, so it leaves underpinned buffers.
  ghost predicate BadPins(cache: map<nat, Buf>, pc: Pc, lh: seq<nat>) {
    match pc
    case Idle => exists b :: Underpinned(cache, b)
    case Install(t, _) => t < |lh| && (forall b :: b in cache <==> b in lh[..t])
      && (forall i :: 0 <= i < t ==> Underpinned(cache, lh[i]))
    case Erase(_) => lh != [] && (forall i :: 0 <= i < |lh| ==> Underpinned(cache, lh[i]))
    case _ => true
  }

  // The reference counts are right only in a boot that found no log; in the other kind a clean run
  // leaves the file system alone.
  ghost predicate MemoryOk(cache: map<nat, Buf>, outstanding: nat, pc: Pc, lh: seq<nat>, foundLog: bool) {
    && (!foundLog ==> RefsOk(cache, Pinned(pc, lh)))
    && (foundLog ==> outstanding == 0 && Unused(cache) && (InBoot(pc) || (pc.Idle? && lh == [])))
    && (InBoot(pc) ==> outstanding == 0 && Unused(cache))
    && (pc.Boot? ==> cache == map[] && lh == [] && !foundLog)
    && (foundLog ==> BadPins(cache, pc, lh))
  }

  ghost predicate InBoot(pc: Pc) { pc.Boot? || (pc.Install? && pc.boot) || (pc.Erase? && pc.boot) }

  // Every block of the current, not yet committed group is in the in-memory header.
  ghost predicate GroupOk(lh: seq<nat>, h: History) {
    forall i :: h.durable <= i < |h.writes| ==> h.writes[i].block in lh
  }

  ghost predicate LogHolds(g: Geometry, disk: Disk, lh: seq<nat>, n: nat, target: Disk)
    requires |disk| == g.size == |target| && g.Ok() && g.HomeList(lh) && n <= |lh|
  {
    forall i :: 0 <= i < n ==> disk[g.start + 1 + i] == target[lh[i]]
  }

  ghost predicate HomeIs(g: Geometry, disk: Disk, target: Disk, except: seq<nat>)
    requires |disk| == g.size == |target|
  {
    forall b: nat :: g.Home(b) && b !in except ==> disk[b] == target[b]
  }

  ghost predicate HeadIs(b: Block, lh: seq<nat>) {
    && 0 <= b[0] < WORDS
    && (forall i :: 1 <= i <= b[0] ==> b[i] >= 0)
    && DecodeHead(b) == lh
  }

  // What the disk looks like at each point of commit and recovery.
  ghost predicate DiskOk(g: Geometry, disk: Disk, lh: seq<nat>, pc: Pc, h: History, committed: Disk, latest: Disk)
    requires |disk| == g.size == |committed| == |latest| && g.Ok() && g.HomeList(lh)
  {
    match pc
    case Boot =>
      && h.durable == |h.writes|
      && exists onDisk ::
           && HeadIs(disk[g.start], onDisk) && g.HomeList(onDisk)
           && LogHolds(g, disk, onDisk, |onDisk|, committed) && HomeIs(g, disk, committed, onDisk)
    case Idle =>
      HeadIs(disk[g.start], []) && HomeIs(g, disk, committed, []) && GroupOk(lh, h) && ListOk(lh, 0, h)
    case CopyLog(t) =>
      && HeadIs(disk[g.start], []) && HomeIs(g, disk, committed, []) && GroupOk(lh, h)
      && t < |lh| && LogHolds(g, disk, lh, t, latest) && ListOk(lh, t, h)
    case Header =>
      && HeadIs(disk[g.start], []) && HomeIs(g, disk, committed, []) && GroupOk(lh, h)
      && lh != [] && LogHolds(g, disk, lh, |lh|, latest)
    case Install(t, _) =>
      && HeadIs(disk[g.start], lh) && t < |lh| && LogHolds(g, disk, lh, |lh|, committed)
      && HomeIs(g, disk, committed, lh[t..]) && h.durable == |h.writes|
    case Erase(_) =>
      && HeadIs(disk[g.start], lh) && LogHolds(g, disk, lh, |lh|, committed)
      && HomeIs(g, disk, committed, []) && h.durable == |h.writes|
    case Finish => HeadIs(disk[g.start], []) && HomeIs(g, disk, committed, []) && lh == [] && h.durable == |h.writes|
  }

  ghost predicate Inv(g: Geometry, init: Disk, s: State) {
    && g.Ok() && |init| == g.size == |s.disk| && g.HomeList(s.lh) && (s.foundLog ==> g.Capacity() >= 1)
    && HistoryOk(g, s.h)
    && OpsOk(s.ops, s.outstanding, s.pc, s.h) && PassedOk(g, s.ops)
    && CacheOk(g, s.cache, Latest(g, init, s.h))
    && MemoryOk(s.cache, s.outstanding, s.pc, s.lh, s.foundLog)
    && DiskOk(g, s.disk, s.lh, s.pc, s.h, Committed(g, init, s.h), Latest(g, init, s.h))
  }

  // ---- Every step keeps it ----

  lemma InitialInv(g: Geometry, s: State)
    requires Initial(g, s)
    ensures Inv(g, s.disk, s)
  {
    NoOpsActive();
    assert HeadIs(s.disk[g.start], []);
    assert g.HomeList([]);
  }

  // Replacing one buffer keeps what is said of the cache.

  lemma CachePut(g: Geometry, cache: map<nat, Buf>, latest: Disk, b: nat, f: Buf)
    requires |latest| == g.size && CacheOk(g, cache, latest) && g.Home(b) && BufOk(f, b, latest)
    ensures CacheOk(g, cache[b := f], latest)
  {
  }

  lemma RefsPut(cache: map<nat, Buf>, pinned: seq<nat>, b: nat, f: Buf)
    requires RefsOk(cache, pinned) && f.refcnt == |f.users| + (if b in pinned then 1 else 0)
    requires b in pinned ==> f.data.Some?
    ensures RefsOk(cache[b := f], pinned)
  {
  }

  lemma KeepBegin(g: Geometry, init: Disk, s: State, p: nat)
    requires Inv(g, init, s) && CanBegin(s, p) && !s.foundLog
    ensures Inv(g, init, DoBegin(s, p))
  {
    var s' := DoBegin(s, p);
    ActiveUpdate(s.ops, p, s'.ops[p]);
    assert OpsOk(s'.ops, s'.outstanding, s'.pc, s'.h);
  }

  /** At most NPROC processes can use a buffer, so that refcnt does not wrap upwards. */
  lemma UsersBound(users: set<nat>)
    requires forall p :: p in users ==> p < NPROC
    ensures |users| <= NPROC
  {
    FewerThan(users, 0, NPROC);
  }

  lemma KeepRef(g: Geometry, init: Disk, s: State, p: nat, b: nat)
    requires Inv(g, init, s) && CanRef(g, s, p, b) && !s.foundLog
    ensures Inv(g, init, DoRef(s, p, b))
  {
    var f := DoRef(s, p, b).cache[b];
    UsersBound(BufOf(s, b).users);
    assert f.users - {p} == BufOf(s, b).users;
    CachePut(g, s.cache, Latest(g, init, s.h), b, f);
    RefsPut(s.cache, Pinned(s.pc, s.lh), b, f);
  }

  /** Through the cache, a home block that nobody is changing reads as the latest logged contents. */
  lemma ReadViaIsLatest(g: Geometry, init: Disk, s: State, b: nat)
    requires Inv(g, init, s) && !InBoot(s.pc) && g.Home(b)
    requires b in s.cache ==> !s.cache[b].unlogged
    ensures ReadVia(s, b) == Latest(g, init, s.h)[b]
  {
    if b !in s.cache || s.cache[b].data.None? {
      assert b !in Pinned(s.pc, s.lh);
      if s.h.durable == |s.h.writes| {
        assert s.h.writes[..s.h.durable] == s.h.writes;
      } else {
        ReplayUntouched(g, init, s.h.writes, s.h.durable, b);
      }
    }
  }

  lemma KeepLock(g: Geometry, init: Disk, s: State, p: nat, b: nat)
    requires Inv(g, init, s) && CanLock(s, p, b)
    ensures Inv(g, init, DoLock(s, p, b))
  {
    if !s.cache[b].unlogged {
      ReadViaIsLatest(g, init, s, b);
    }
  }

  lemma KeepModify(g: Geometry, init: Disk, s: State, p: nat, b: nat, d: Block)
    requires Inv(g, init, s) && CanModify(s, p, b)
    ensures Inv(g, init, DoModify(s, p, b, d))
  {
  }

  // log_write makes the holder's data the latest contents of its block.
  lemma CacheLog(g: Geometry, cache: map<nat, Buf>, latest: Disk, b: nat, f: Buf)
    requires |latest| == g.size && CacheOk(g, cache, latest) && g.Home(b)
    requires f.data.Some? && BufOk(f, b, latest[b := f.data.value])
    ensures CacheOk(g, cache[b := f], latest[b := f.data.value])
  {
  }

  lemma RefsPin(cache: map<nat, Buf>, pinned: seq<nat>, b: nat, f: Buf)
    requires RefsOk(cache, pinned) && b !in pinned && f.refcnt == |f.users| + 1 && f.data.Some?
    ensures RefsOk(cache[b := f], pinned + [b])
  {
  }

  lemma HistoryLog(g: Geometry, h: History, ops: seq<Option<Op>>, outstanding: nat, w: Write, p: nat, op: Op)
    requires HistoryOk(g, h) && g.Home(w.block) && w.logged && OpsOk(ops, outstanding, Idle, h)
    requires p < NPROC && ops[p].Some? && ops[p].value.id == w.op == op.id
    ensures HistoryOk(g, h.(writes := h.writes + [w]))
    ensures OpsOk(ops[p := Some(op)], outstanding, Idle, h.(writes := h.writes + [w]))
  {
    ActiveUpdate(ops, p, Some(op));
    SlipsAppend(h.writes, w);
  }

  lemma KeepCheck(g: Geometry, init: Disk, s: State, p: nat, b: nat)
    requires Inv(g, init, s) && CanCheck(g, s, p, b)
    ensures Inv(g, init, DoCheck(s, p, b))
  {
    hide CacheOk, MemoryOk, DiskOk;
    ActiveUpdate(s.ops, p, DoCheck(s, p, b).ops[p]);
  }

  lemma AddCache(g: Geometry, init: Disk, s: State, p: nat, b: nat)
    requires Inv(g, init, s) && CanAdd(s, p, b)
    ensures var s' := DoAdd(s, p, b);
            WritesOk(g, s'.h.writes) && CacheOk(g, s'.cache, Latest(g, init, s'.h))
  {
    hide Replay, DecodeHead, Active, RefsOk, DiskOk;
    var s' := DoAdd(s, p, b);
    ReplayAppend(g, init, s.h.writes, Write(s.ops[p].value.id, b, s.cache[b].data.value, true));
    CacheLog(g, s.cache, Latest(g, init, s.h), b, s'.cache[b]);
  }

  lemma AddMemory(g: Geometry, init: Disk, s: State, p: nat, b: nat)
    requires Inv(g, init, s) && CanAdd(s, p, b)
    ensures var s' := DoAdd(s, p, b);
            MemoryOk(s'.cache, s'.outstanding, s'.pc, s'.lh, s'.foundLog)
  {
    var f := DoAdd(s, p, b).cache[b];
    ActiveZero(s.ops);
    UsersBound(s.cache[b].users);
    if b in s.lh {
      RefsPut(s.cache, s.lh, b, f);
    } else {
      RefsPin(s.cache, s.lh, b, f);
    }
  }

  lemma AddDisk(g: Geometry, disk: Disk, lh: seq<nat>, h: History, w: Write, committed: Disk, latest: Disk,
                latest': Disk)
    requires |disk| == g.size == |committed| == |latest| == |latest'| && g.Ok() && g.HomeList(lh) && w.logged
    requires DiskOk(g, disk, lh, Idle, h, committed, latest) && g.Home(w.block)
             && (w.block in lh || |lh| < g.Capacity())
    ensures var lh' := if w.block in lh then lh else lh + [w.block];
            g.HomeList(lh') && DiskOk(g, disk, lh', Idle, h.(writes := h.writes + [w]), committed, latest')
  {
    var lh' := if w.block in lh then lh else lh + [w.block];
    forall i | 0 <= i < |lh'|
      ensures var l := LastWrite(h.writes + [w], lh'[i]); l.Some? && l.value.logged
    {
      LastAppend(h.writes, w, lh'[i]);
    }
  }

  lemma KeepAdd(g: Geometry, init: Disk, s: State, p: nat, b: nat)
    requires Inv(g, init, s) && CanAdd(s, p, b) && (b in s.lh || |s.lh| < g.Capacity())
    ensures Inv(g, init, DoAdd(s, p, b))
  {
    hide OpsOk, MemoryOk, DiskOk, SlipsOk;
    var s' := DoAdd(s, p, b);
    var w := Write(s.ops[p].value.id, b, s.cache[b].data.value, true);
    assert s'.h == s.h.(writes := s.h.writes + [w]);
    assert s'.h.writes[..s.h.durable] == s.h.writes[..s.h.durable];
    assert p < NPROC by { OpsTable(s.ops, s.outstanding, s.pc, s.h); }
    AddCache(g, init, s, p, b);
    AddMemory(g, init, s, p, b);
    HistoryLog(g, s.h, s.ops, s.outstanding, w, p, s'.ops[p].value);
    AddDisk(g, s.disk, s.lh, s.h, w, Committed(g, init, s.h), Latest(g, init, s.h), Latest(g, init, s'.h));
  }

  lemma OpsTable(ops: seq<Option<Op>>, outstanding: nat, pc: Pc, h: History)
    requires OpsOk(ops, outstanding, pc, h)
    ensures |ops| == NPROC
  {
  }

  lemma KeepRelease(g: Geometry, init: Disk, s: State, p: nat, b: nat)
    requires Inv(g, init, s) && CanRelease(s, p, b)
    ensures Inv(g, init, DoRelease(s, p, b))
  {
  }

  lemma KeepEvict(g: Geometry, init: Disk, s: State, b: nat)
    requires Inv(g, init, s) && CanEvict(s, b)
    ensures Inv(g, init, DoEvict(s, b))
  {
    if s.foundLog {
      var x :| Underpinned(s.cache, x);
      assert Underpinned(DoEvict(s, b).cache, x);
    }
  }

  lemma EndDisk(g: Geometry, disk: Disk, lh: seq<nat>, h: History, committed: Disk, latest: Disk)
    requires |disk| == g.size == |committed| == |latest| && g.Ok() && g.HomeList(lh) && h.durable <= |h.writes|
    requires DiskOk(g, disk, lh, Idle, h, committed, latest)
    ensures DiskOk(g, disk, lh, if lh == [] then Finish else CopyLog(0), h, committed, latest)
  {
    assert h.durable < |h.writes| ==> h.writes[h.durable].block in lh;
  }

  lemma KeepEnd(g: Geometry, init: Disk, s: State, p: nat)
    requires Inv(g, init, s) && CanEnd(s, p)
    ensures Inv(g, init, DoEnd(s, p))
  {
    hide DiskOk;
    ActiveUpdate(s.ops, p, None);
    ActiveZero(s.ops[p := None]);
    EndDisk(g, s.disk, s.lh, s.h, Committed(g, init, s.h), Latest(g, init, s.h));
  }

  // The history after a copy: what the copied block reads as is its latest contents.
  lemma CopiedHistory(g: Geometry, init: Disk, h: History, b: nat, d: Block)
    requires HistoryOk(g, h) && |init| == g.size && g.Home(b)
    requires LastWrite(h.writes, b).Some? && LastWrite(h.writes, b).value.logged
    ensures HistoryOk(g, Copied(h, b, d)) && Latest(g, init, Copied(h, b, d)) == Latest(g, init, h)[b := d]
    ensures Committed(g, init, Copied(h, b, d)) == Committed(g, init, h)
  {
    var h' := Copied(h, b, d);
    assert h'.writes[..h.durable] == h.writes[..h.durable];
    ReplayLast(g, init, h.writes, b);
    if h' != h {
      var w := Write(h.nextOp, b, d, false);
      ReplayAppend(g, init, h.writes, w);
      SlipsAppend(h.writes, w);
    }
  }

  lemma LogBlockDisk(g: Geometry, disk: Disk, lh: seq<nat>, t: nat, h: History, committed: Disk, latest: Disk, d: Block)
    requires |disk| == g.size == |committed| == |latest| && g.Ok() && g.HomeList(lh) && t < |lh|
    requires DiskOk(g, disk, lh, CopyLog(t), h, committed, latest)
    ensures DiskOk(g, disk[g.start + 1 + t := d], lh, if t + 1 == |lh| then Header else CopyLog(t + 1),
                   Copied(h, lh[t], d), committed, latest[lh[t] := d])
  {
    var h' := Copied(h, lh[t], d);
    forall i | t + 1 <= i < |lh|
      ensures LastWrite(h'.writes, lh[i]) == LastWrite(h.writes, lh[i])
    {
      LastAppend(h.writes, Write(h.nextOp, lh[t], d, false), lh[i]);
    }
  }

  lemma LogBlockMemory(g: Geometry, s: State)
    requires CanWriteLogBlock(g, s) && MemoryOk(s.cache, s.outstanding, s.pc, s.lh, s.foundLog)
    ensures var s' := DoWriteLogBlock(g, s);
            MemoryOk(s'.cache, s'.outstanding, s'.pc, s'.lh, s'.foundLog)
  {
    var b := s.lh[s.pc.t];
    RefsPut(s.cache, s.lh, b, DoWriteLogBlock(g, s).cache[b]);
  }

  lemma KeepWriteLogBlock(g: Geometry, init: Disk, s: State)
    requires Inv(g, init, s) && CanWriteLogBlock(g, s)
    ensures Inv(g, init, DoWriteLogBlock(g, s))
  {
    hide MemoryOk, SlipsOk, Replay;
    var b, d := s.lh[s.pc.t], ReadVia(s, s.lh[s.pc.t]);
    CopiedHistory(g, init, s.h, b, d);
    LogBlockDisk(g, s.disk, s.lh, s.pc.t, s.h, Committed(g, init, s.h), Latest(g, init, s.h), d);
    LogBlockMemory(g, s);
    CacheLog(g, s.cache, Latest(g, init, s.h), b, DoWriteLogBlock(g, s).cache[b]);
  }

  lemma HeaderDisk(g: Geometry, init: Disk, disk: Disk, lh: seq<nat>, h: History, h': History)
    requires |init| == g.size == |disk| && g.Ok() && g.HomeList(lh) && WritesOk(g, h.writes) && h.durable <= |h.writes|
    requires DiskOk(g, disk, lh, Header, h, Committed(g, init, h), Latest(g, init, h))
    requires h'.writes == h.writes && h'.durable == |h.writes|
    ensures DiskOk(g, disk[g.start := EncodeHead(disk[g.start], lh)], lh, Install(0, false), h',
                   Latest(g, init, h), Latest(g, init, h))
  {
    hide EncodeHead, DecodeHead;
    HeadRoundTrip(disk[g.start], lh);
    assert lh[0..] == lh;
    forall b: nat | g.Home(b) && b !in lh
      ensures disk[b] == Latest(g, init, h)[b]
    {
      ReplayUntouched(g, init, h.writes, h.durable, b);
    }
  }

  lemma KeepWriteHeader(g: Geometry, init: Disk, s: State)
    requires Inv(g, init, s) && CanWriteHeader(g, s)
    ensures Inv(g, init, DoWriteHeader(g, s))
  {
    hide DiskOk, CacheOk;
    HeaderDisk(g, init, s.disk, s.lh, s.h, DoWriteHeader(g, s).h);
    assert s.h.writes[..|s.h.writes|] == s.h.writes;
    assert s.lh[0..] == s.lh;
  }

  // Installing one more block: the disk, and the buffer that gives up its pin.
  lemma InstallDisk(g: Geometry, disk: Disk, lh: seq<nat>, t: nat, target: Disk)
    requires |disk| == g.size == |target| && g.Ok() && g.HomeList(lh) && t < |lh|
    requires LogHolds(g, disk, lh, |lh|, target) && HomeIs(g, disk, target, lh[t..])
    ensures var disk' := disk[lh[t] := disk[g.start + 1 + t]];
            LogHolds(g, disk', lh, |lh|, target) && HomeIs(g, disk', target, lh[t + 1..])
              && disk'[g.start] == disk[g.start]
  {
    assert forall b :: b in lh[t..] ==> b == lh[t] || b in lh[t + 1..];
  }

  lemma RefsUnpin(cache: map<nat, Buf>, lh: seq<nat>, t: nat, f: Buf)
    requires t < |lh| && (forall i, j :: 0 <= i < j < |lh| ==> lh[i] != lh[j])
    requires RefsOk(cache, lh[t..]) && f.refcnt == |f.users| && f.data.Some?
    ensures RefsOk(cache[lh[t] := f], lh[t + 1..])
  {
    assert lh[t] !in lh[t + 1..];
    assert forall b :: b in lh[t..] <==> b == lh[t] || b in lh[t + 1..];
  }

  lemma InstallCache(g: Geometry, s: State, latest: Disk)
    requires |s.disk| == g.size == |latest| && g.Ok() && g.HomeList(s.lh) && CanInstallBlock(g, s)
    requires CacheOk(g, s.cache, latest) && LogHolds(g, s.disk, s.lh, |s.lh|, latest)
    ensures var s' := DoInstallBlock(g, s);
            CacheOk(g, s'.cache, latest)
  {
    CachePut(g, s.cache, latest, s.lh[s.pc.t], DoInstallBlock(g, s).cache[s.lh[s.pc.t]]);
  }

  lemma InstallBadPins(g: Geometry, s: State)
    requires g.HomeList(s.lh) && CanInstallBlock(g, s) && s.pc.boot && BadPins(s.cache, s.pc, s.lh)
    ensures var s' := DoInstallBlock(g, s);
            BadPins(s'.cache, s'.pc, s'.lh)
  {
    var t, s' := s.pc.t, DoInstallBlock(g, s);
    assert s.lh[t] !in s.lh[..t];
    assert Underpinned(s'.cache, s.lh[t]);
    assert forall i :: 0 <= i < t ==> Underpinned(s'.cache, s.lh[i]);
    assert s.lh[..t + 1] == s.lh[..t] + [s.lh[t]];
  }

  lemma InstallMemory(g: Geometry, s: State)
    requires g.HomeList(s.lh) && CanInstallBlock(g, s)
    requires MemoryOk(s.cache, s.outstanding, s.pc, s.lh, s.foundLog)
    ensures var s' := DoInstallBlock(g, s);
            MemoryOk(s'.cache, s'.outstanding, s'.pc, s'.lh, s'.foundLog)
  {
    hide BadPins;
    var f, t := DoInstallBlock(g, s).cache[s.lh[s.pc.t]], s.pc.t;
    if !s.foundLog {
      assert s.lh[t] in s.lh[t..];
      RefsUnpin(s.cache, s.lh, t, f);
      assert s.lh[|s.lh|..] == [];
    } else {
      InstallBadPins(g, s);
    }
  }

  lemma InstallKeepsDisk(g: Geometry, s: State, committed: Disk, latest: Disk)
    requires |s.disk| == g.size == |committed| == |latest| && g.Ok() && g.HomeList(s.lh) && CanInstallBlock(g, s)
    requires DiskOk(g, s.disk, s.lh, s.pc, s.h, committed, latest)
    ensures var s' := DoInstallBlock(g, s);
            DiskOk(g, s'.disk, s'.lh, s'.pc, s'.h, committed, latest)
  {
    hide LogHolds, HomeIs, HeadIs;
    InstallDisk(g, s.disk, s.lh, s.pc.t, committed);
    assert s.lh[|s.lh|..] == [];
  }

  lemma KeepInstallBlock(g: Geometry, init: Disk, s: State)
    requires Inv(g, init, s) && CanInstallBlock(g, s)
    ensures Inv(g, init, DoInstallBlock(g, s))
  {
    hide CacheOk, MemoryOk, HomeIs, DecodeHead, Replay;
    assert s.h.writes[..|s.h.writes|] == s.h.writes;
    InstallCache(g, s, Latest(g, init, s.h));
    InstallMemory(g, s);
    InstallKeepsDisk(g, s, Committed(g, init, s.h), Latest(g, init, s.h));
  }

  lemma KeepEraseHeader(g: Geometry, init: Disk, s: State)
    requires Inv(g, init, s) && CanEraseHeader(g, s)
    ensures Inv(g, init, DoEraseHeader(g, s))
  {
    HeadRoundTrip(s.disk[g.start], []);
    if s.foundLog {
      assert Underpinned(s.cache, s.lh[0]);
    }
  }

  // At every point, the header on the disk and the blocks it names determine the committed contents.
  lemma CrashDisk(g: Geometry, disk: Disk, lh: seq<nat>, pc: Pc, h: History, committed: Disk, latest: Disk)
    returns (onDisk: seq<nat>)
    requires |disk| == g.size == |committed| == |latest| && g.Ok() && g.HomeList(lh)
    requires DiskOk(g, disk, lh, pc, h, committed, latest)
    ensures HeadIs(disk[g.start], onDisk) && g.HomeList(onDisk)
    ensures LogHolds(g, disk, onDisk, |onDisk|, committed) && HomeIs(g, disk, committed, onDisk)
  {
    assert g.HomeList([]);
    if pc.Boot? {
      onDisk :|
        && HeadIs(disk[g.start], onDisk) && g.HomeList(onDisk)
        && LogHolds(g, disk, onDisk, |onDisk|, committed) && HomeIs(g, disk, committed, onDisk);
    } else if pc.Install? || pc.Erase? {
      onDisk := lh;
    } else {
      onDisk := [];
    }
  }

  lemma BootDisk(g: Geometry, s: State, committed: Disk, latest: Disk, h': History)
    requires |s.disk| == g.size == |committed| == |latest| && g.Ok() && g.HomeList(s.lh)
    requires DiskOk(g, s.disk, s.lh, s.pc, s.h, committed, latest) && h'.durable == |h'.writes|
    ensures g.HomeList([]) && DiskOk(g, s.disk, [], Boot, h', committed, committed)
  {
    var onDisk := CrashDisk(g, s.disk, s.lh, s.pc, s.h, committed, latest);
  }

  lemma KeepCrash(g: Geometry, init: Disk, s: State)
    requires Inv(g, init, s)
    ensures Inv(g, init, DoCrash(s))
  {
    hide DiskOk;
    NoOpsActive();
    SlipsPrefix(s.h.writes, s.h.durable);
    assert s.h.writes[..s.h.durable][..s.h.durable] == s.h.writes[..s.h.durable];
    BootDisk(g, s, Committed(g, init, s.h), Latest(g, init, s.h), DoCrash(s).h);
  }

  lemma KeepFinish(g: Geometry, init: Disk, s: State)
    requires Inv(g, init, s) && s.pc.Finish?
    ensures Inv(g, init, s.(pc := Idle))
  {
  }

  lemma KeepReadHeader(g: Geometry, init: Disk, s: State)
    requires Inv(g, init, s) && CanReadHeader(g, s)
    ensures Inv(g, init, DoReadHeader(g, s))
  {
  }
}
