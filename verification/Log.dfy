/** The code of kernel/log.c: the log's fields, its loops, and the disk writes they make. Each method
    is one or more steps of the machine in LogProtocol, taken without interference; `st` is the
    machine's state, which Valid ties to the fields. */
module Log {
  import opened Wrappers
  import opened Numbers
  import opened LogDisk
  import opened LogProtocol
  import opened LogCrash
  import opened LogTheorems

  class Log {
    const g: Geometry
    var disk: Disk            // the device
    var cache: map<nat, Buf>  // kernel/bio.c
    var outstanding: nat
    var committing: bool
    var n: nat                // log.lh.n
    const block: array<nat>   // log.lh.block
    ghost var st: State

    ghost predicate Valid()
      reads this, block
    {
      && block.Length == LOGSIZE && n <= LOGSIZE
      && st.disk == disk && st.cache == cache && st.outstanding == outstanding && st.lh == block[..n]
      && committing == (!InBoot(st.pc) && !st.pc.Idle?)
    }

    // No process has a buffer locked, so that the loops below need not wait.
    ghost predicate Undisturbed()
      reads this
    {
      forall b :: b in cache ==> cache[b].holder.None?
    }

    constructor (g: Geometry, disk: Disk)
      requires g.Ok() && |disk| == g.size && disk[g.start][0] == 0
      ensures Valid() && Initial(g, st) && this.g == g && st.disk == disk && fresh(block)
    {
      this.g, this.disk, cache, outstanding, committing, n := g, disk, map[], 0, false, 0;
      block := new nat[LOGSIZE];
      st := State(disk, map[], [], NoOps(), 0, Boot, false, History([], 0, 0, 0, []));
    }

    /** One pass through begin_op's loop: false means that the caller sleeps and tries again. */
    method BeginOp(p: nat) returns (admitted: bool)
      requires Valid() && (st.pc.Idle? || committing) && p < |st.ops| && st.ops[p].None?
      modifies this
      ensures Valid()
      ensures admitted <==> CanBegin(old(st), p)
      ensures st == if admitted then DoBegin(old(st), p) else old(st)
    {
      if committing {
        admitted := false;
      } else if n + (outstanding + 1) * MAXOPBLOCKS > LOGSIZE {
        admitted := false;
      } else {
        outstanding := outstanding + 1;
        st := DoBegin(st, p);
        admitted := true;
      }
    }

    /** log_write's two tests, which it makes without log.lock; `panicked` is either of its panics. */
    method TestRoom(p: nat, b: nat) returns (panicked: bool)
      requires Valid() && CanModify(st, p, b)
      modifies this`st
      ensures Valid()
      ensures panicked <==> TooBig(g, old(st)) || old(st).outstanding < 1
      ensures st == if panicked then old(st) else DoCheck(old(st), p, b)
    {
      panicked := n >= LOGSIZE || n >= g.nlog - 1 || outstanding < 1;
      if !panicked {
        st := DoCheck(st, p, b);
      }
    }

    /** log_write's critical section, with its search for an entry to absorb into, if log.lh.block has an
        entry left. */
    method AddBlock(p: nat, b: nat)
      requires Valid() && CanAdd(st, p, b) && (b in st.lh || n < LOGSIZE)
      modifies this`cache, this`n, this`st, block
      ensures Valid() && st == DoAdd(old(st), p, b)
    {
      var i := 0;
      while i < n && block[i] != b
        invariant i <= n && b !in block[..i]
      {
        i := i + 1;
      }
      assert b in block[..n] <==> i < n;
      ghost var lh := block[..n];
      cache := cache[b := cache[b].(unlogged := false)];
      block[i] := b;
      if i == n {
        cache := cache[b := cache[b].(refcnt := Inc(cache[b].refcnt))]; // bpin
        n := n + 1;
      }
      st := DoAdd(st, p, b);
      assert block[..n] == if b in lh then lh else lh + [b];
    }

    /** log_write, when no other process gets in between the two. */
    method LogWrite(p: nat, b: nat) returns (panicked: bool)
      requires Valid() && CanModify(st, p, b)
      modifies this, block
      ensures Valid()
      ensures panicked <==> TooBig(g, old(st)) || old(st).outstanding < 1
      ensures st == if panicked then old(st) else DoAdd(DoCheck(old(st), p, b), p, b)
      ensures !panicked ==> n == old(n) + if b in old(st).lh then 0 else 1
    {
      panicked := TestRoom(p, b);
      if !panicked {
        AddBlock(p, b);
      }
    }

    // The body of write_log's loop.
    method CopyToLog(tail: nat, ghost init: Disk)
      requires Valid() && Undisturbed() && Inv(g, init, st) && st.pc == CopyLog(tail)
      modifies this`disk, this`cache, this`st
      ensures Valid() && Undisturbed() && Inv(g, init, st)
      ensures CanWriteLogBlock(g, old(st)) && st == DoWriteLogBlock(g, old(st))
    {
      hide Inv;
      LoopFacts(g, init, st);
      KeepWriteLogBlock(g, init, st);
      var b := block[tail];
      var d := if b in cache && cache[b].data.Some? then cache[b].data.value else disk[b]; // bread
      var f := if b in cache then cache[b] else Buf(None, 0, {}, None, false);
      cache := cache[b := f.(data := Some(d), unlogged := false)];
      disk := disk[g.start + tail + 1 := d]; // bwrite
      st := DoWriteLogBlock(g, st);
    }

    method WriteLog(ghost init: Disk) returns (ghost run: seq<Step>)
      requires Valid() && Undisturbed() && Inv(g, init, st) && st.pc == CopyLog(0)
      modifies this`disk, this`cache, this`st
      ensures Valid() && Undisturbed() && Inv(g, init, st)
      ensures Going(g, old(st), run, st, CommitStep)
      ensures st.pc.Header? && st.lh == old(st.lh) && Logged(st.h.writes) == Logged(old(st.h.writes))
    {
      hide Inv, Going, Logged;
      run := Start(g, st);
      LoopFacts(g, init, st);
      var tail := 0;
      while tail < n
        invariant tail <= n && Valid() && Undisturbed() && Inv(g, init, st)
        invariant Going(g, old(st), run, st, CommitStep)
        invariant st.pc == (if tail == n then Header else CopyLog(tail)) && st.lh == old(st.lh)
        invariant Logged(st.h.writes) == Logged(old(st.h.writes))
      {
        ghost var s := st;
        CopyToLog(tail, init);
        CopyLogged(s.h, s.lh[s.pc.t], ReadVia(s, s.lh[s.pc.t]));
        run, s := Then(g, old(st), run, s, WriteLogBlock, CommitStep);
        tail := tail + 1;
      }
    }

    // write_head: the commit point.
    method WriteHead(ghost init: Disk)
      requires Valid() && Undisturbed() && Inv(g, init, st) && st.pc.Header?
      modifies this`disk, this`st
      ensures Valid() && Undisturbed() && Inv(g, init, st)
      ensures CanWriteHeader(g, old(st)) && st == DoWriteHeader(g, old(st))
    {
      hide Inv;
      LoopFacts(g, init, st);
      KeepWriteHeader(g, init, st);
      disk := disk[g.start := EncodeHead(disk[g.start], block[..n])];
      st := DoWriteHeader(g, st);
    }

    // The body of install_trans's loop.
    method InstallOne(tail: nat, ghost init: Disk)
      requires Valid() && Undisturbed() && Inv(g, init, st) && st.pc.Install? && st.pc.t == tail
      modifies this`disk, this`cache, this`st
      ensures Valid() && Undisturbed() && Inv(g, init, st)
      ensures CanInstallBlock(g, old(st)) && st == DoInstallBlock(g, old(st))
    {
      hide Inv;
      LoopFacts(g, init, st);
      KeepInstallBlock(g, init, st);
      var b := block[tail];
      var d := disk[g.start + tail + 1];
      var f := if b in cache then cache[b] else Buf(None, 0, {}, None, false);
      disk := disk[b := d]; // bwrite
      cache := cache[b := f.(data := Some(d), refcnt := Dec(f.refcnt))]; // bread, bunpin, brelse
      st := DoInstallBlock(g, st);
    }

    method InstallTrans(ghost init: Disk) returns (ghost run: seq<Step>)
      requires Valid() && Undisturbed() && Inv(g, init, st)
      requires st.pc.Install? && st.pc.t == 0
      modifies this`disk, this`cache, this`st
      ensures Valid() && Undisturbed() && Inv(g, init, st)
      ensures Going(g, old(st), run, st, CommitStep)
      ensures st.pc == Erase(old(st.pc.boot)) && st.h == old(st.h)
    {
      hide Inv, Going;
      run := Start(g, st);
      LoopFacts(g, init, st);
      var tail := 0;
      while tail < n
        invariant tail <= n && Valid() && Undisturbed() && Inv(g, init, st)
        invariant Going(g, old(st), run, st, CommitStep)
        invariant st.pc == (if tail == n then Erase(old(st.pc.boot)) else Install(tail, old(st.pc.boot)))
                  && st.h == old(st.h)
      {
        ghost var s := st;
        InstallOne(tail, init);
        run, s := Then(g, old(st), run, s, InstallBlock, CommitStep);
        tail := tail + 1;
      }
    }

    // log.lh.n = 0 and write_head, which erases the transaction.
    method EraseLog(ghost init: Disk)
      requires Valid() && Undisturbed() && Inv(g, init, st) && st.pc.Erase?
      modifies this`disk, this`n, this`st
      ensures Valid() && Inv(g, init, st)
      ensures CanEraseHeader(g, old(st)) && st == DoEraseHeader(g, old(st)) && n == 0
    {
      hide Inv, EncodeHead;
      LoopFacts(g, init, st);
      KeepEraseHeader(g, init, st);
      n := 0;
      disk := disk[g.start := EncodeHead(disk[g.start], [])];
      st := DoEraseHeader(g, st);
    }

    // commit, when there is something to commit.
    method CommitLogged(ghost init: Disk) returns (ghost run: seq<Step>)
      requires Valid() && Undisturbed() && Inv(g, init, st) && st.pc == CopyLog(0)
      modifies this
      ensures Valid() && Inv(g, init, st) && Going(g, old(st), run, st, CommitStep)
      ensures st.pc.Finish? && n == 0 && outstanding == old(outstanding)
      ensures Logged(st.h.writes) == Logged(old(st.h.writes)) && Settled(g, init, st)
      ensures forall b: nat :: g.Home(b) ==> (disk[b] != Promised(g, init, st.h)[b] <==> WillSlip(old(st), b))
    {
      hide Inv, Going, WillSlip, Logged;
      var r := WriteLog(init);
      run := r;
      ghost var s := st;
      WriteHead(init);
      run, s := Then(g, old(st), run, s, WriteHeader, CommitStep);
      r := InstallTrans(init);
      ThenAll(g, old(st), run, s, r, st, CommitStep);
      run := run + r;
      s := st;
      EraseLog(init);
      run, s := Then(g, old(st), run, s, EraseHeader, CommitStep);
      CommitFacts(g, init, old(st), run, st);
    }

    /** commit: after it, the disk holds what was logged, except exactly in those blocks whose buffers held
        other bytes when it started. */
    method Commit(ghost init: Disk) returns (ghost run: seq<Step>)
      requires Valid() && Undisturbed() && Inv(g, init, st) && st.pc == if st.lh == [] then Finish else CopyLog(0)
      modifies this
      ensures Valid() && Inv(g, init, st) && Going(g, old(st), run, st, CommitStep)
      ensures st.pc.Finish? && n == 0 && outstanding == old(outstanding)
      ensures Logged(st.h.writes) == Logged(old(st.h.writes)) && Settled(g, init, st)
      ensures forall b: nat :: g.Home(b) ==> (disk[b] != Promised(g, init, st.h)[b] <==> WillSlip(old(st), b))
    {
      hide Inv, Going, WillSlip, Logged;
      if n > 0 {
        run := CommitLogged(init);
      } else {
        run := Start(g, st);
        EmptyFacts(g, init, st);
      }
    }

    // end_op's first critical section.
    method LeaveOp(p: nat, ghost init: Disk) returns (doCommit: bool)
      requires Valid() && Undisturbed() && Inv(g, init, st) && CanEnd(st, p)
      modifies this`outstanding, this`committing, this`st
      ensures Valid() && Undisturbed() && Inv(g, init, st) && st == DoEnd(old(st), p)
      ensures doCommit <==> outstanding == 0
    {
      hide Inv;
      KeepEnd(g, init, st, p);
      outstanding := outstanding - 1;
      doCommit := outstanding == 0;
      committing := doCommit;
      st := DoEnd(st, p);
    }

    // end_op's second critical section.
    method LeaveCommit(ghost init: Disk)
      requires Valid() && Inv(g, init, st) && st.pc.Finish?
      modifies this`committing, this`st
      ensures Valid() && Inv(g, init, st) && st == old(st).(pc := Idle)
    {
      hide Inv;
      KeepFinish(g, init, st);
      committing := false;
      st := st.(pc := Idle);
    }

    /** end_op: the last operation of a group leaves everything that was logged on the disk, with the same
        exception. */
    method EndOp(p: nat, ghost init: Disk) returns (ghost run: seq<Step>)
      requires Valid() && Undisturbed() && Inv(g, init, st) && CanEnd(st, p)
      modifies this
      ensures Valid() && Inv(g, init, st) && Legal(g, old(st), run) && st == After(g, old(st), run)
      ensures st.pc.Idle? && outstanding == old(outstanding) - 1 && Logged(st.h.writes) == Logged(old(st.h.writes))
      ensures outstanding > 0 ==> st.h == old(st.h) && disk == old(disk)
      ensures outstanding == 0 ==>
                && n == 0 && Settled(g, init, st)
                && forall b: nat :: g.Home(b) ==> (disk[b] != Promised(g, init, st.h)[b] <==> WillSlip(old(st), b))
    {
      hide Inv, Going, WillSlip, Logged, Settled, Promised;
      ghost var s := st;
      ghost var any := (g: Geometry, s: State, a: Step) => true;
      run := StartAny(g, s, any);
      var doCommit := LeaveOp(p, init);
      run, s := Then(g, old(st), run, s, End(p), any);
      if doCommit {
        SameSlips(old(st), s);
        var r := Commit(init);
        AnyStep(g, s, r, st, any);
        ThenAll(g, old(st), run, s, r, st, any);
        run := run + r;
        s := st;
        LeaveCommit(init);
        StillSettled(g, init, s, st);
        run, s := Then(g, old(st), run, s, FinishCommit, any);
      }
      RunOf(g, old(st), run, st, any);
    }

    // read_head, with its loop.
    method ReadHead(ghost init: Disk)
      requires Valid() && Inv(g, init, st) && st.pc.Boot?
      modifies this`n, this`st, block
      ensures Valid() && Undisturbed() && Inv(g, init, st)
      ensures CanReadHeader(g, old(st)) && st == DoReadHeader(g, old(st))
    {
      hide Inv;
      BootFacts(g, init, st);
      KeepReadHeader(g, init, st);
      var hb := disk[g.start];
      n := hb[0];
      var i := 0;
      while i < n
        modifies block
        invariant i <= n && forall k :: 0 <= k < i ==> block[k] == hb[k + 1]
      {
        block[i] := hb[i + 1];
        i := i + 1;
      }
      assert block[..n] == DecodeHead(hb);
      st := DoReadHeader(g, st);
    }

    /** recover_from_log, on any disk that a crash can leave: afterwards the home blocks hold exactly
        what was committed, and the log is empty. */
    method RecoverFromLog(ghost init: Disk) returns (ghost run: seq<Step>)
      requires Valid() && Inv(g, init, st) && st.pc.Boot?
      modifies this, block
      ensures Valid() && Inv(g, init, st) && Legal(g, old(st), run) && st == After(g, old(st), run)
      ensures st.pc.Idle? && n == 0 && st.h == old(st.h)
      ensures HomeIs(g, disk, Committed(g, init, st.h), []) && disk[g.start][0] == 0
    {
      hide Inv, Going, EncodeHead;
      ReadHead(init);
      ghost var s := st;
      run := Start(g, old(st));
      run, s := Then(g, old(st), run, old(st), ReadHeader, CommitStep);
      if n > 0 {
        var r := InstallTrans(init);
        ThenAll(g, old(st), run, s, r, st, CommitStep);
        run := run + r;
      }
      s := st;
      EraseLog(init);
      run, s := Then(g, old(st), run, s, EraseHeader, CommitStep);
      IdleFacts(g, init, st);
      RunOf(g, old(st), run, st, CommitStep);
    }
  }

  /** Everything logged is covered by a header that reached the disk. */
  ghost predicate Settled(g: Geometry, init: Disk, s: State) {
    && |init| == g.size == |s.disk| && WritesOk(g, s.h.writes) && s.h.durable == |s.h.writes|
  }

  // The empty run.
  lemma Start(g: Geometry, s: State) returns (run: seq<Step>)
    ensures Going(g, s, run, s, CommitStep)
  {
    run := [];
  }

  lemma StartAny(g: Geometry, s: State, ok: (Geometry, State, Step) -> bool) returns (run: seq<Step>)
    ensures Going(g, s, run, s, ok)
  {
    run := [];
  }

  lemma AnyStep(g: Geometry, s: State, run: seq<Step>, s': State, any: (Geometry, State, Step) -> bool)
    requires Going(g, s, run, s', CommitStep) && forall g, s, a :: any(g, s, a)
    ensures Going(g, s, run, s', any)
  {
    AlongWeaker(g, s, run, CommitStep, any);
  }

  lemma RunOf(g: Geometry, s: State, run: seq<Step>, s': State, ok: (Geometry, State, Step) -> bool)
    requires Going(g, s, run, s', ok)
    ensures Legal(g, s, run) && s' == After(g, s, run)
  {
  }

  // What a commit copies does not change what was logged.
  lemma CopyLogged(h: History, b: nat, d: Block)
    ensures Logged(Copied(h, b, d).writes) == Logged(h.writes)
  {
    var w := Write(h.nextOp, b, d, false);
    assert (h.writes + [w])[..|h.writes|] == h.writes;
    assert Logged(h.writes + [w]) == Logged(h.writes) + [];
  }

  lemma CommitFacts(g: Geometry, init: Disk, c: State, run: seq<Step>, s: State)
    requires Inv(g, init, c) && c.pc == CopyLog(0) && Going(g, c, run, s, CommitStep) && s.pc.Finish?
    ensures Settled(g, init, s)
    ensures forall b: nat :: g.Home(b) ==> (s.disk[b] != Promised(g, init, s.h)[b] <==> WillSlip(c, b))
  {
    hide Along, Legal, After, WillSlip, Inv;
    assert |init| == g.size && Settled(g, init, s) by { CommitSettles(g, init, c, run, s); }
    forall b: nat | g.Home(b)
      ensures s.disk[b] != Promised(g, init, s.h)[b] <==> WillSlip(c, b)
    {
      CommitSlipsIff(g, init, c, run, b);
    }
  }

  lemma SameSlips(s: State, s': State)
    requires s'.lh == s.lh && s'.h.writes == s.h.writes && s'.cache == s.cache
    ensures forall b: nat :: WillSlip(s', b) <==> WillSlip(s, b)
  {
  }

  lemma StillSettled(g: Geometry, init: Disk, s: State, s': State)
    requires Settled(g, init, s) && s'.disk == s.disk && s'.h == s.h
    ensures Settled(g, init, s') && |init| == g.size && WritesOk(g, s'.h.writes) && s'.h.durable <= |s'.h.writes|
  {
  }

  lemma EmptyFacts(g: Geometry, init: Disk, s: State)
    requires Inv(g, init, s) && s.pc.Finish? && s.lh == []
    ensures Settled(g, init, s)
    ensures forall b: nat :: g.Home(b) ==> (s.disk[b] != Promised(g, init, s.h)[b] <==> WillSlip(s, b))
  {
    hide OpsOk, CacheOk, MemoryOk, Replay;
    assert s.h.writes[..s.h.durable] == s.h.writes;
    forall b: nat | g.Home(b)
      ensures s.disk[b] != Promised(g, init, s.h)[b] <==> WillSlip(s, b)
    {
      SlippedIff(g, init, s.h.writes, b);
    }
  }

  // What the invariant says about the places that the loops touch.
  lemma LoopFacts(g: Geometry, init: Disk, s: State)
    requires Inv(g, init, s)
    ensures g.Ok() && |s.disk| == g.size && |s.lh| <= LOGSIZE && |s.lh| <= g.nlog - 1
    ensures forall i :: 0 <= i < |s.lh| ==> g.Home(s.lh[i])
    ensures s.pc.CopyLog? ==> s.pc.t < |s.lh|
    ensures s.pc.Install? ==> s.pc.t < |s.lh|
  {
  }

  lemma BootFacts(g: Geometry, init: Disk, s: State)
    requires Inv(g, init, s) && s.pc.Boot?
    ensures s.cache == map[] && CanReadHeader(g, s) && s.disk[g.start][0] <= LOGSIZE
  {
  }

  lemma IdleFacts(g: Geometry, init: Disk, s: State)
    requires Inv(g, init, s) && s.pc.Idle?
    ensures |init| == g.size == |s.disk| && g.Ok() && WritesOk(g, s.h.writes) && s.h.durable <= |s.h.writes|
    ensures HomeIs(g, s.disk, Committed(g, init, s.h), []) && s.disk[g.start][0] == 0
  {
  }

  lemma CommitSettles(g: Geometry, init: Disk, c: State, run: seq<Step>, s: State)
    requires Inv(g, init, c) && Going(g, c, run, s, CommitStep) && s.pc.Finish?
    ensures Settled(g, init, s)
  {
    AlongWeaker(g, c, run, CommitStep, SoundStep);
    RunInv(g, init, c, run);
  }
}
