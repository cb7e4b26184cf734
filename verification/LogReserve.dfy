/** Log space: begin_op's reservation bounds what is logged, over all runs, and which disks it keeps from
    overflowing. */
module LogReserve {
  import opened Wrappers
  import opened Numbers
  import opened LogDisk
  import opened LogProtocol
  import opened LogCrash
  import opened LogTheorems

  // ---- Budgets ----

  /** What the operations in progress may still use, where `used` says what one has used. */
  ghost function Unspent(ops: seq<Option<Op>>, used: Op -> nat): (n: int)
  {
    if ops == [] then 0
    else
      var last := ops[|ops| - 1];
      Unspent(ops[..|ops| - 1], used) + (if last.Some? then MAXOPBLOCKS - used(last.value) else 0)
  }

  ghost function Share(o: Option<Op>, used: Op -> nat): (n: int) {
    if o.Some? then MAXOPBLOCKS - used(o.value) else 0
  }

  lemma {:induction false} UnspentUpdate(ops: seq<Option<Op>>, used: Op -> nat, p: nat, o: Option<Op>)
    requires p < |ops|
    ensures Unspent(ops[p := o], used) == Unspent(ops, used) - Share(ops[p], used) + Share(o, used)
  {
    var n := |ops| - 1;
    if p < n {
      UnspentUpdate(ops[..n], used, p, o);
      assert ops[p := o][..n] == ops[..n][p := o];
    } else {
      assert ops[p := o][..n] == ops[..n];
    }
  }

  // No operation has used more than its budget.
  ghost predicate Within(ops: seq<Option<Op>>, used: Op -> nat) {
    forall p :: 0 <= p < |ops| && ops[p].Some? ==> used(ops[p].value) <= MAXOPBLOCKS
  }

  lemma {:induction false} UnspentBounds(ops: seq<Option<Op>>, used: Op -> nat)
    requires Within(ops, used)
    ensures 0 <= Unspent(ops, used) <= Active(ops) * MAXOPBLOCKS
    ensures forall p :: 0 <= p < |ops| ==> Share(ops[p], used) <= Unspent(ops, used)
  {
    var n := |ops| - 1;
    if n >= 0 {
      UnspentBounds(ops[..n], used);
      assert forall p :: 0 <= p < n ==> ops[..n][p] == ops[p];
    }
  }

  const ADDED: Op -> nat := (op: Op) => op.added
  const CALLS: Op -> nat := (op: Op) => op.calls

  // An operation logs a new block, or calls log_write, only while it has done so fewer than
  // MAXOPBLOCKS times.
  predicate ThriftyStep(g: Geometry, s: State, a: Step) {
    a.Add? && InOp(s, a.p) && a.b !in s.lh ==> s.ops[a.p].value.added < MAXOPBLOCKS
  }

  predicate FrugalStep(g: Geometry, s: State, a: Step) {
    a.Add? && InOp(s, a.p) ==> s.ops[a.p].value.calls < MAXOPBLOCKS
  }

  // ---- What holds even when the log overflows ----

  ghost predicate Entries(g: Geometry, lh: seq<nat>) {
    && (forall i :: 0 <= i < |lh| ==> g.Home(lh[i])) && (forall i, j :: 0 <= i < j < |lh| ==> lh[i] != lh[j])
    && (g.nlog < 2 ==> lh == [])
  }

  ghost predicate HeadOk(g: Geometry, head: Block) {
    && 0 <= head[0] < WORDS && (forall i :: 1 <= i <= head[0] ==> head[i] >= 0)
    && Entries(g, DecodeHead(head))
  }

  ghost predicate OpsCounted(s: State) {
    && |s.ops| == NPROC && s.outstanding == Active(s.ops)
    && (!s.pc.Idle? ==> forall p :: 0 <= p < NPROC ==> s.ops[p].None?)
  }

  /** The header names distinct home blocks, in memory and on the disk, and operations are counted. */
  ghost predicate Rough(g: Geometry, s: State) {
    && g.Ok() && |s.disk| == g.size && Entries(g, s.lh) && HeadOk(g, s.disk[g.start])
    && OpsCounted(s) && PassedOk(g, s.ops) && (forall b :: b in s.cache ==> g.Home(b))
  }

  lemma InitialRough(g: Geometry, s: State)
    requires Initial(g, s)
    ensures Rough(g, s)
  {
    ActiveZero(s.ops);
  }

  lemma RoughHeader(g: Geometry, s: State, lh: seq<nat>)
    requires Rough(g, s) && Entries(g, lh) && |lh| < WORDS
    ensures HeadOk(g, EncodeHead(s.disk[g.start], lh))
  {
    HeadRoundTrip(s.disk[g.start], lh);
  }

  lemma RoughOps(g: Geometry, s: State, a: Step)
    requires Rough(g, s) && Enabled(g, s, a)
    ensures OpsCounted(Apply(g, s, a)) && PassedOk(g, Apply(g, s, a).ops)
  {
    hide Entries, HeadOk, EncodeHead, DecodeHead, Active;
    var s' := Apply(g, s, a);
    ActiveZero(s'.ops);
    if a.Begin? || a.Check? || a.Add? || a.End? {
      ActiveUpdate(s.ops, a.p, s'.ops[a.p]);
    }
  }

  lemma RoughStep(g: Geometry, s: State, a: Step)
    requires Rough(g, s) && Enabled(g, s, a)
    ensures Rough(g, Apply(g, s, a))
  {
    hide OpsCounted, EncodeHead, DecodeHead;
    RoughOps(g, s, a);
    if a.WriteHeader? {
      RoughHeader(g, s, s.lh);
    } else if a.EraseHeader? {
      RoughHeader(g, s, []);
    }
  }

  ghost function Members(xs: seq<nat>): (m: set<nat>) { set x | x in xs }

  lemma {:induction false} DistinctSize(xs: seq<nat>)
    requires forall i, j :: 0 <= i < j < |xs| ==> xs[i] != xs[j]
    ensures |Members(xs)| == |xs|
  {
    if xs == [] {
      assert Members(xs) == {};
    } else {
      var k := |xs| - 1;
      DistinctSize(xs[..k]);
      assert xs == xs[..k] + [xs[k]];
      assert Members(xs) == Members(xs[..k]) + {xs[k]};
    }
  }

  /** A header names no more blocks than there are home blocks. */
  lemma HomeCount(g: Geometry, lh: seq<nat>)
    requires g.Ok() && Entries(g, lh)
    ensures |lh| <= g.size - g.nlog
  {
    DistinctSize(lh);
    var low := set b | b in Members(lh) && b < g.start;
    var high := Members(lh) - low;
    FewerThan(low, 0, g.start);
    FewerThan(high, g.start + g.nlog, g.size);
    assert low !! high && Members(lh) == low + high;
  }

  // ---- The reservation ----

  /** What is logged and what the operations in progress may still log fit in LOGSIZE together. */
  ghost predicate Reserved(g: Geometry, s: State, used: Op -> nat) {
    && Rough(g, s) && s.disk[g.start][0] <= LOGSIZE
    && Within(s.ops, used) && |s.lh| + Unspent(s.ops, used) <= LOGSIZE
  }

  lemma ReserveBegin(g: Geometry, s: State, p: nat, used: Op -> nat)
    requires CanBegin(s, p) && Reserved(g, s, used) && used(Op(s.h.nextOp, 0, 0, None)) == 0
    ensures |s.lh| + Unspent(DoBegin(s, p).ops, used) <= LOGSIZE
  {
    hide HeadOk, Entries;
    UnspentBounds(s.ops, used);
    UnspentUpdate(s.ops, used, p, DoBegin(s, p).ops[p]);
  }

  // One operation has used more, but not more than its budget, and the log has grown no more than that.
  lemma ReserveUse(g: Geometry, s: State, s': State, p: nat, used: Op -> nat)
    requires Reserved(g, s, used) && p < |s.ops| && s.ops[p].Some?
    requires |s'.ops| == |s.ops| && s'.ops == s.ops[p := s'.ops[p]] && s'.ops[p].Some?
    requires used(s.ops[p].value) + |s'.lh| - |s.lh| <= used(s'.ops[p].value) <= MAXOPBLOCKS
    ensures Within(s'.ops, used) && |s'.lh| + Unspent(s'.ops, used) <= LOGSIZE
  {
    hide HeadOk, Entries;
    UnspentUpdate(s.ops, used, p, s'.ops[p]);
  }

  lemma ReserveEnd(g: Geometry, s: State, p: nat, used: Op -> nat)
    requires CanEnd(s, p) && Reserved(g, s, used)
    ensures |s.lh| + Unspent(DoEnd(s, p).ops, used) <= LOGSIZE
  {
    hide HeadOk, Entries;
    UnspentUpdate(s.ops, used, p, None);
  }

  lemma ReserveNone(s: State, used: Op -> nat)
    requires forall p :: 0 <= p < |s.ops| ==> s.ops[p].None?
    ensures Within(s.ops, used) && Unspent(s.ops, used) == 0
  {
    UnspentBounds(s.ops, used);
    ActiveZero(s.ops);
  }

  // `used` is one of the two budgets, and the step keeps it.
  ghost predicate Budgeted(g: Geometry, s: State, a: Step, used: Op -> nat) {
    (used == ADDED && ThriftyStep(g, s, a)) || (used == CALLS && FrugalStep(g, s, a))
  }

  lemma ReserveStep(g: Geometry, s: State, a: Step, used: Op -> nat)
    requires Enabled(g, s, a) && Reserved(g, s, used) && Budgeted(g, s, a, used)
    ensures Reserved(g, Apply(g, s, a), used)
  {
    hide Unspent, Rough;
    var s' := Apply(g, s, a);
    RoughStep(g, s, a);
    assert OpsCounted(s) && s'.disk[g.start][0] <= LOGSIZE by { ReserveHead(g, s, a, used); }
    match a
    case Begin(p) => ReserveBegin(g, s, p, used);
    case Check(p, b) => ReserveUse(g, s, s', p, used);
    case Add(p, b) => ReserveUse(g, s, s', p, used);
    case End(p) => ReserveEnd(g, s, p, used);
    case Crash => ReserveNone(s', used);
    case ReadHeader => ReserveNone(s', used);
    case _ => assert s'.ops == s.ops && |s'.lh| <= |s.lh|;
  }

  lemma ReserveHead(g: Geometry, s: State, a: Step, used: Op -> nat)
    requires Enabled(g, s, a) && Reserved(g, s, used)
    ensures g.start < |Apply(g, s, a).disk| && Apply(g, s, a).disk[g.start][0] <= LOGSIZE && OpsCounted(s)
  {
    UnspentBounds(s.ops, used);
  }

  lemma InitialReserved(g: Geometry, s0: State, used: Op -> nat)
    requires Initial(g, s0)
    ensures Reserved(g, s0, used)
  {
    InitialRough(g, s0);
    ReserveNone(s0, used);
  }

  lemma {:induction false} ReserveRun(g: Geometry, s: State, run: seq<Step>, used: Op -> nat)
    requires Legal(g, s, run) && Reserved(g, s, used)
    requires (used == ADDED && Along(g, s, run, ThriftyStep)) || (used == CALLS && Along(g, s, run, FrugalStep))
    ensures Reserved(g, After(g, s, run), used)
    decreases |run|
  {
    hide Apply, Enabled, Reserved;
    if run != [] {
      ReserveStep(g, s, run[0], used);
      ReserveRun(g, Apply(g, s, run[0]), run[1..], used);
    }
  }

  /** In every interleaving in which no operation logs more than MAXOPBLOCKS distinct blocks, what is
      in the log plus what the operations in progress may still add never exceeds LOGSIZE, on any disk. */
  lemma Reservation(g: Geometry, s0: State, run: seq<Step>)
    requires Initial(g, s0) && Legal(g, s0, run) && Along(g, s0, run, ThriftyStep)
    ensures var s := After(g, s0, run);
            && |s.lh| + Unspent(s.ops, ADDED) <= LOGSIZE
            && (forall p :: 0 <= p < |s.ops| && s.ops[p].Some? ==>
               |s.lh| + (MAXOPBLOCKS - s.ops[p].value.added) <= LOGSIZE)
  {
    InitialReserved(g, s0, ADDED);
    ReserveRun(g, s0, run, ADDED);
    UnspentBounds(After(g, s0, run).ops, ADDED);
  }

  /** In such runs, with a log of LOGSIZE data blocks, the log is too full for another call only when
      every operation in progress has added all the blocks it may: a new block within the budget always
      has room, and only a repeated log_write of a logged block can panic. */
  lemma NewBlockFits(g: Geometry, s0: State, run: seq<Step>, p: nat)
    requires Initial(g, s0) && Legal(g, s0, run) && Along(g, s0, run, ThriftyStep)
    requires var s := After(g, s0, run); InOp(s, p) && s.ops[p].value.added < MAXOPBLOCKS
    requires g.nlog >= LOGSIZE + 1
    ensures !TooBig(g, After(g, s0, run))
  {
    Reservation(g, s0, run);
  }

  /** With at most MAXOPBLOCKS calls of log_write per operation, repeated ones included, and a log of
      LOGSIZE data blocks, no call finds the log too full. */
  lemma NoPanic(g: Geometry, s0: State, run: seq<Step>, p: nat)
    requires Initial(g, s0) && Legal(g, s0, run) && Along(g, s0, run, FrugalStep)
    requires var s := After(g, s0, run); InOp(s, p) && s.ops[p].value.calls < MAXOPBLOCKS
    requires g.nlog >= LOGSIZE + 1
    ensures !TooBig(g, After(g, s0, run))
  {
    InitialReserved(g, s0, CALLS);
    ReserveRun(g, s0, run, CALLS);
    var s := After(g, s0, run);
    UnspentBounds(s.ops, CALLS);
    assert Share(s.ops[p], CALLS) >= 1;
  }

  // ---- The disks on which the log cannot overflow ----

  /** LOGSIZE blocks or fewer in the log, the header among them, and as many home blocks. */
  predicate Tight(g: Geometry) { 2 <= g.nlog <= LOGSIZE && g.size - g.nlog >= g.nlog }

  lemma AddFits(g: Geometry, s: State, p: nat, b: nat)
    requires Reserved(g, s, ADDED) && CanAdd(s, p, b) && ThriftyStep(g, s, Add(p, b)) && !Tight(g)
    ensures FitsStep(g, s, Add(p, b))
  {
    if b !in s.lh {
      var s' := DoAdd(s, p, b);
      ReserveStep(g, s, Add(p, b), ADDED);
      UnspentBounds(s'.ops, ADDED);
      HomeCount(g, s'.lh);
    }
  }

  lemma {:induction false} ThriftyFits(g: Geometry, s: State, run: seq<Step>)
    requires Reserved(g, s, ADDED) && Legal(g, s, run) && Clean(g, s, run) && Along(g, s, run, ThriftyStep) && !Tight(g)
    ensures Sound(g, s, run)
    decreases |run|
  {
    hide Apply, Reserved, ThriftyStep, CleanStep;
    if run != [] {
      if run[0].Add? {
        AddFits(g, s, run[0].p, run[0].b);
      }
      ReserveStep(g, s, run[0], ADDED);
      ThriftyFits(g, Apply(g, s, run[0]), run[1..]);
    }
  }

  /** On a disk that is not tight, the log does not overflow in any run in which no operation logs more
      than MAXOPBLOCKS distinct blocks, although log_write looks for room before it takes log.lock. */
  lemma ThriftySound(g: Geometry, s0: State, run: seq<Step>)
    requires Initial(g, s0) && Legal(g, s0, run) && Clean(g, s0, run) && Along(g, s0, run, ThriftyStep) && !Tight(g)
    ensures Sound(g, s0, run)
  {
    InitialReserved(g, s0, ADDED);
    ThriftyFits(g, s0, run);
  }

  /** The disk after a crash at the end of the run, and after a commit, is what was logged. */
  ghost predicate KeepsData(g: Geometry, s0: State, run: seq<Step>)
    requires Legal(g, s0, run) && |s0.disk| == g.size
  {
    var s := After(g, s0, run);
    && WritesOk(g, s.h.writes) && s.h.durable <= |s.h.writes| && |s.disk| == g.size
    && (s.pc.Finish? ==> s.h.durable == |s.h.writes| && HomeIs(g, s.disk, Promised(g, s0.disk, s.h), []))
    && forall recovery :: Recovers(g, s, recovery) ==>
         var s' := After(g, DoCrash(s), recovery);
         |s'.disk| == g.size && HomeIs(g, s'.disk, Promised(g, s0.disk, s.h), [])
  }

  /** Hence crash atomicity and durability hold there for all such runs. */
  lemma ThriftyKeeps(g: Geometry, s0: State, run: seq<Step>)
    requires Initial(g, s0) && Legal(g, s0, run) && Clean(g, s0, run) && Along(g, s0, run, ThriftyStep) && !Tight(g)
    requires Tidy(g, s0, run)
    ensures KeepsData(g, s0, run)
  {
    hide Legal, After, Along, Inv, HomeIs;
    ThriftySound(g, s0, run);
    CacheIsFlatArray(g, s0, run, 0);
    NoHalfOperation(g, s0, run);
    var s := After(g, s0, run);
    assert |s.disk| == g.size by {
      InitialReserved(g, s0, ADDED);
      ReserveRun(g, s0, run, ADDED);
    }
    if s.pc.Finish? {
      CommitIsDurable(g, s0, run);
    }
    forall recovery | Recovers(g, s, recovery)
      ensures var s' := After(g, DoCrash(s), recovery);
              |s'.disk| == g.size && HomeIs(g, s'.disk, Promised(g, s0.disk, s.h), [])
    {
      CrashAtomicity(g, s0, run, recovery);
    }
  }
}
