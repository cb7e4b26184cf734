/** The two ways in which the log runs out of room, and exactly on which disks: the panic "too big a
    transaction" of log_write, and two calls of log_write that both find room for one block. */
module LogOverflow {
  import opened Wrappers
  import opened LogDisk
  import opened LogProtocol
  import opened LogCrash
  import opened LogTheorems
  import opened LogReserve

  // ---- Filling the log ----

  // A step within both budgets, of a boot that found an empty log, that leaves nothing unlogged behind.
  predicate CarefulStep(g: Geometry, s: State, a: Step) {
    CleanStep(g, s, a) && FrugalStep(g, s, a) && ThriftyStep(g, s, a) && TidyStep(g, s, a)
  }

  ghost predicate Careful(g: Geometry, s: State, run: seq<Step>)
    requires Legal(g, s, run)
  {
    Clean(g, s, run) && Along(g, s, run, FrugalStep) && Along(g, s, run, ThriftyStep) && Tidy(g, s, run)
  }

  lemma CarefulRun(g: Geometry, s: State, run: seq<Step>)
    requires Legal(g, s, run) && Along(g, s, run, CarefulStep)
    ensures Careful(g, s, run)
  {
    hide Legal, Along;
    AlongWeaker(g, s, run, CarefulStep, CleanStep);
    AlongWeaker(g, s, run, CarefulStep, FrugalStep);
    AlongWeaker(g, s, run, CarefulStep, ThriftyStep);
    AlongWeaker(g, s, run, CarefulStep, TidyStep);
  }

  // The i-th home block.
  function HomeBlock(g: Geometry, i: nat): (b: nat) { if i < g.start then i else i + g.nlog }

  // How many of the first k calls fall to process p, when three processes take turns.
  function CallsOf(p: nat, k: nat): (n: nat)
    requires p < 3
  {
    (k + 2 - p) / 3
  }

  lemma HomeBlocks(g: Geometry, k: nat)
    requires g.Ok() && k + g.nlog < g.size
    ensures forall i: nat :: i <= k ==> g.Home(HomeBlock(g, i))
    ensures forall i: nat :: i != k ==> HomeBlock(g, i) != HomeBlock(g, k)
  {
  }

  // Whose turn it is has calls left, and so has the next process unless the call is the last but one.
  lemma Turns(k: nat)
    ensures forall p: nat :: p < 3 ==> CallsOf(p, k + 1) == CallsOf(p, k) + if p == k % 3 then 1 else 0
    ensures k < LOGSIZE ==> CallsOf(k % 3, k) < MAXOPBLOCKS
    ensures k < LOGSIZE - 1 ==> CallsOf((k + 1) % 3, k) < MAXOPBLOCKS
  {
  }

  // Nothing is committed, and nothing but the log area has changed on the disk.
  ghost predicate Untouched(g: Geometry, s0: State, s: State) {
    && |s.disk| == g.size == |s0.disk| && g.start < g.size && s.disk[g.start][0] == 0 && s.h.durable == 0
    && (forall b: nat :: g.Home(b) ==> s.disk[b] == s0.disk[b])
  }

  // The log is at work, with an operation of each of three processes, none of them inside log_write.
  ghost predicate Three(s: State) {
    && s.pc.Idle? && !s.foundLog && |s.ops| == NPROC && s.outstanding == 3
    && (forall p :: 0 <= p < 3 ==> s.ops[p].Some? && s.ops[p].value.passed.None?)
  }

  ghost predicate Unheld(s: State, b: nat) {
    b in s.cache ==> s.cache[b].users == {} && s.cache[b].holder.None? && !s.cache[b].unlogged
  }

  // The three operations have together logged the first k home blocks.
  ghost predicate Filled(g: Geometry, s0: State, s: State, k: nat) {
    && Three(s) && Untouched(g, s0, s) && |s.lh| == k
    && (forall p :: 0 <= p < 3 ==> s.ops[p].value.added <= s.ops[p].value.calls == CallsOf(p, k))
    && (forall i :: 0 <= i < k ==> s.lh[i] == HomeBlock(g, i))
    && (forall b :: Unheld(s, b))
  }

  // Boot, and three operations begin.
  lemma StartThree(g: Geometry, s0: State) returns (run: seq<Step>, s: State)
    requires Initial(g, s0)
    ensures Going(g, s0, run, s, CarefulStep) && Filled(g, s0, s, 0)
  {
    hide EncodeHead;
    run, s := PowerOn(g, s0, CarefulStep);
    run, s := Then(g, s0, run, s, Begin(0), CarefulStep);
    run, s := Then(g, s0, run, s, Begin(1), CarefulStep);
    run, s := Then(g, s0, run, s, Begin(2), CarefulStep);
  }

  // One of the three processes reads a home block.
  lemma ReadHome(g: Geometry, s: State, p: nat, b: nat) returns (run: seq<Step>, s': State)
    requires Three(s) && p < 3 && g.Home(b) && |s.disk| == g.size && Unheld(s, b)
    ensures Going(g, s, run, s', CarefulStep)
    ensures b in s'.cache && s'.cache[b].data.Some? && s'.cache[b].users == {p} && s'.cache[b].holder == Some(p)
            && !s'.cache[b].unlogged
    ensures s' == s.(cache := s.cache[b := s'.cache[b]])
  {
    run, s' := Then(g, s, [], s, Ref(p, b), CarefulStep);
    run, s' := Then(g, s, run, s', Lock(p, b), CarefulStep);
  }

  // It logs the block, which is not logged yet, and releases it.
  lemma LogHeld(g: Geometry, s: State, p: nat, b: nat) returns (run: seq<Step>, s': State)
    requires Three(s) && p < 3 && b !in s.lh && !TooBig(g, s)
    requires s.ops[p].value.added < MAXOPBLOCKS && s.ops[p].value.calls < MAXOPBLOCKS
    requires b in s.cache && s.cache[b].data.Some? && s.cache[b].users == {p} && s.cache[b].holder == Some(p)
    ensures Going(g, s, run, s', CarefulStep) && Unheld(s', b) && b in s'.cache
    ensures var op := s.ops[p].value.(added := s.ops[p].value.added + 1, calls := s.ops[p].value.calls + 1);
            s' == s.(cache := s.cache[b := s'.cache[b]], ops := s.ops[p := Some(op)], lh := s.lh + [b],
            h := s.h.(writes := s'.h.writes))
  {
    run, s' := Then(g, s, [], s, Check(p, b), CarefulStep);
    run, s' := Then(g, s, run, s', Add(p, b), CarefulStep);
    run, s' := Then(g, s, run, s', Release(p, b), CarefulStep);
    assert {p} - {p} == {};
  }

  lemma LogNext(g: Geometry, s0: State, s: State, k: nat) returns (run: seq<Step>, s': State)
    requires Filled(g, s0, s, k) && k < LOGSIZE && g.Ok() && k + g.nlog < g.size && k < g.nlog - 1
    ensures Going(g, s, run, s', CarefulStep) && Filled(g, s0, s', k + 1)
  {
    hide Going, HomeBlock, CallsOf;
    HomeBlocks(g, k);
    Turns(k);
    var p, b := k % 3, HomeBlock(g, k);
    assert b !in s.lh;
    assert Unheld(s, b);
    var r1, s1 := ReadHome(g, s, p, b);
    var r2;
    r2, s' := LogHeld(g, s1, p, b);
    ThenAll(g, s, r1, s1, r2, s', CarefulStep);
    run := r1 + r2;
    assert forall c :: c != b ==> (Unheld(s', c) <==> Unheld(s, c));
  }

  lemma {:induction false} FillTo(g: Geometry, s0: State, k: nat) returns (run: seq<Step>, s: State)
    requires Initial(g, s0) && k <= g.nlog - 1 && k <= LOGSIZE && k + g.nlog <= g.size
    ensures Going(g, s0, run, s, CarefulStep) && Filled(g, s0, s, k)
  {
    hide Filled, Going, Initial;
    if k == 0 {
      run, s := StartThree(g, s0);
    } else {
      var s1;
      run, s1 := FillTo(g, s0, k - 1);
      assert g.Ok() by { InitialInv(g, s0); }
      var more;
      more, s := LogNext(g, s0, s1, k - 1);
      ThenAll(g, s0, run, s1, more, s, CarefulStep);
      run := run + more;
    }
  }

  // ---- The panic ----

  /** An operation that has called log_write fewer than MAXOPBLOCKS times calls it again, and panics. */
  ghost predicate PanicsAfter(g: Geometry, s0: State, run: seq<Step>, p: nat, b: nat) {
    && Legal(g, s0, run) && Clean(g, s0, run) && Along(g, s0, run, FrugalStep)
    && var s := After(g, s0, run);
    CanModify(s, p, b) && s.ops[p].value.calls < MAXOPBLOCKS && TooBig(g, s)
  }

  ghost predicate PanicReachable(g: Geometry, s0: State) {
    exists run, p, b :: PanicsAfter(g, s0, run, p, b)
  }

  /** An operation that stays within MAXOPBLOCKS distinct blocks calls log_write, and panics. */
  ghost predicate ThriftyPanics(g: Geometry, s0: State, run: seq<Step>, p: nat, b: nat) {
    && Legal(g, s0, run) && Clean(g, s0, run) && Along(g, s0, run, ThriftyStep)
    && var s := After(g, s0, run);
    CanModify(s, p, b) && ThriftyStep(g, s, Add(p, b)) && TooBig(g, s)
  }

  ghost predicate ThriftyPanicReachable(g: Geometry, s0: State) {
    exists run, p, b :: ThriftyPanics(g, s0, run, p, b)
  }

  // The log can be filled up to one of log_write's two limits.
  predicate Fillable(g: Geometry) {
    g.size > g.nlog && (g.size - g.nlog >= LOGSIZE || g.size - g.nlog >= g.nlog - 1)
  }

  lemma {:induction false} RunRough(g: Geometry, s: State, run: seq<Step>)
    requires Rough(g, s) && Legal(g, s, run)
    ensures Rough(g, After(g, s, run)) && |After(g, s, run).lh| <= g.size - g.nlog
    decreases |run|
  {
    hide Rough, Apply, Enabled;
    if run != [] {
      RoughStep(g, s, run[0]);
      RunRough(g, Apply(g, s, run[0]), run[1..]);
    } else {
      assert g.Ok() && Entries(g, s.lh) by { RoughList(g, s); }
      HomeCount(g, s.lh);
    }
  }

  lemma RoughList(g: Geometry, s: State)
    requires Rough(g, s)
    ensures g.Ok() && Entries(g, s.lh)
  {
  }

  lemma PanicNeeds(g: Geometry, s0: State, run: seq<Step>, p: nat, b: nat)
    requires Initial(g, s0) && (PanicsAfter(g, s0, run, p, b) || ThriftyPanics(g, s0, run, p, b))
    ensures Fillable(g) && (PanicsAfter(g, s0, run, p, b) ==> g.nlog <= LOGSIZE)
  {
    InitialRough(g, s0);
    RunRough(g, s0, run);
    if PanicsAfter(g, s0, run, p, b) && g.nlog > LOGSIZE {
      NoPanic(g, s0, run, p);
    }
  }

  // With the log full, a process reads a logged block and calls log_write for it.
  lemma FullPanics(g: Geometry, s0: State, k: nat, p: nat) returns (run: seq<Step>, b: nat)
    requires Initial(g, s0) && Fillable(g) && k == g.Capacity() && p < 3 && (k == LOGSIZE || p == k % 3)
    ensures ThriftyPanics(g, s0, run, p, b) && (k < LOGSIZE ==> PanicsAfter(g, s0, run, p, b))
  {
    hide Going;
    b := HomeBlock(g, 0);
    var r1, s1 := FillTo(g, s0, k);
    assert Unheld(s1, b);
    var r2, s2 := ReadHome(g, s1, p, b);
    ThenAll(g, s0, r1, s1, r2, s2, CarefulStep);
    run := r1 + r2;
    PanicBudget(g, s0, run, s2, p, b);
    assert k == LOGSIZE ==> s1.lh[0] == b;
  }

  lemma PanicBudget(g: Geometry, s0: State, run: seq<Step>, s: State, p: nat, b: nat)
    requires Going(g, s0, run, s, CarefulStep) && CanModify(s, p, b) && TooBig(g, s)
    ensures ThriftyStep(g, s, Add(p, b)) ==> ThriftyPanics(g, s0, run, p, b)
    ensures s.ops[p].value.calls < MAXOPBLOCKS ==> PanicsAfter(g, s0, run, p, b)
  {
    hide Legal, Along, After;
    CarefulRun(g, s0, run);
  }

  /** Operations of at most MAXOPBLOCKS calls of log_write, repeated ones included, can reach the panic if
      and only if the log area has LOGSIZE blocks or fewer, one block of it being the header, and there
      are home blocks enough to fill it. The image that mkfs builds has a log of LOGSIZE blocks. */
  lemma PanicReachableIff(g: Geometry, s0: State)
    requires Initial(g, s0)
    ensures PanicReachable(g, s0) <==> g.nlog <= LOGSIZE && g.size > g.nlog && g.size >= 2 * g.nlog - 1
  {
    hide PanicsAfter, Initial;
    if g.nlog <= LOGSIZE && g.size > g.nlog && g.size >= 2 * g.nlog - 1 {
      assert g.Ok() by { InitialInv(g, s0); }
      var run, b := FullPanics(g, s0, g.nlog - 1, (g.nlog - 1) % 3);
      assert PanicsAfter(g, s0, run, (g.nlog - 1) % 3, b);
    }
    forall run, p, b | PanicsAfter(g, s0, run, p, b)
      ensures g.nlog <= LOGSIZE && g.size > g.nlog && g.size >= 2 * g.nlog - 1
    {
      PanicNeeds(g, s0, run, p, b);
    }
  }

  /** Operations that log at most MAXOPBLOCKS distinct blocks each can reach the panic, whatever the size
      of the log, if and only if there are home blocks enough to fill it: log_write looks whether the log
      is full before it looks whether the block is there already. */
  lemma ThriftyPanicIff(g: Geometry, s0: State)
    requires Initial(g, s0)
    ensures ThriftyPanicReachable(g, s0) <==> Fillable(g)
  {
    hide ThriftyPanics, Initial;
    if Fillable(g) {
      assert g.Ok() by { InitialInv(g, s0); }
      var k := g.Capacity();
      var run, b := FullPanics(g, s0, k, k % 3);
      assert ThriftyPanics(g, s0, run, k % 3, b);
    }
    forall run, p, b | ThriftyPanics(g, s0, run, p, b)
      ensures Fillable(g)
    {
      PanicNeeds(g, s0, run, p, b);
    }
  }

  // ---- Two calls that both find room for one block ----

  // Processes p and q hold the next two home blocks, the second with d in it, and room is left for one.
  ghost predicate Racing(g: Geometry, s0: State, s: State, p: nat, q: nat, d: Block) {
    && Three(s) && Untouched(g, s0, s) && p < 3 && q < 3 && p != q && 2 <= g.nlog <= LOGSIZE
    && |s.lh| == g.nlog - 2 && HomeBlock(g, g.nlog - 2) !in s.lh && HomeBlock(g, g.nlog - 1) !in s.lh
    && (forall i :: 0 <= i < |s.lh| ==> g.Home(s.lh[i]))
    && s.ops[p].value.added < MAXOPBLOCKS && s.ops[p].value.calls < MAXOPBLOCKS
    && s.ops[q].value.added < MAXOPBLOCKS && s.ops[q].value.calls < MAXOPBLOCKS
    && HeldBy(s, p, HomeBlock(g, g.nlog - 2)) && HeldBy(s, q, HomeBlock(g, g.nlog - 1))
    && s.cache[HomeBlock(g, g.nlog - 1)].data == Some(d)
    && (forall b :: b != HomeBlock(g, g.nlog - 2) && b != HomeBlock(g, g.nlog - 1) ==> Unheld(s, b))
  }

  ghost predicate HeldBy(s: State, p: nat, b: nat) {
    b in s.cache && s.cache[b].data.Some? && s.cache[b].users == {p} && s.cache[b].holder == Some(p)
  }

  lemma Race(g: Geometry, s0: State, s: State, d: Block) returns (run: seq<Step>, s': State, p: nat, q: nat)
    requires Tight(g) && g.Ok() && Filled(g, s0, s, g.nlog - 2)
    ensures Going(g, s, run, s', CarefulStep) && Racing(g, s0, s', p, q, d)
  {
    hide Going, HomeBlock, CallsOf;
    var k := g.nlog - 2;
    HomeBlocks(g, k);
    HomeBlocks(g, k + 1);
    Turns(k);
    var b, c := HomeBlock(g, k), HomeBlock(g, k + 1);
    p, q := k % 3, (k + 1) % 3;
    assert Unheld(s, b) && Unheld(s, c);
    var r1, s1 := ReadHome(g, s, p, b);
    assert Unheld(s1, c);
    var r2, s2 := ReadHome(g, s1, q, c);
    ThenAll(g, s, r1, s1, r2, s2, CarefulStep);
    run, s' := Then(g, s, r1 + r2, s2, Modify(q, c, d), CarefulStep);
    assert forall x :: x != b && x != c ==> (Unheld(s', x) <==> Unheld(s, x));
  }

  // The log has one block more than its area holds.
  ghost predicate Over(g: Geometry, s0: State, s: State, d: Block) {
    && Three(s) && Untouched(g, s0, s) && |s.lh| == g.nlog && (forall i :: 0 <= i < |s.lh| ==> g.Home(s.lh[i]))
    && (forall b :: Free(s, b))
    && g.nlog >= 1 && s.lh[g.nlog - 1] in s.cache && s.cache[s.lh[g.nlog - 1]].data == Some(d)
  }

  lemma PassBoth(g: Geometry, s0: State, s: State, p: nat, q: nat, d: Block) returns (run: seq<Step>, s': State)
    requires Racing(g, s0, s, p, q, d)
    ensures var b, c := HomeBlock(g, g.nlog - 2), HomeBlock(g, g.nlog - 1);
            && Going(g, s, run, s', CarefulStep)
            && s' == s.(ops := s.ops[p := Some(s.ops[p].value.(passed := Some(b)))]
                              [q := Some(s.ops[q].value.(passed := Some(c)))])
  {
    run, s' := Then(g, s, [], s, Check(p, HomeBlock(g, g.nlog - 2)), CarefulStep);
    run, s' := Then(g, s, run, s', Check(q, HomeBlock(g, g.nlog - 1)), CarefulStep);
  }

  lemma AddBoth(g: Geometry, s0: State, s: State, p: nat, q: nat, d: Block) returns (run: seq<Step>, s': State)
    requires Racing(g, s0, s, p, q, d)
    ensures Going(g, s, run, s', CarefulStep) && Three(s') && Untouched(g, s0, s')
    ensures var b, c := HomeBlock(g, g.nlog - 2), HomeBlock(g, g.nlog - 1);
            && s'.lh == s.lh + [b, c] && HeldBy(s', p, b) && HeldBy(s', q, c) && s'.cache[c].data == Some(d)
            && !s'.cache[b].unlogged && !s'.cache[c].unlogged
            && (forall x :: x != b && x != c ==> Unheld(s', x))
  {
    var b, c := HomeBlock(g, g.nlog - 2), HomeBlock(g, g.nlog - 1);
    run, s' := PassBoth(g, s0, s, p, q, d);
    run, s' := Then(g, s, run, s', Add(p, b), CarefulStep);
    run, s' := Then(g, s, run, s', Add(q, c), CarefulStep);
    assert forall x :: x != b && x != c ==> (Unheld(s', x) <==> Unheld(s, x));
  }

  lemma Overflow(g: Geometry, s0: State, s: State, p: nat, q: nat, d: Block) returns (run: seq<Step>, s': State)
    requires Racing(g, s0, s, p, q, d) && g.Ok() && Tight(g)
    ensures Going(g, s, run, s', CarefulStep) && Over(g, s0, s', d)
  {
    hide HomeBlock;
    HomeBlocks(g, g.nlog - 1);
    var b, c := HomeBlock(g, g.nlog - 2), HomeBlock(g, g.nlog - 1);
    var s1;
    run, s1 := AddBoth(g, s0, s, p, q, d);
    run, s' := Then(g, s, run, s1, Release(p, b), CarefulStep);
    run, s' := Then(g, s, run, s', Release(q, c), CarefulStep);
    assert forall x :: x != b && x != c ==> Unheld(s1, x) && (Free(s', x) <==> Free(s1, x));
  }

  lemma RunToOver(g: Geometry, s0: State, d: Block) returns (run: seq<Step>, s: State)
    requires Initial(g, s0) && Tight(g)
    ensures Going(g, s0, run, s, CarefulStep) && Over(g, s0, s, d)
  {
    hide Going, Filled, Racing, Over, Initial;
    assert g.Ok() by { InitialInv(g, s0); }
    var r1, s1 := FillTo(g, s0, g.nlog - 2);
    var r2, s2, p, q := Race(g, s0, s1, d);
    ThenAll(g, s0, r1, s1, r2, s2, CarefulStep);
    var r3;
    r3, s := Overflow(g, s0, s2, p, q, d);
    ThenAll(g, s0, r1 + r2, s2, r3, s, CarefulStep);
    run := r1 + r2 + r3;
  }

  /** A run within the budget `ok` after which the in-memory header has more entries than the log area has
      room for. */
  ghost predicate Overflows(g: Geometry, s0: State, run: seq<Step>, ok: (Geometry, State, Step) -> bool) {
    Legal(g, s0, run) && Clean(g, s0, run) && Along(g, s0, run, ok) && |After(g, s0, run).lh| > g.nlog - 1
  }

  ghost predicate Overflowable(g: Geometry, s0: State, ok: (Geometry, State, Step) -> bool) {
    exists run :: Overflows(g, s0, run, ok)
  }

  lemma OverflowNeeds(g: Geometry, s0: State, run: seq<Step>)
    requires Initial(g, s0)
    requires Overflows(g, s0, run, ThriftyStep) || Overflows(g, s0, run, FrugalStep)
    ensures Tight(g)
  {
    var used := if Overflows(g, s0, run, ThriftyStep) then ADDED else CALLS;
    InitialReserved(g, s0, used);
    ReserveRun(g, s0, run, used);
    var s := After(g, s0, run);
    UnspentBounds(s.ops, used);
    HomeCount(g, s.lh);
  }

  /** log_write tests for room without log.lock. Two calls that both find room for one block then take the
      header past the end of the log area; operations of at most MAXOPBLOCKS distinct blocks each can do
      so, and just as well operations of at most MAXOPBLOCKS calls, if and only if the disk is tight. */
  lemma OverflowIff(g: Geometry, s0: State)
    requires Initial(g, s0)
    ensures Overflowable(g, s0, ThriftyStep) <==> Tight(g)
    ensures Overflowable(g, s0, FrugalStep) <==> Tight(g)
  {
    hide Initial;
    if Tight(g) {
      assert g.start < |s0.disk| by { InitialRough(g, s0); }
      var run, s := RunToOver(g, s0, s0.disk[g.start]);
      CarefulRun(g, s0, run);
      assert Overflows(g, s0, run, ThriftyStep) && Overflows(g, s0, run, FrugalStep);
    }
    forall run | Overflows(g, s0, run, ThriftyStep) || Overflows(g, s0, run, FrugalStep)
      ensures Tight(g)
    {
      OverflowNeeds(g, s0, run);
    }
  }

  // ---- What that does to the disk ----

  // The commit of a header that is too long, on its way through write_log.
  ghost predicate OverCopying(g: Geometry, s: State, t: nat, d: Block) {
    && g.Ok() && |s.disk| == g.size && g.start + g.nlog < g.size && s.disk[g.start][0] == 0 && s.h.durable == 0
    && t < g.nlog == |s.lh| && s.pc == CopyLog(t) && (forall i :: 0 <= i < |s.lh| ==> g.Home(s.lh[i]))
    && (forall b :: Free(s, b)) && s.lh[g.nlog - 1] in s.cache && s.cache[s.lh[g.nlog - 1]].data == Some(d)
  }

  lemma EndThree(g: Geometry, s0: State, s: State, d: Block) returns (run: seq<Step>, s': State)
    requires Over(g, s0, s, d) && g.Ok() && g.start + g.nlog < g.size
    ensures Going(g, s, run, s', CarefulStep) && OverCopying(g, s', 0, d)
  {
    run, s' := Then(g, s, [], s, End(0), CarefulStep);
    run, s' := Then(g, s, run, s', End(1), CarefulStep);
    run, s' := Then(g, s, run, s', End(2), CarefulStep);
    assert forall b :: Free(s', b) <==> Free(s, b);
  }

  lemma {:induction false} CopyOver(g: Geometry, s: State, t: nat, d: Block) returns (run: seq<Step>, s': State)
    requires OverCopying(g, s, t, d)
    ensures Going(g, s, run, s', CarefulStep)
    ensures |s'.disk| == g.size && s'.disk[g.start][0] == 0 && s'.h.durable == 0 && s'.disk[g.start + g.nlog] == d
    decreases g.nlog - t
  {
    var r1, s1 := Then(g, s, [], s, WriteLogBlock, CarefulStep);
    if t + 1 == g.nlog {
      run, s' := r1, s1;
    } else {
      assert forall b :: Free(s, b) ==> Free(s1, b);
      assert OverCopying(g, s1, t + 1, d);
      var more;
      more, s' := CopyOver(g, s1, t + 1, d);
      ThenAll(g, s, r1, s1, more, s', CarefulStep);
      run := r1 + more;
    }
  }

  lemma RecoverEmpty(g: Geometry, s: State) returns (recovery: seq<Step>)
    requires g.Ok() && |s.disk| == g.size && s.disk[g.start][0] == 0 && CanCrash(s)
    ensures Recovers(g, s, recovery)
    ensures var s' := After(g, DoCrash(s), recovery);
            |s'.disk| == g.size && forall b: nat :: g.Home(b) ==> s'.disk[b] == s.disk[b]
  {
    hide EncodeHead;
    var c := DoCrash(s);
    var any := (g: Geometry, s: State, a: Step) => true;
    var s1;
    recovery, s1 := Then(g, c, [], c, ReadHeader, any);
    recovery, s1 := Then(g, c, recovery, s1, EraseHeader, any);
  }

  /** On a tight disk with a block behind the log area, a run in which every operation keeps both budgets
      and logs what it changes; the last round of write_log then writes that block, and a crash before the
      header leaves it changed although nothing was ever committed. */
  lemma OverflowBreaks(g: Geometry, s0: State) returns (run: seq<Step>, recovery: seq<Step>)
    requires Initial(g, s0) && Tight(g) && g.start + g.nlog < g.size
    ensures Legal(g, s0, run) && Careful(g, s0, run) && Recovers(g, After(g, s0, run), recovery)
    ensures var s, s' := After(g, s0, run), After(g, DoCrash(After(g, s0, run)), recovery);
            && s.h.durable == 0 && g.Home(g.start + g.nlog) && |s'.disk| == g.size
            && s'.disk[g.start + g.nlog] != s0.disk[g.start + g.nlog]
  {
    hide Over, OverCopying, Going, Along, Recovers;
    var d := OtherBlock(s0.disk[g.start + g.nlog]);
    var r1, s1 := RunToOver(g, s0, d);
    var r2, s2 := EndThree(g, s0, s1, d);
    ThenAll(g, s0, r1, s1, r2, s2, CarefulStep);
    var r3, s3 := CopyOver(g, s2, 0, d);
    ThenAll(g, s0, r1 + r2, s2, r3, s3, CarefulStep);
    run := r1 + r2 + r3;
    RunIsCareful(g, s0, run, s3);
    recovery := RecoverEmpty(g, s3);
  }

  lemma RunIsCareful(g: Geometry, s0: State, run: seq<Step>, s: State)
    requires Going(g, s0, run, s, CarefulStep)
    ensures Legal(g, s0, run) && s == After(g, s0, run) && Careful(g, s0, run)
  {
    CarefulRun(g, s0, run);
  }

  /** All runs in which no operation logs more than MAXOPBLOCKS distinct blocks, and everything changed is
      logged before it is released. */
  ghost predicate KeepsAllData(g: Geometry, s0: State)
    requires |s0.disk| == g.size
  {
    forall run :: Legal(g, s0, run) && Clean(g, s0, run) && Along(g, s0, run, ThriftyStep) && Tidy(g, s0, run) ==>
      KeepsData(g, s0, run)
  }

  /** Over all of those runs the log is atomic under crashes and durable if and only if the disk is not
      tight, given that some block follows the log area. */
  lemma KeepsAllDataIff(g: Geometry, s0: State)
    requires Initial(g, s0) && g.start + g.nlog < g.size
    ensures KeepsAllData(g, s0) <==> !Tight(g)
  {
    hide Legal, Along, After, KeepsData, Recovers;
    if Tight(g) {
      var run, recovery := OverflowBreaks(g, s0);
      LosesData(g, s0, run, recovery);
    } else {
      forall run | Legal(g, s0, run) && Clean(g, s0, run) && Along(g, s0, run, ThriftyStep) && Tidy(g, s0, run)
        ensures KeepsData(g, s0, run)
      {
        ThriftyKeeps(g, s0, run);
      }
    }
  }

  lemma LosesData(g: Geometry, s0: State, run: seq<Step>, recovery: seq<Step>)
    requires |s0.disk| == g.size && Legal(g, s0, run) && Recovers(g, After(g, s0, run), recovery)
    requires var s, s' := After(g, s0, run), After(g, DoCrash(After(g, s0, run)), recovery);
             && s.h.durable == 0 && g.Home(g.start + g.nlog) && |s'.disk| == g.size
             && s'.disk[g.start + g.nlog] != s0.disk[g.start + g.nlog]
    ensures !KeepsData(g, s0, run)
  {
    hide Legal, After, Recovers;
    var s := After(g, s0, run);
    assert s.h.writes[..0] == [];
  }

  /** mkfs: FSSIZE blocks, log from block 2 on, nlog = LOGSIZE. */
  lemma MkfsImage(s0: State)
    requires Initial(Geometry(1000, 2, LOGSIZE), s0)
    ensures PanicReachable(Geometry(1000, 2, LOGSIZE), s0)
    ensures Overflowable(Geometry(1000, 2, LOGSIZE), s0, FrugalStep) && !KeepsAllData(Geometry(1000, 2, LOGSIZE), s0)
  {
    hide PanicReachable, Overflowable, KeepsAllData, Initial;
    var g := Geometry(1000, 2, LOGSIZE);
    assert |s0.disk| == g.size by { InitialInv(g, s0); }
    PanicReachableIff(g, s0);
    OverflowIff(g, s0);
    KeepsAllDataIff(g, s0);
  }
}
