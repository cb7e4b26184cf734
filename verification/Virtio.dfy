/** The disk driver's request ring (kernel/virtio_disk.c; section 2.6, Split Virtqueues, of VIRTIO 1.1), for
    any number of processes and a device that completes the chains offered to it in any order. What is done
    with vdisk_lock held is one step. */
module Virtio {
  import opened Wrappers
  import opened Numbers

  const NUM := 8
  const UINT16 := 0x1_0000

  /** flags & VRING_DESC_F_NEXT, and next. */
  datatype Desc = Desc(more: bool, next: nat)

  /** How far a request has come: at position k of what was offered; with the device; at position k of what
      the device has finished; seen by virtio_disk_intr. */
  datatype Stage = Offered(k: nat) | Serving | Finished(k: nat) | Seen

  /** Idle; waiting in virtio_disk_rw for its chain of three descriptors, for the buffer buf. */
  datatype Pc = Idle | Waiting(buf: nat, a: nat, b: nat, c: nat, stage: Stage)

  /** free, desc, avail, availIdx, used, usedId, usedIdx and info are the driver's and the device's memory;
      disk[b] is b->disk. The rest is history: all heads offered and how many the device has fetched, all
      heads finished and how many virtio_disk_intr has seen, and whose each descriptor is. */
  datatype State = State(free: seq<bool>, desc: seq<Desc>, avail: seq<nat>, availIdx: nat, used: seq<nat>,
                        usedId: nat, usedIdx: nat,
                         info: seq<Option<nat>>, disk: seq<bool>, pcs: seq<Pc>,
                         offered: seq<nat>, fetched: nat, serving: set<nat>, finished: seq<nat>, seen: nat,
                           who: seq<Option<nat>>)

  datatype Step = Submit(i: nat, buf: nat, a: nat, b: nat,
                        c: nat) | Return(i: nat) | Interrupt | Fetch | Complete(id: nat)

  ghost predicate Shape(s: State) {
    && |s.free| == |s.desc| == |s.avail| == |s.used| == |s.info| == |s.who| == NUM && s.fetched <= |s.offered|
       && s.seen <= |s.finished|
    && s.availIdx < UINT16 && s.usedId < UINT16 && s.usedIdx < NUM
  }

  /** A process submits a buffer that it has locked: no other request is for it. The device fetches what it
      has not fetched yet, and completes what it has fetched, once. */
  ghost predicate Enabled(s: State, t: Step)
    requires Shape(s)
  {
    match t
    case Submit(i, buf, a, b, c) =>
      && i < |s.pcs| && s.pcs[i].Idle? && a < NUM && b < NUM && c < NUM && a != b && a != c && b != c && s.free[a]
         && s.free[b] && s.free[c]
      && buf < |s.disk| && forall j :: 0 <= j < |s.pcs| && s.pcs[j].Waiting? ==> s.pcs[j].buf != buf
    case Return(i) => i < |s.pcs| && s.pcs[i].Waiting? && s.pcs[i].buf < |s.disk| && !s.disk[s.pcs[i].buf]
    case Interrupt => s.usedIdx % NUM != s.usedId % NUM
    case Fetch => s.fetched < |s.offered|
    case Complete(id) => id in s.serving
  }

  // ---- The invariant ----

  // The chain of process i is what virtio_disk_rw made it, and the request is where its stage says.
  ghost predicate ChainOk(s: State, i: nat)
    requires Shape(s) && i < |s.pcs| && s.pcs[i].Waiting?
  {
    var p := s.pcs[i];
    && p.a < NUM && p.b < NUM && p.c < NUM && p.a != p.b && p.a != p.c && p.b != p.c
    && s.who[p.a] == s.who[p.b] == s.who[p.c] == Some(i)
    && s.desc[p.a] == Desc(true, p.b) && s.desc[p.b] == Desc(true, p.c) && !s.desc[p.c].more
    && s.info[p.a] == Some(p.buf) && p.buf < |s.disk| && s.disk[p.buf] == !p.stage.Seen?
    && match p.stage
       case Offered(k) => s.fetched <= k < |s.offered| && s.offered[k] == p.a
       case Serving => p.a in s.serving
       case Finished(k) => s.seen <= k < |s.finished| && s.finished[k] == p.a
       case Seen => true
  }

  // Descriptor d is the head of a chain at that stage.
  ghost predicate HeadAt(s: State, d: nat, stage: Stage)
    requires Shape(s)
  {
    d < NUM && s.who[d].Some? && s.who[d].value < |s.pcs| && s.pcs[s.who[d].value].Waiting?
      && s.pcs[s.who[d].value].a == d && s.pcs[s.who[d].value].stage == stage
  }

  ghost predicate Chains(s: State)
    requires Shape(s)
  {
    && (forall i :: 0 <= i < |s.pcs| && s.pcs[i].Waiting? ==> ChainOk(s, i))
    && (forall d :: 0 <= d < NUM ==> (s.free[d] <==> s.who[d].None?))
    && (forall d :: 0 <= d < NUM && s.who[d].Some? ==> OwnsIt(s, d))
    && (forall i, j :: 0 <= i < j < |s.pcs| && s.pcs[i].Waiting? && s.pcs[j].Waiting? ==> s.pcs[i].buf != s.pcs[j].buf)
  }

  ghost predicate OwnsIt(s: State, d: nat)
    requires Shape(s) && d < NUM && s.who[d].Some?
  {
    var i := s.who[d].value;
    i < |s.pcs| && s.pcs[i].Waiting? && (d == s.pcs[i].a || d == s.pcs[i].b || d == s.pcs[i].c)
  }

  ghost predicate Rings(s: State)
    requires Shape(s)
  {
    && s.availIdx == |s.offered| % UINT16 && s.usedId == |s.finished| % UINT16 && s.usedIdx == s.seen % NUM
    && (forall k :: s.fetched <= k < |s.offered| ==>
       s.avail[k % NUM] == s.offered[k] && HeadAt(s, s.offered[k], Offered(k)))
    && (forall k :: s.seen <= k < |s.finished| ==>
       s.used[k % NUM] == s.finished[k] && HeadAt(s, s.finished[k], Finished(k)))
    && (forall d :: d in s.serving ==> HeadAt(s, d, Serving))
  }

  ghost predicate Inv(s: State) { Shape(s) && Chains(s) && Rings(s) }

  // ---- At most two chains ----

  /** Three requests would need nine descriptors. */
  lemma AtMostTwo(s: State, i: nat, j: nat, k: nat)
    requires Inv(s) && i < |s.pcs| && j < |s.pcs| && k < |s.pcs| && s.pcs[i].Waiting? && s.pcs[j].Waiting?
             && s.pcs[k].Waiting?
    ensures i == j || i == k || j == k
  {
    hide Rings, ChainOk;
    var x, y, z := Chain(s.pcs[i]), Chain(s.pcs[j]), Chain(s.pcs[k]);
    ThreeOf(s, i);
    ThreeOf(s, j);
    ThreeOf(s, k);
    if i != j && i != k && j != k {
      assert x !! y && x !! z && y !! z;
      NineIsTooMany(x, y, z);
    }
  }

  ghost function Chain(p: Pc): (r: set<nat>)
    requires p.Waiting?
  {
    {p.a, p.b, p.c}
  }

  lemma ThreeOf(s: State, i: nat)
    requires Inv(s) && i < |s.pcs| && s.pcs[i].Waiting?
    ensures |Chain(s.pcs[i])| == 3 && forall d :: d in Chain(s.pcs[i]) ==> d < NUM && s.who[d] == Some(i)
  {
    assert ChainOk(s, i);
  }

  lemma NineIsTooMany(x: set<nat>, y: set<nat>, z: set<nat>)
    requires |x| == |y| == |z| == 3 && forall d :: d in x + y + z ==> d < NUM
    ensures x !! y && x !! z ==> !(y !! z)
  {
    FewerThan(x + y + z, 0, NUM);
    assert |x + y| == |x| + |y| - |x * y|;
    assert |x + y + z| == |x + y| + |z| - |(x + y) * z|;
  }

  /** So at most two entries of either ring are waiting, and indices modulo NUM tell them apart. */
  lemma FewPending(s: State)
    requires Inv(s)
    ensures |s.finished| - s.seen <= 2 && |s.offered| - s.fetched <= 2
  {
    if |s.finished| - s.seen > 2 {
      var n := s.seen;
      assert HeadAt(s, s.finished[n], Finished(n)) && HeadAt(s, s.finished[n + 1], Finished(n + 1))
             && HeadAt(s, s.finished[n + 2], Finished(n + 2));
      AtMostTwo(s, s.who[s.finished[n]].value, s.who[s.finished[n + 1]].value, s.who[s.finished[n + 2]].value);
    }
    if |s.offered| - s.fetched > 2 {
      var n := s.fetched;
      assert HeadAt(s, s.offered[n], Offered(n)) && HeadAt(s, s.offered[n + 1], Offered(n + 1))
             && HeadAt(s, s.offered[n + 2], Offered(n + 2));
      AtMostTwo(s, s.who[s.offered[n]].value, s.who[s.offered[n + 1]].value, s.who[s.offered[n + 2]].value);
    }
  }

  /** The interrupt handler's test finds a finished request exactly if there is one. */
  lemma TestIsExact(s: State)
    requires Inv(s)
    ensures s.usedIdx % NUM != s.usedId % NUM <==> s.seen < |s.finished|
  {
    FewPending(s);
    assert |s.finished| % UINT16 % NUM == |s.finished| % NUM;
  }

  // ---- The steps ----

  ghost predicate CanStep(s: State, t: Step) { Inv(s) && Enabled(s, t) }

  /** virtio_disk_rw up to the wait for b->disk, with descriptors a, b and c from alloc3_desc. */
  ghost function DoSubmit(s: State, t: Step): (s': State)
    requires CanStep(s, t) && t.Submit?
  {
    s.(free := s.free[t.a := false][t.b := false][t.c := false],
       desc := s.desc[t.a := Desc(true, t.b)][t.b := Desc(true, t.c)][t.c := Desc(false, 0)],
       avail := s.avail[s.availIdx % NUM := t.a], availIdx := (s.availIdx + 1) % UINT16,
       info := s.info[t.a := Some(t.buf)], disk := s.disk[t.buf := true],
       pcs := s.pcs[t.i := Waiting(t.buf, t.a, t.b, t.c, Offered(|s.offered|))],
       offered := s.offered + [t.a], who := s.who[t.a := Some(t.i)][t.b := Some(t.i)][t.c := Some(t.i)])
  }

  /** virtio_disk_rw after the wait: free_chain, and return. */
  ghost function DoReturn(s: State, t: Step): (s': State)
    requires CanStep(s, t) && t.Return?
  {
    var p := s.pcs[t.i];
    assert ChainOk(s, t.i);
    s.(info := s.info[p.a := None], free := s.free[p.a := true][p.b := true][p.c := true], pcs := s.pcs[t.i := Idle],
       who := s.who[p.a := None][p.b := None][p.c := None])
  }

  // The next chain that the device is to fetch, the next one that virtio_disk_intr is to see, and whose it is.

  lemma NextFetch(s: State)
    requires Inv(s) && s.fetched < |s.offered|
    ensures var id := s.avail[s.fetched % NUM]; id == s.offered[s.fetched] && HeadAt(s, id, Offered(s.fetched))
  {
  }

  lemma NextSeen(s: State)
    requires Inv(s) && s.usedIdx % NUM != s.usedId % NUM
    ensures s.seen < |s.finished|
    ensures var id := s.used[s.usedIdx];
            id == s.finished[s.seen] && HeadAt(s, id, Finished(s.seen)) && ChainOk(s, s.who[id].value)
  {
    TestIsExact(s);
    assert HeadAt(s, s.finished[s.seen], Finished(s.seen));
    assert ChainOk(s, s.who[s.finished[s.seen]].value);
  }

  /** One round of virtio_disk_intr's loop. */
  ghost function DoInterrupt(s: State): (s': State)
    requires CanStep(s, Interrupt)
  {
    NextSeen(s);
    var id := s.used[s.usedIdx];
    var i := s.who[id].value;
    s.(disk := s.disk[s.info[id].value := false], usedIdx := (s.usedIdx + 1) % NUM, seen := s.seen + 1,
       pcs := s.pcs[i := s.pcs[i].(stage := Seen)])
  }

  /** The device reads the next entry of the available ring. */
  ghost function DoFetch(s: State): (s': State)
    requires CanStep(s, Fetch)
  {
    NextFetch(s);
    var id := s.avail[s.fetched % NUM];
    var i := s.who[id].value;
    s.(fetched := s.fetched + 1, serving := s.serving + {id}, pcs := s.pcs[i := s.pcs[i].(stage := Serving)])
  }

  /** The device has finished a chain and says so in the used ring. */
  ghost function DoComplete(s: State, t: Step): (s': State)
    requires CanStep(s, t) && t.Complete?
  {
    assert HeadAt(s, t.id, Serving);
    var i := s.who[t.id].value;
    s.(serving := s.serving - {t.id}, used := s.used[|s.finished| % NUM := t.id], usedId := (s.usedId + 1) % UINT16,
      finished := s.finished + [t.id],
       pcs := s.pcs[i := s.pcs[i].(stage := Finished(|s.finished|))])
  }

  ghost function Apply(s: State, t: Step): (s': State)
    requires CanStep(s, t)
  {
    match t
    case Submit(_, _, _, _, _) => DoSubmit(s, t)
    case Return(_) => DoReturn(s, t)
    case Interrupt => DoInterrupt(s)
    case Fetch => DoFetch(s)
    case Complete(_) => DoComplete(s, t)
  }

  lemma SubmitChains(s: State, t: Step)
    requires CanStep(s, t) && t.Submit?
    ensures Shape(DoSubmit(s, t)) && Chains(DoSubmit(s, t))
  {
    hide ChainOk, Rings;
    var s' := DoSubmit(s, t);
    forall i | 0 <= i < |s'.pcs| && s'.pcs[i].Waiting?
      ensures ChainOk(s', i)
    {
      SubmitChain(s, t, i);
    }
    forall d | 0 <= d < NUM && s'.who[d].Some?
      ensures OwnsIt(s', d)
    {
      assert s.who[d].Some? ==> OwnsIt(s, d);
    }
  }

  lemma SubmitChain(s: State, t: Step, i: nat)
    requires CanStep(s, t) && t.Submit? && Shape(DoSubmit(s, t)) && i < |s.pcs| && DoSubmit(s, t).pcs[i].Waiting?
    ensures ChainOk(DoSubmit(s, t), i)
  {
    hide Rings;
    assert i != t.i ==> ChainOk(s, i);
  }

  lemma SubmitRings(s: State, t: Step)
    requires CanStep(s, t) && t.Submit? && Shape(DoSubmit(s, t))
    ensures Rings(DoSubmit(s, t))
  {
    hide HeadAt, Chains;
    var s' := DoSubmit(s, t);
    FewPending(s);
    Wrap(|s.offered|);
    SubmitNewHead(s, t);
    forall d: nat, h: Stage | HeadAt(s, d, h)
      ensures HeadAt(s', d, h)
    {
      SubmitHead(s, t, d, h);
    }
    forall k | s'.fetched <= k < |s'.offered|
      ensures s'.avail[k % NUM] == s'.offered[k] && HeadAt(s', s'.offered[k], Offered(k))
    {
      if k < |s.offered| {
        assert HeadAt(s, s.offered[k], Offered(k));
        Different(k, |s.offered|);
      }
    }
  }

  lemma SubmitHead(s: State, t: Step, d: nat, h: Stage)
    requires CanStep(s, t) && t.Submit? && Shape(DoSubmit(s, t)) && HeadAt(s, d, h)
    ensures HeadAt(DoSubmit(s, t), d, h)
  {
    hide Rings;
  }

  lemma SubmitNewHead(s: State, t: Step)
    requires CanStep(s, t) && t.Submit? && Shape(DoSubmit(s, t))
    ensures HeadAt(DoSubmit(s, t), t.a, Offered(|s.offered|))
  {
    hide Rings, Chains;
  }

  lemma Wrap(n: nat)
    ensures n % UINT16 % NUM == n % NUM && (n % UINT16 + 1) % UINT16 == (n + 1) % UINT16
  {
    var q := n / UINT16;
    assert n == UINT16 * q + n % UINT16;
  }

  lemma Different(k: nat, n: nat)
    requires k < n < k + NUM
    ensures k % NUM != n % NUM
  {
  }

  lemma KeepSubmit(s: State, t: Step)
    requires CanStep(s, t) && t.Submit?
    ensures Inv(DoSubmit(s, t))
  {
    SubmitChains(s, t);
    SubmitRings(s, t);
  }

  /** The three descriptors that free_chain frees are in use: its panics do not happen. */
  lemma KeepReturn(s: State, t: Step)
    requires CanStep(s, t) && t.Return?
    ensures var p := s.pcs[t.i]; p.a < NUM && p.b < NUM && p.c < NUM && !s.free[p.a] && !s.free[p.b] && !s.free[p.c]
    ensures Inv(DoReturn(s, t))
  {
    hide ChainOk, HeadAt;
    var s', p := DoReturn(s, t), s.pcs[t.i];
    assert ChainOk(s, t.i);
    ReturnFacts(s, t);
    forall i | 0 <= i < |s'.pcs| && s'.pcs[i].Waiting?
      ensures ChainOk(s', i)
    {
      ReturnChain(s, t, i);
    }
    forall d | 0 <= d < NUM && s'.who[d].Some?
      ensures OwnsIt(s', d)
    {
      assert OwnsIt(s, d);
    }
    forall d: nat, g: Stage | HeadAt(s, d, g) && !g.Seen?
      ensures HeadAt(s', d, g)
    {
      ReturnHead(s, t, d, g);
    }
  }

  lemma ReturnFacts(s: State, t: Step)
    requires CanStep(s, t) && t.Return?
    ensures var p := s.pcs[t.i];
            p.a < NUM && p.b < NUM && p.c < NUM && !s.free[p.a] && !s.free[p.b] && !s.free[p.c] && p.stage.Seen?
    ensures var p := s.pcs[t.i]; s.who[p.a] == s.who[p.b] == s.who[p.c] == Some(t.i)
  {
    assert ChainOk(s, t.i);
  }

  lemma ReturnChain(s: State, t: Step, i: nat)
    requires CanStep(s, t) && t.Return? && i < |s.pcs| && i != t.i && s.pcs[i].Waiting? && Shape(DoReturn(s, t))
    ensures ChainOk(DoReturn(s, t), i)
  {
    assert ChainOk(s, i) && ChainOk(s, t.i);
  }

  lemma ReturnHead(s: State, t: Step, d: nat, g: Stage)
    requires CanStep(s, t) && t.Return? && HeadAt(s, d, g) && !g.Seen? && Shape(DoReturn(s, t))
    ensures HeadAt(DoReturn(s, t), d, g)
  {
    assert ChainOk(s, t.i);
  }

  // A step that only moves the chain of process i to another stage.
  ghost predicate Moves(s: State, s': State, i: nat, g: Stage) {
    && Shape(s) && Shape(s') && i < |s.pcs| && s.pcs[i].Waiting? && s'.pcs == s.pcs[i := s.pcs[i].(stage := g)]
    && s'.who == s.who && s'.free == s.free && s'.desc == s.desc && s'.info == s.info
  }

  lemma MovesOwner(s: State, s': State, i: nat, g: Stage)
    requires Moves(s, s', i, g) && Chains(s)
    ensures forall d :: 0 <= d < NUM && s'.who[d].Some? ==> OwnsIt(s', d)
    ensures forall d :: 0 <= d < NUM ==> (s'.free[d] <==> s'.who[d].None?)
    ensures forall i, j :: 0 <= i < j < |s'.pcs| && s'.pcs[i].Waiting? && s'.pcs[j].Waiting? ==>
            s'.pcs[i].buf != s'.pcs[j].buf
  {
    forall d | 0 <= d < NUM && s'.who[d].Some?
      ensures OwnsIt(s', d)
    {
      assert OwnsIt(s, d);
    }
  }

  lemma KeepFetch(s: State)
    requires CanStep(s, Fetch)
    ensures Inv(DoFetch(s))
  {
    hide ChainOk, HeadAt, OwnsIt;
    NextFetch(s);
    var s', id := DoFetch(s), s.avail[s.fetched % NUM];
    FetchMoves(s);
    var i := s.who[id].value;
    MovesOwner(s, s', i, Serving);
    forall j | 0 <= j < |s'.pcs| && s'.pcs[j].Waiting?
      ensures ChainOk(s', j)
    {
      FetchChain(s, j);
    }
    forall d: nat, h: Stage | HeadAt(s, d, h) && h != Offered(s.fetched)
      ensures HeadAt(s', d, h)
    {
      FetchHead(s, d, h);
    }
  }

  lemma FetchMoves(s: State)
    requires CanStep(s, Fetch)
    ensures var id := s.avail[s.fetched % NUM];
            id < NUM && s.who[id].Some? && Moves(s, DoFetch(s), s.who[id].value, Serving)
            && HeadAt(DoFetch(s), id, Serving)
  {
    NextFetch(s);
  }

  lemma FetchChain(s: State, j: nat)
    requires CanStep(s, Fetch) && j < |s.pcs| && s.pcs[j].Waiting? && Shape(DoFetch(s))
    ensures ChainOk(DoFetch(s), j)
  {
    NextFetch(s);
    assert ChainOk(s, j);
  }

  lemma FetchHead(s: State, d: nat, h: Stage)
    requires CanStep(s, Fetch) && HeadAt(s, d, h) && h != Offered(s.fetched) && Shape(DoFetch(s))
    ensures HeadAt(DoFetch(s), d, h)
  {
    NextFetch(s);
  }

  lemma KeepComplete(s: State, t: Step)
    requires CanStep(s, t) && t.Complete?
    ensures Inv(DoComplete(s, t))
  {
    hide ChainOk, HeadAt, OwnsIt;
    var s' := DoComplete(s, t);
    CompleteMoves(s, t);
    var i := s.who[t.id].value;
    MovesOwner(s, s', i, Finished(|s.finished|));
    FewPending(s);
    Wrap(|s.finished|);
    forall j | 0 <= j < |s'.pcs| && s'.pcs[j].Waiting?
      ensures ChainOk(s', j)
    {
      CompleteChain(s, t, j);
    }
    forall d: nat, h: Stage | HeadAt(s, d, h) && !(h.Serving? && d == t.id)
      ensures HeadAt(s', d, h)
    {
      CompleteHead(s, t, d, h);
    }
    forall k | s'.seen <= k < |s'.finished|
      ensures s'.used[k % NUM] == s'.finished[k] && HeadAt(s', s'.finished[k], Finished(k))
    {
      if k < |s.finished| {
        assert HeadAt(s, s.finished[k], Finished(k));
        Different(k, |s.finished|);
      }
    }
  }

  lemma CompleteMoves(s: State, t: Step)
    requires CanStep(s, t) && t.Complete?
    ensures t.id < NUM && s.who[t.id].Some? && Moves(s, DoComplete(s, t), s.who[t.id].value, Finished(|s.finished|))
    ensures HeadAt(DoComplete(s, t), t.id, Finished(|s.finished|))
  {
    assert HeadAt(s, t.id, Serving);
  }

  lemma CompleteChain(s: State, t: Step, j: nat)
    requires CanStep(s, t) && t.Complete? && j < |s.pcs| && s.pcs[j].Waiting? && Shape(DoComplete(s, t))
    ensures ChainOk(DoComplete(s, t), j)
  {
    assert HeadAt(s, t.id, Serving);
    assert ChainOk(s, j);
  }

  lemma CompleteHead(s: State, t: Step, d: nat, h: Stage)
    requires CanStep(s, t) && t.Complete? && HeadAt(s, d, h) && !(h.Serving? && d == t.id) && Shape(DoComplete(s, t))
    ensures HeadAt(DoComplete(s, t), d, h)
  {
    assert HeadAt(s, t.id, Serving);
  }

  lemma KeepInterrupt(s: State)
    requires CanStep(s, Interrupt)
    ensures Inv(DoInterrupt(s))
  {
    hide ChainOk, HeadAt, OwnsIt;
    NextSeen(s);
    var s', id := DoInterrupt(s), s.used[s.usedIdx];
    InterruptMoves(s);
    var i := s.who[id].value;
    MovesOwner(s, s', i, Seen);
    forall j | 0 <= j < |s'.pcs| && s'.pcs[j].Waiting?
      ensures ChainOk(s', j)
    {
      InterruptChain(s, j);
    }
    forall d: nat, h: Stage | HeadAt(s, d, h) && h != Finished(s.seen)
      ensures HeadAt(s', d, h)
    {
      InterruptHead(s, d, h);
    }
    Rounds(s.seen);
  }

  lemma Rounds(n: nat)
    ensures (n % NUM + 1) % NUM == (n + 1) % NUM
  {
  }

  lemma InterruptMoves(s: State)
    requires CanStep(s, Interrupt)
    ensures var id := s.used[s.usedIdx]; id < NUM && s.who[id].Some? && Moves(s, DoInterrupt(s), s.who[id].value, Seen)
  {
    NextSeen(s);
  }

  lemma InterruptChain(s: State, j: nat)
    requires CanStep(s, Interrupt) && j < |s.pcs| && s.pcs[j].Waiting? && Shape(DoInterrupt(s))
    ensures ChainOk(DoInterrupt(s), j)
  {
    NextSeen(s);
    assert ChainOk(s, j);
  }

  lemma InterruptHead(s: State, d: nat, h: Stage)
    requires CanStep(s, Interrupt) && HeadAt(s, d, h) && h != Finished(s.seen) && Shape(DoInterrupt(s))
    ensures HeadAt(DoInterrupt(s), d, h)
  {
    NextSeen(s);
  }

  lemma KeepStep(s: State, t: Step)
    requires CanStep(s, t)
    ensures Inv(Apply(s, t))
  {
    hide Inv, DoSubmit, DoReturn, DoInterrupt, DoFetch, DoComplete;
    match t
    case Submit(_, _, _, _, _) => KeepSubmit(s, t);
    case Return(_) => KeepReturn(s, t);
    case Interrupt => KeepInterrupt(s);
    case Fetch => KeepFetch(s);
    case Complete(_) => KeepComplete(s, t);
  }

  // ---- Runs ----

  ghost predicate Initial(s: State) {
    && Shape(s) && (forall d :: 0 <= d < NUM ==> s.free[d] && s.who[d].None?)
       && (forall i :: 0 <= i < |s.pcs| ==> s.pcs[i].Idle?)
    && s.availIdx == s.usedId == s.usedIdx == 0 && s.offered == [] && s.finished == [] && s.serving == {}
  }

  ghost predicate Legal(s: State, ts: seq<Step>)
    requires Inv(s)
    decreases |ts|
  {
    |ts| == 0 || (Enabled(s, ts[0]) && (KeepStep(s, ts[0]); Legal(Apply(s, ts[0]), ts[1..])))
  }

  ghost function After(s: State, ts: seq<Step>): (s': State)
    requires Inv(s) && Legal(s, ts)
    ensures Inv(s')
    decreases |ts|
  {
    KeepRest(s, ts);
    if |ts| == 0 then s else After(Apply(s, ts[0]), ts[1..])
  }

  lemma KeepRest(s: State, ts: seq<Step>)
    requires Inv(s) && Legal(s, ts)
    ensures |ts| > 0 ==> CanStep(s, ts[0]) && Inv(Apply(s, ts[0])) && Legal(Apply(s, ts[0]), ts[1..])
  {
    if |ts| > 0 {
      KeepStep(s, ts[0]);
    }
  }

  lemma InitialInv(s: State)
    requires Initial(s)
    ensures Inv(s)
  {
  }

  /** In every run: chains in flight have no descriptor in common. */
  lemma DisjointChains(s: State, ts: seq<Step>, i: nat, j: nat)
    requires Initial(s) && Inv(s) && Legal(s, ts)
    requires var e := After(s, ts); i < |e.pcs| && j < |e.pcs| && i != j && e.pcs[i].Waiting? && e.pcs[j].Waiting?
    ensures Chain(After(s, ts).pcs[i]) !! Chain(After(s, ts).pcs[j])
  {
    var e := After(s, ts);
    ThreeOf(e, i);
    ThreeOf(e, j);
  }

  /** In every run at most two requests are in flight. */
  lemma FewInFlight(s: State, ts: seq<Step>, i: nat, j: nat, k: nat)
    requires Initial(s) && Inv(s) && Legal(s, ts)
    requires var e := After(s, ts);
             && i < |e.pcs| && j < |e.pcs| && k < |e.pcs|
             && e.pcs[i].Waiting? && e.pcs[j].Waiting? && e.pcs[k].Waiting?
    ensures i == j || i == k || j == k
  {
    AtMostTwo(After(s, ts), i, j, k);
  }

  /** A request is offered, fetched by the device, finished by it and seen by the interrupt handler, in that
      order, and its process returns only then: no step skips one of these. */
  lemma StagesInOrder(s: State, t: Step, s': State, i: nat)
    requires CanStep(s, t) && s' == Apply(s, t) && i < |s.pcs| == |s'.pcs| && s.pcs[i].Waiting? && s'.pcs[i] != s.pcs[i]
    ensures var g := s.pcs[i].stage;
            if s'.pcs[i].Waiting? then
              || (t.Fetch? && g.Offered? && s'.pcs[i].stage == Serving)
              || (t == Complete(s.pcs[i].a) && g == Serving && s'.pcs[i].stage.Finished?)
              || (t.Interrupt? && g.Finished? && s'.pcs[i].stage == Seen)
            else t == Return(i) && g.Seen?
  {
    hide HeadAt, Rings;
    match t
    case Submit(_, _, _, _, _) =>
    case Fetch => FetchMoved(s);
    case Complete(id) => CompleteMoved(s, t);
    case Interrupt => InterruptMoved(s);
    case Return(j) => assert ChainOk(s, j);
  }

  lemma FetchMoved(s: State)
    requires CanStep(s, Fetch)
    ensures var id := s.avail[s.fetched % NUM];
            id < NUM && s.who[id].Some? && s.who[id].value < |s.pcs| && s.pcs[s.who[id].value].Waiting?
              && s.pcs[s.who[id].value].stage.Offered?
  {
    NextFetch(s);
  }

  lemma CompleteMoved(s: State, t: Step)
    requires CanStep(s, t) && t.Complete?
    ensures t.id < NUM && s.who[t.id].Some? && s.who[t.id].value < |s.pcs| && s.pcs[s.who[t.id].value].Waiting?
    ensures s.pcs[s.who[t.id].value].stage.Serving? && s.pcs[s.who[t.id].value].a == t.id
  {
    assert HeadAt(s, t.id, Serving);
  }

  lemma InterruptMoved(s: State)
    requires CanStep(s, Interrupt)
    ensures var id := s.used[s.usedIdx];
            id < NUM && s.who[id].Some? && s.who[id].value < |s.pcs| && s.pcs[s.who[id].value].Waiting?
              && s.pcs[s.who[id].value].stage.Finished?
  {
    NextSeen(s);
  }

  // ---- Allocating and freeing descriptors ----

  ghost predicate Linked(desc: seq<Desc>, a: nat, b: nat, c: nat) {
    a < |desc| && b < |desc| && c < |desc| && desc[a] == Desc(true, b) && desc[b] == Desc(true, c) && !desc[c].more
  }

  class Descriptors {
    var free: seq<bool>
    var desc: seq<Desc>

    constructor ()
      ensures |free| == |desc| == NUM && forall d :: 0 <= d < NUM ==> free[d]
    {
      free, desc := seq(NUM, _ => true), seq(NUM, _ => Desc(false, 0));
    }

    /** alloc_desc: the first free descriptor, or None. */
    method AllocDesc() returns (d: Option<nat>)
      requires |free| == NUM
      modifies this`free
      ensures d.None? ==> free == old(free) && forall k :: 0 <= k < NUM ==> !free[k]
      ensures d.Some? ==> d.value < NUM && old(free)[d.value] && free == old(free)[d.value := false]
      ensures d.Some? ==> forall k :: 0 <= k < d.value ==> !old(free)[k]
    {
      var i := 0;
      while i < NUM
        invariant i <= NUM && free == old(free) && forall k :: 0 <= k < i ==> !free[k]
      {
        if free[i] {
          free := free[i := false];
          return Some(i);
        }
        i := i + 1;
      }
      d := None;
    }

    /** free_desc, of a descriptor that is in use: its panics do not happen. */
    method FreeDesc(i: nat)
      requires |free| == NUM && i < NUM && !free[i]
      modifies this`free
      ensures free == old(free)[i := true]
    {
      free := free[i := true];
    }

    /** alloc3_desc: three descriptors, or, if there are not three, none taken. */
    method Alloc3() returns (ok: bool, idx: seq<nat>)
      requires |free| == NUM
      modifies this`free
      ensures |free| == NUM
      ensures ok ==>
              |idx| == 3 && idx[0] < idx[1] < idx[2] < NUM && old(free)[idx[0]] && old(free)[idx[1]]
              && old(free)[idx[2]]
      ensures ok ==> free == old(free)[idx[0] := false][idx[1] := false][idx[2] := false]
      ensures !ok ==> free == old(free) && forall a, b, c :: 0 <= a < b < c < NUM ==> !(free[a] && free[b] && free[c])
    {
      idx := [];
      var i := 0;
      while i < 3
        invariant i <= 3 && |idx| == i && |free| == NUM
        invariant forall k :: 0 <= k < i ==> idx[k] < NUM && old(free)[idx[k]]
        invariant forall j, k :: 0 <= j < k < i ==> idx[j] < idx[k]
        invariant forall d :: 0 <= d < NUM ==> (free[d] <==> old(free)[d] && d !in idx)
        invariant forall d :: 0 <= d < NUM && old(free)[d] && d !in idx ==> forall k :: 0 <= k < i ==> idx[k] < d
      {
        var d := AllocDesc();
        if d.None? {
          Unwind(idx, old(free));
          return false, idx;
        }
        idx := idx + [d.value];
        i := i + 1;
      }
      assert free == old(free)[idx[0] := false][idx[1] := false][idx[2] := false];
      ok := true;
    }

    // The descriptors taken so far are freed again.
    method Unwind(idx: seq<nat>, ghost prev: seq<bool>)
      requires |free| == NUM == |prev| && |idx| < 3 && forall k :: 0 <= k < |idx| ==> idx[k] < NUM && prev[idx[k]]
      requires forall j, k :: 0 <= j < k < |idx| ==> idx[j] < idx[k]
      requires forall d :: 0 <= d < NUM ==> !free[d] && (prev[d] ==> d in idx)
      modifies this`free
      ensures free == prev && forall a, b, c :: 0 <= a < b < c < NUM ==> !(free[a] && free[b] && free[c])
    {
      var j := 0;
      while j < |idx|
        invariant j <= |idx| && |free| == NUM && forall d :: 0 <= d < NUM ==> (free[d] <==> d in idx[..j])
      {
        assert idx[j] !in idx[..j];
        FreeDesc(idx[j]);
        assert idx[..j + 1] == idx[..j] + [idx[j]];
        j := j + 1;
      }
      assert idx[..j] == idx;
    }

    /** free_chain: the descriptors of the chain, and no others, are free. */
    method FreeChain(a: nat, ghost b: nat, ghost c: nat)
      requires |free| == |desc| == NUM && Linked(desc, a, b, c) && a != b && a != c && b != c && !free[a] && !free[b]
               && !free[c]
      modifies this`free
      ensures free == old(free)[a := true][b := true][c := true]
    {
      var i := a;
      ghost var n := 0;
      while true
        invariant n <= 2 && i == (if n == 0 then a else if n == 1 then b else c) && |free| == NUM
        invariant free == (if n == 0 then old(free) else if n == 1 then old(free)[a := true]
                  else old(free)[a := true][b := true])
        decreases 2 - n
      {
        FreeDesc(i);
        if !desc[i].more {
          break;
        }
        i := desc[i].next;
        n := n + 1;
      }
    }
  }
}
