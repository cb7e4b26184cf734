/** Disk blocks, the place of the log on the disk, the log header's encoding (kernel/log.c,
    kernel/fs.h), and the meaning of a sequence of block writes. */
module LogDisk {
  import opened Wrappers

  const MAXOPBLOCKS := 10
  const LOGSIZE := 3 * MAXOPBLOCKS
  const NPROC := 64
  const WORDS := 256 // BSIZE / sizeof(int)

  type Block = b: seq<int> | |b| == WORDS witness seq(WORDS, _ => 0)

  type Disk = seq<Block>

  /** The disk has `size` blocks; the log's header is block `start` and the log has `nlog` blocks
      in all (log.start and log.size in the source). Every other block is a home block. */
  datatype Geometry = Geometry(size: nat, start: nat, nlog: nat) {
    predicate Ok() { 1 <= nlog && start + nlog <= size }

    predicate Home(b: nat) { b < size && !(start <= b < start + nlog) }

    // The most entries a header can get: log_write's two guards.
    function Capacity(): int { if LOGSIZE < nlog - 1 then LOGSIZE else nlog - 1 }

    ghost predicate HomeList(lh: seq<nat>) {
      && (forall i :: 0 <= i < |lh| ==> Home(lh[i]))
      && (forall i, j :: 0 <= i < j < |lh| ==> lh[i] != lh[j])
      && |lh| <= Capacity()
    }
  }

  /** write_head: the count, then that many block numbers; words beyond them keep their old value. */
  function EncodeHead(prev: Block, lh: seq<nat>): (b: Block)
    requires |lh| < WORDS
  {
    [|lh|] + lh + prev[|lh| + 1..]
  }

  /** read_head: the block numbers that the count covers. */
  function DecodeHead(b: Block): (lh: seq<nat>)
    requires 0 <= b[0] < WORDS
    requires forall i :: 1 <= i <= b[0] ==> b[i] >= 0
  {
    seq(b[0], i requires 0 <= i < b[0] => b[i + 1])
  }

  /** Whatever the header block held before, reading back a written header gives the list written. */
  lemma HeadRoundTrip(prev: Block, lh: seq<nat>)
    requires |lh| < WORDS
    ensures var b := EncodeHead(prev, lh);
            && b[0] == |lh|
            && (forall i :: 1 <= i <= b[0] ==> b[i] >= 0)
            && DecodeHead(b) == lh
  {
    var b := EncodeHead(prev, lh);
    assert forall i :: 0 <= i < |lh| ==> b[i + 1] == lh[i];
    assert forall i :: 1 <= i <= b[0] ==> b[i] == lh[i - 1];
  }

  /** One block that goes into a commit: which operation wrote it, and what. `logged` says that it was
      passed to log_write; otherwise it is a slip: bytes that a commit found in the buffer instead. */
  datatype Write = Write(op: nat, block: nat, data: Block, logged: bool)

  ghost predicate WritesOk(g: Geometry, ws: seq<Write>) {
    forall i :: 0 <= i < |ws| ==> g.Home(ws[i].block)
  }

  /** The flat array of blocks that results from doing `ws` in order, with no cache, log or crash. */
  ghost function Replay(g: Geometry, init: Disk, ws: seq<Write>): (d: Disk)
    requires |init| == g.size && WritesOk(g, ws)
    ensures |d| == g.size
  {
    if ws == [] then init
    else
      var w := ws[|ws| - 1];
      Replay(g, init, ws[..|ws| - 1])[w.block := w.data]
  }

  /** The last write to block b. */
  function LastWrite(ws: seq<Write>, b: nat): (w: Option<Write>) {
    if ws == [] then None
    else if ws[|ws| - 1].block == b then Some(ws[|ws| - 1])
    else LastWrite(ws[..|ws| - 1], b)
  }

  /** Without the slips. */
  function Logged(ws: seq<Write>): (r: seq<Write>) {
    if ws == [] then [] else Logged(ws[..|ws| - 1]) + if ws[|ws| - 1].logged then [ws[|ws| - 1]] else []
  }

  lemma {:induction false} LoggedOk(g: Geometry, ws: seq<Write>)
    requires WritesOk(g, ws)
    ensures WritesOk(g, Logged(ws))
  {
    if ws != [] {
      LoggedOk(g, ws[..|ws| - 1]);
    }
  }

  lemma {:induction false} AllLogged(ws: seq<Write>)
    requires forall i :: 0 <= i < |ws| ==> ws[i].logged
    ensures Logged(ws) == ws
  {
    if ws != [] {
      AllLogged(ws[..|ws| - 1]);
    }
  }

  lemma LastAppend(ws: seq<Write>, w: Write, b: nat)
    ensures LastWrite(ws + [w], b) == if w.block == b then Some(w) else LastWrite(ws, b)
  {
    assert (ws + [w])[..|ws|] == ws;
  }

  /** A block of the flat array holds what the last write to it put there. */
  lemma {:induction false} ReplayLast(g: Geometry, init: Disk, ws: seq<Write>, b: nat)
    requires |init| == g.size && WritesOk(g, ws) && b < g.size
    ensures Replay(g, init, ws)[b] == if LastWrite(ws, b).Some? then LastWrite(ws, b).value.data else init[b]
    ensures LastWrite(ws, b).Some? ==> LastWrite(ws, b).value.block == b && LastWrite(ws, b).value in ws
  {
    if ws != [] {
      ReplayLast(g, init, ws[..|ws| - 1], b);
    }
  }

  /** Every slip follows a logged write to its block, and differs from it. */
  ghost predicate SlipsOk(ws: seq<Write>) {
    forall i :: 0 <= i < |ws| && !ws[i].logged ==> SlipAt(ws, i)
  }

  ghost predicate SlipAt(ws: seq<Write>, i: nat)
    requires i < |ws|
  {
    var w := LastWrite(ws[..i], ws[i].block);
    w.Some? && w.value.logged && w.value.data != ws[i].data
  }

  lemma SlipsPrefix(ws: seq<Write>, k: nat)
    requires SlipsOk(ws) && k <= |ws|
    ensures SlipsOk(ws[..k])
  {
    forall i | 0 <= i < k && !ws[i].logged
      ensures SlipAt(ws[..k], i)
    {
      assert SlipAt(ws, i) && ws[..k][..i] == ws[..i];
    }
  }

  lemma SlipsAppend(ws: seq<Write>, w: Write)
    requires SlipsOk(ws)
    requires w.logged || (var l := LastWrite(ws, w.block); l.Some? && l.value.logged && l.value.data != w.data)
    ensures SlipsOk(ws + [w])
  {
    var all := ws + [w];
    forall i | 0 <= i < |all| && !all[i].logged
      ensures SlipAt(all, i)
    {
      assert all[..i] == ws[..i];
      assert i < |ws| ==> SlipAt(ws, i);
      assert i == |ws| ==> ws[..i] == ws;
    }
  }

  // What the last logged write to b put there.
  lemma {:induction false} LoggedLast(g: Geometry, init: Disk, ws: seq<Write>, b: nat)
    requires |init| == g.size && WritesOk(g, ws) && b < g.size
    requires var w := LastWrite(ws, b); w.None? || w.value.logged
    ensures WritesOk(g, Logged(ws)) && Replay(g, init, Logged(ws))[b] == Replay(g, init, ws)[b]
  {
    LoggedOk(g, ws);
    if ws != [] {
      var pre, w := ws[..|ws| - 1], ws[|ws| - 1];
      LoggedOk(g, pre);
      assert Logged(ws) == if w.logged then Logged(pre) + [w] else Logged(pre);
      if w.logged {
        ReplayAppend(g, init, Logged(pre), w);
      }
      if w.block != b {
        LoggedLast(g, init, pre, b);
      }
    }
  }

  /** With and without the slips a block holds the same bytes, exactly if the last write to it is no slip. */
  lemma {:induction false} SlippedIff(g: Geometry, init: Disk, ws: seq<Write>, b: nat)
    requires |init| == g.size && WritesOk(g, ws) && b < g.size && SlipsOk(ws)
    ensures WritesOk(g, Logged(ws))
    ensures Replay(g, init, ws)[b] != Replay(g, init, Logged(ws))[b] <==> Slipped(ws, b)
  {
    LoggedOk(g, ws);
    if !Slipped(ws, b) {
      LoggedLast(g, init, ws, b);
    } else {
      var pre, w := ws[..|ws| - 1], ws[|ws| - 1];
      SlipsPrefix(ws, |ws| - 1);
      LoggedOk(g, pre);
      assert Logged(ws) == if w.logged then Logged(pre) + [w] else Logged(pre);
      if w.block == b {
        assert SlipAt(ws, |ws| - 1);
        LoggedLast(g, init, pre, b);
        ReplayLast(g, init, pre, b);
      } else {
        SlippedIff(g, init, pre, b);
        if w.logged {
          ReplayAppend(g, init, Logged(pre), w);
        }
      }
    }
  }

  ghost predicate Slipped(ws: seq<Write>, b: nat) { LastWrite(ws, b).Some? && !LastWrite(ws, b).value.logged }

  lemma ReplayAppend(g: Geometry, init: Disk, ws: seq<Write>, w: Write)
    requires |init| == g.size && WritesOk(g, ws) && g.Home(w.block)
    ensures WritesOk(g, ws + [w])
    ensures Replay(g, init, ws + [w]) == Replay(g, init, ws)[w.block := w.data]
  {
    assert (ws + [w])[..|ws + [w]| - 1] == ws;
  }

  /** Writes from position `k` on change only the blocks they name. */
  lemma {:induction false} ReplayUntouched(g: Geometry, init: Disk, ws: seq<Write>, k: nat, b: nat)
    requires |init| == g.size && WritesOk(g, ws) && k <= |ws| && b < g.size
    requires forall j :: k <= j < |ws| ==> ws[j].block != b
    ensures Replay(g, init, ws)[b] == Replay(g, init, ws[..k])[b]
  {
    if k == |ws| {
      assert ws[..k] == ws;
    } else {
      var pre := ws[..|ws| - 1];
      ReplayUntouched(g, init, pre, k, b);
      assert pre[..k] == ws[..k];
    }
  }
}
