/** The file system's blocks, inodes and allocation bitmap as values (kernel/fs.h, kernel/fs.c), who
    owns each block, and what an inode's content is. */
module FsState {

  const BSIZE := 1024
  const NDIRECT := 12
  const NINDIRECT := 256 // BSIZE / sizeof(uint)
  const MAXFILE := NDIRECT + NINDIRECT
  const UINT := 0x1_0000_0000

  type Byte = x: int | 0 <= x < 256
  type Block = b: seq<Byte> | |b| == BSIZE witness seq(BSIZE, _ => 0)

  function Zeroes(): (b: Block)
    ensures forall k :: 0 <= k < BSIZE ==> b[k] == 0
  {
    seq(BSIZE, _ => 0)
  }

  // ---- A block as an array of 32-bit little-endian words ----

  function Word(b: Block, j: nat): (v: nat)
    requires j < NINDIRECT
    ensures v < UINT
  {
    var b0: int, b1: int, b2: int, b3: int := b[4 * j], b[4 * j + 1], b[4 * j + 2], b[4 * j + 3];
    b0 + 0x100 * b1 + 0x1_0000 * b2 + 0x100_0000 * b3
  }

  function PutWord(b: Block, j: nat, v: nat): (b': Block)
    requires j < NINDIRECT && v < UINT
  {
    b[4 * j := v % 0x100][4 * j + 1 := v / 0x100 % 0x100][4 * j + 2 := v / 0x1_0000 % 0x100][4 * j + 3 :=
      v / 0x100_0000]
  }

  lemma WordPut(b: Block, j: nat, v: nat, k: nat)
    requires j < NINDIRECT && v < UINT && k < NINDIRECT
    ensures Word(PutWord(b, j, v), k) == if k == j then v else Word(b, k)
  {
    var b' := PutWord(b, j, v);
    if k == j {
      assert b'[4 * j] == v % 0x100 && b'[4 * j + 1] == v / 0x100 % 0x100;
      assert b'[4 * j + 2] == v / 0x1_0000 % 0x100 && b'[4 * j + 3] == v / 0x100_0000;
      Digits(v);
    }
  }

  lemma Digits(v: nat)
    ensures v == v % 0x100 + 0x100 * (v / 0x100 % 0x100)
                 + 0x1_0000 * (v / 0x1_0000 % 0x100) + 0x100_0000 * (v / 0x100_0000)
  {
    assert v / 0x1_0000 == v / 0x100 / 0x100 && v / 0x100_0000 == v / 0x1_0000 / 0x100;
  }

  lemma ZeroWords(k: nat)
    requires k < NINDIRECT
    ensures Word(Zeroes(), k) == 0
  {
  }

  // ---- Inodes, ownership, and what they must satisfy ----

  /** size in bytes; addrs holds NDIRECT block numbers and the indirect block's, 0 for none. */
  datatype Inode = Inode(size: nat, addrs: seq<nat>)

  /** What a block is used for: the system's own areas, nothing, block bn of an inode's content, or an
      inode's indirect block. */
  datatype Owner = Meta | Free | Data(ino: nat, bn: nat) | Ind(ino: nat)

  datatype View = View(bitmap: seq<bool>, disk: seq<Block>, inodes: seq<Inode>, owner: seq<Owner>)

  ghost predicate Shape(v: View) {
    && 0 < |v.disk| < UINT && |v.bitmap| == |v.disk| == |v.owner| && v.owner[0] == Meta
    && (forall i :: 0 <= i < |v.inodes| ==> |v.inodes[i].addrs| == NDIRECT + 1)
    && (forall i :: 0 <= i < |v.inodes| ==> v.inodes[i].addrs[NDIRECT] < |v.disk|)
  }

  /** The number in slot bn of an inode, direct or indirect; 0 if there is no block. */
  ghost function Slot(v: View, i: nat, bn: nat): (b: nat)
    requires Shape(v) && i < |v.inodes| && bn < MAXFILE
  {
    var a := v.inodes[i].addrs;
    if bn < NDIRECT then a[bn]
    else if a[NDIRECT] == 0 then 0
    else Word(v.disk[a[NDIRECT]], bn - NDIRECT)
  }

  /** Every block number in a slot is owned by that slot and by no other, every owned block is in the
      slot that owns it, and a bit is set in the bitmap exactly if its block is in use. */
  ghost predicate Owned(v: View) {
    && Shape(v)
    && (forall b :: 0 <= b < |v.disk| ==> (v.bitmap[b] <==> v.owner[b] != Free))
    && (forall i, bn :: 0 <= i < |v.inodes| && 0 <= bn < MAXFILE && Slot(v, i, bn) != 0 ==>
          Slot(v, i, bn) < |v.disk| && v.owner[Slot(v, i, bn)] == Data(i, bn))
    && (forall i :: 0 <= i < |v.inodes| && v.inodes[i].addrs[NDIRECT] != 0 ==>
       v.owner[v.inodes[i].addrs[NDIRECT]] == Ind(i))
    && (forall b :: 0 <= b < |v.disk| && v.owner[b].Data? ==>
          v.owner[b].ino < |v.inodes| && v.owner[b].bn < MAXFILE && Slot(v, v.owner[b].ino, v.owner[b].bn) == b)
    && (forall b :: 0 <= b < |v.disk| && v.owner[b].Ind? ==>
          v.owner[b].ino < |v.inodes| && v.inodes[v.owner[b].ino].addrs[NDIRECT] == b)
  }

  /** Every block below the size of inode i is there. */
  ghost predicate NoHoles(v: View, i: nat)
    requires Shape(v) && i < |v.inodes|
  {
    && v.inodes[i].size <= MAXFILE * BSIZE
    && forall bn :: 0 <= bn < MAXFILE && bn * BSIZE < v.inodes[i].size ==> Slot(v, i, bn) != 0
  }

  ghost predicate Inv(v: View) { Owned(v) && forall i :: 0 <= i < |v.inodes| ==> NoHoles(v, i) }

  /** The byte at offset k of inode i. */
  ghost function ByteAt(v: View, i: nat, k: nat): (x: Byte)
    requires Owned(v) && i < |v.inodes| && k < MAXFILE * BSIZE
  {
    v.disk[Slot(v, i, k / BSIZE)][k % BSIZE]
  }

  /** An inode's content: the plain byte sequence that it stands for. */
  ghost function Content(v: View, i: nat): (c: seq<Byte>)
    requires Inv(v) && i < |v.inodes|
    ensures |c| == v.inodes[i].size
  {
    assert NoHoles(v, i);
    seq(v.inodes[i].size, k requires 0 <= k < v.inodes[i].size => ByteAt(v, i, k))
  }

  /** c with d written over it from off on. */
  ghost function Splice(c: seq<Byte>, off: nat, d: seq<Byte>): (c': seq<Byte>)
    requires off <= |c|
  {
    c[..off] + d + if off + |d| < |c| then c[off + |d|..] else []
  }

  // ---- What the elementary updates do to ownership, slots and contents ----

  /** Block b goes from free to zeroed and owned. */
  ghost function Taken(v: View, b: nat, o: Owner): (v': View)
    requires Shape(v) && b < |v.disk|
  {
    View(v.bitmap[b := true], v.disk[b := Zeroes()], v.inodes, v.owner[b := o])
  }

  ghost function SetAddr(v: View, i: nat, k: nat, b: nat): (v': View)
    requires Shape(v) && i < |v.inodes| && k <= NDIRECT
  {
    View(v.bitmap, v.disk, v.inodes[i := Inode(v.inodes[i].size, v.inodes[i].addrs[k := b])], v.owner)
  }

  // v' has the slots of v, except that slot bn of inode i is b.
  ghost predicate OnlySlot(v: View, v': View, i: nat, bn: nat, b: nat)
    requires Shape(v) && Shape(v') && |v.inodes| == |v'.inodes|
  {
    forall j, m :: 0 <= j < |v.inodes| && 0 <= m < MAXFILE ==>
                     Slot(v', j, m) == if j == i && m == bn then b else Slot(v, j, m)
  }

  // The blocks in v's slots have the same bytes in v'.
  ghost predicate SameBytes(v: View, v': View)
    requires Shape(v) && |v.disk| == |v'.disk|
  {
    forall j, m :: 0 <= j < |v.inodes| && 0 <= m < MAXFILE && Slot(v, j, m) != 0 && Slot(v, j, m) < |v.disk| ==>
                     v'.disk[Slot(v, j, m)] == v.disk[Slot(v, j, m)]
  }

  // A view with v's indirect blocks and with one more block in one more slot is well owned.
  lemma OneMoreSlot(v: View, v': View, i: nat, bn: nat, b: nat)
    requires Owned(v) && Shape(v') && |v.inodes| == |v'.inodes| && i < |v.inodes| && bn < MAXFILE && 0 < b < |v.disk|
    requires v.owner[b] == Free && Slot(v, i, bn) == 0 && OnlySlot(v, v', i, bn, b)
    requires v'.owner == v.owner[b := Data(i, bn)] && v'.bitmap == v.bitmap[b := true]
    requires forall j :: 0 <= j < |v.inodes| ==> v'.inodes[j].addrs[NDIRECT] == v.inodes[j].addrs[NDIRECT]
    ensures Owned(v')
  {
    hide Slot;
  }

  lemma TakeDirect(v: View, i: nat, bn: nat, b: nat)
    requires Owned(v) && i < |v.inodes| && bn < NDIRECT && Slot(v, i, bn) == 0
    requires 0 < b < |v.disk| && v.owner[b] == Free
    ensures var v' := SetAddr(Taken(v, b, Data(i, bn)), i, bn, b);
            Owned(v') && OnlySlot(v, v', i, bn, b) && SameBytes(v, v')
  {
    var v' := SetAddr(Taken(v, b, Data(i, bn)), i, bn, b);
    forall j, m | 0 <= j < |v.inodes| && 0 <= m < MAXFILE
      ensures Slot(v', j, m) == if j == i && m == bn then b else Slot(v, j, m)
    {
      assert v.inodes[j].addrs[NDIRECT] != b;
    }
    OneMoreSlot(v, v', i, bn, b);
  }

  lemma TakeInd(v: View, i: nat, b: nat)
    requires Owned(v) && i < |v.inodes| && v.inodes[i].addrs[NDIRECT] == 0
    requires 0 < b < |v.disk| && v.owner[b] == Free
    ensures var v' := SetAddr(Taken(v, b, Ind(i)), i, NDIRECT, b);
            Owned(v') && SameSlots(v, v') && SameBytes(v, v')
  {
    var v' := SetAddr(Taken(v, b, Ind(i)), i, NDIRECT, b);
    forall j, m | 0 <= j < |v.inodes| && 0 <= m < MAXFILE
      ensures Slot(v', j, m) == Slot(v, j, m)
    {
      assert j != i ==> v.inodes[j].addrs[NDIRECT] != b;
      if j == i && m >= NDIRECT {
        ZeroWords(m - NDIRECT);
      }
    }
    OneMoreInd(v, v', i, b);
  }

  ghost predicate SameSlots(v: View, v': View)
    requires Shape(v) && Shape(v') && |v.inodes| == |v'.inodes|
  {
    forall j, m :: 0 <= j < |v.inodes| && 0 <= m < MAXFILE ==> Slot(v', j, m) == Slot(v, j, m)
  }

  lemma OneMoreInd(v: View, v': View, i: nat, b: nat)
    requires Owned(v) && Shape(v') && |v.inodes| == |v'.inodes| && i < |v.inodes| && 0 < b < |v.disk|
    requires v.owner[b] == Free && v.inodes[i].addrs[NDIRECT] == 0 && SameSlots(v, v')
    requires v'.owner == v.owner[b := Ind(i)] && v'.bitmap == v.bitmap[b := true]
    requires forall j :: 0 <= j < |v.inodes| ==>
             v'.inodes[j].addrs[NDIRECT] == if j == i then b else v.inodes[j].addrs[NDIRECT]
    ensures Owned(v')
  {
    hide Slot;
  }

  lemma TakeEntry(v: View, i: nat, bn: nat, b: nat)
    requires Owned(v) && i < |v.inodes| && NDIRECT <= bn < MAXFILE && v.inodes[i].addrs[NDIRECT] != 0
    requires Slot(v, i, bn) == 0 && 0 < b < |v.disk| && v.owner[b] == Free
    ensures var v' := PutEntry(Taken(v, b, Data(i, bn)), i, bn - NDIRECT, b);
            Owned(v') && OnlySlot(v, v', i, bn, b) && SameBytes(v, v')
  {
    var a, v' := v.inodes[i].addrs[NDIRECT], PutEntry(Taken(v, b, Data(i, bn)), i, bn - NDIRECT, b);
    assert v.owner[a] == Ind(i);
    forall j, m | 0 <= j < |v.inodes| && 0 <= m < MAXFILE
      ensures Slot(v', j, m) == if j == i && m == bn then b else Slot(v, j, m)
    {
      assert v.inodes[j].addrs[NDIRECT] != b;
      if j != i {
        assert v.inodes[j].addrs[NDIRECT] != a;
      } else if m >= NDIRECT {
        WordPut(v.disk[a], bn - NDIRECT, b, m - NDIRECT);
      }
    }
    OneMoreSlot(v, v', i, bn, b);
  }

  /** Entry k of inode i's indirect block becomes b. */
  ghost function PutEntry(v: View, i: nat, k: nat, b: nat): (v': View)
    requires Shape(v) && i < |v.inodes| && k < NINDIRECT && b < UINT
  {
    var a := v.inodes[i].addrs[NDIRECT];
    View(v.bitmap, v.disk[a := PutWord(v.disk[a], k, b)], v.inodes, v.owner)
  }

  ghost function PutBlock(v: View, b: nat, d: Block): (v': View)
    requires b < |v.disk|
  {
    View(v.bitmap, v.disk[b := d], v.inodes, v.owner)
  }

  /** Changing a content block changes no slot. */
  lemma WriteData(v: View, b: nat, d: Block)
    requires Owned(v) && b < |v.disk| && v.owner[b].Data?
    ensures var v' := PutBlock(v, b, d);
            Owned(v') && SameSlots(v, v')
  {
    var v' := PutBlock(v, b, d);
    forall j, m | 0 <= j < |v.inodes| && 0 <= m < MAXFILE
      ensures Slot(v', j, m) == Slot(v, j, m)
    {
      assert v.inodes[j].addrs[NDIRECT] != b;
    }
    SameOwned(v, v');
  }

  lemma SameOwned(v: View, v': View)
    requires Owned(v) && Shape(v') && |v.inodes| == |v'.inodes| && SameSlots(v, v')
    requires v'.owner == v.owner && v'.bitmap == v.bitmap
    requires forall j :: 0 <= j < |v.inodes| ==> v'.inodes[j].addrs[NDIRECT] == v.inodes[j].addrs[NDIRECT]
    ensures Owned(v')
  {
    hide Slot;
  }

  // ---- Contents ----

  /** Writing d into block bn of inode i at `lo`: the bytes from bn * BSIZE + lo on are d's, and every
      other byte of every inode is as before. */
  lemma WriteChunk(v: View, i: nat, bn: nat, lo: nat, d: seq<Byte>, j: nat, k: nat)
    requires Owned(v) && i < |v.inodes| && bn < MAXFILE && Slot(v, i, bn) != 0 && lo + |d| <= BSIZE
    requires j < |v.inodes| && k < MAXFILE * BSIZE && Slot(v, j, k / BSIZE) != 0
    ensures var b := Slot(v, i, bn);
            var v' := PutBlock(v, b, v.disk[b][..lo] + d + v.disk[b][lo + |d|..]);
            var p := bn * BSIZE + lo;
            Owned(v') && ByteAt(v', j, k) == if j == i && p <= k < p + |d| then d[k - p] else ByteAt(v, j, k)
  {
    var b := Slot(v, i, bn);
    WriteData(v, b, v.disk[b][..lo] + d + v.disk[b][lo + |d|..]);
  }

  /** A new size, up to which all blocks are there. */
  ghost function SetSize(v: View, i: nat, n: nat): (v': View)
    requires i < |v.inodes|
  {
    View(v.bitmap, v.disk, v.inodes[i := Inode(n, v.inodes[i].addrs)], v.owner)
  }

  lemma SizeSlots(v: View, i: nat, n: nat)
    requires Owned(v) && i < |v.inodes|
    ensures Owned(SetSize(v, i, n)) && SameSlots(v, SetSize(v, i, n))
  {
    var v' := SetSize(v, i, n);
    assert forall j, m :: 0 <= j < |v.inodes| && 0 <= m < MAXFILE ==> Slot(v', j, m) == Slot(v, j, m);
    SameOwned(v, v');
  }

  // Inodes with the same slots, bytes and size have the same content.
  lemma SameContent(v: View, v': View, j: nat)
    requires Inv(v) && Inv(v') && |v.inodes| == |v'.inodes| && j < |v.inodes|
             && v'.inodes[j].size == v.inodes[j].size <= MAXFILE * BSIZE
    requires forall k :: 0 <= k < v.inodes[j].size ==> ByteAt(v', j, k) == ByteAt(v, j, k)
    ensures Content(v', j) == Content(v, j)
  {
  }

  /** From v to v', the bytes of inode i from offset o on became d, and every other byte that was in a
      block of any inode stayed. */
  ghost predicate Wrote(v: View, v': View, i: nat, o: nat, d: seq<Byte>)
    requires Owned(v) && Owned(v') && |v.inodes| == |v'.inodes| && i < |v.inodes| && o + |d| <= MAXFILE * BSIZE
  {
    && (forall j, k :: 0 <= j < |v.inodes| && 0 <= k < MAXFILE * BSIZE && Kept(v, i, o, |d|, j, k) ==>
          Slot(v', j, k / BSIZE) != 0 && ByteAt(v', j, k) == ByteAt(v, j, k))
    && (forall k :: o <= k < o + |d| ==> Slot(v', i, k / BSIZE) != 0 && ByteAt(v', i, k) == d[k - o])
    && (forall j :: 0 <= j < |v.inodes| ==>
       v'.inodes[j].size == v.inodes[j].size && (j != i ==> v'.inodes[j] == v.inodes[j]))
  }

  // Byte k of inode j is in a block of v and outside the n bytes written at o of inode i.
  ghost predicate Kept(v: View, i: nat, o: nat, n: nat, j: nat, k: nat)
    requires Owned(v) && j < |v.inodes| && k < MAXFILE * BSIZE
  {
    Slot(v, j, k / BSIZE) != 0 && !(j == i && o <= k < o + n)
  }

  /** bmap gives slot o / BSIZE a block, if it had none, and the block is written into. */
  lemma BlockWrote(v: View, v1: View, i: nat, o: nat, d: seq<Byte>)
    requires Owned(v) && Owned(v1) && |v.inodes| == |v1.inodes| && |v.disk| == |v1.disk| && i < |v.inodes|
    requires o < MAXFILE * BSIZE && |d| <= BSIZE - o % BSIZE && Slot(v1, i, o / BSIZE) != 0
    requires OnlySlot(v, v1, i, o / BSIZE, Slot(v1, i, o / BSIZE)) && SameBytes(v, v1)
    requires Slot(v, i, o / BSIZE) != 0 ==> v1 == v
    requires forall j :: 0 <= j < |v.inodes| ==>
             v1.inodes[j].size == v.inodes[j].size && (j != i ==> v1.inodes[j] == v.inodes[j])
    ensures var b := Slot(v1, i, o / BSIZE);
            var v2 := PutBlock(v1, b, v1.disk[b][..o % BSIZE] + d + v1.disk[b][o % BSIZE + |d|..]);
            Owned(v2) && Wrote(v, v2, i, o, d)
  {
    hide Slot;
    var b := Slot(v1, i, o / BSIZE);
    var v2 := PutBlock(v1, b, v1.disk[b][..o % BSIZE] + d + v1.disk[b][o % BSIZE + |d|..]);
    WriteData(v1, b, v1.disk[b][..o % BSIZE] + d + v1.disk[b][o % BSIZE + |d|..]);
    forall j, k | 0 <= j < |v.inodes| && 0 <= k < MAXFILE * BSIZE && Kept(v, i, o, |d|, j, k)
      ensures Slot(v2, j, k / BSIZE) != 0 && ByteAt(v2, j, k) == ByteAt(v, j, k)
    {
      assert Slot(v1, j, k / BSIZE) == Slot(v, j, k / BSIZE);
      WriteChunk(v1, i, o / BSIZE, o % BSIZE, d, j, k);
    }
    forall k | o <= k < o + |d|
      ensures Slot(v2, i, k / BSIZE) != 0 && ByteAt(v2, i, k) == d[k - o]
    {
      InBlock(o, k - o);
      WriteChunk(v1, i, o / BSIZE, o % BSIZE, d, i, k);
    }
  }

  lemma InBlock(o: nat, k: nat)
    requires k < BSIZE - o % BSIZE
    ensures (o + k) / BSIZE == o / BSIZE && (o + k) % BSIZE == o % BSIZE + k
  {
  }

  lemma WroteTwice(v: View, v1: View, v2: View, i: nat, o: nat, d: seq<Byte>, e: seq<Byte>)
    requires Owned(v) && Owned(v1) && Owned(v2) && |v.inodes| == |v1.inodes| == |v2.inodes| && i < |v.inodes|
    requires o + |d| + |e| <= MAXFILE * BSIZE && Wrote(v, v1, i, o, d) && Wrote(v1, v2, i, o + |d|, e)
    ensures Wrote(v, v2, i, o, d + e)
  {
    hide Slot, ByteAt;
    forall j, k | 0 <= j < |v.inodes| && 0 <= k < MAXFILE * BSIZE && Kept(v, i, o, |d + e|, j, k)
      ensures Slot(v2, j, k / BSIZE) != 0 && ByteAt(v2, j, k) == ByteAt(v, j, k)
    {
      assert Kept(v, i, o, |d|, j, k);
      assert Kept(v1, i, o + |d|, |e|, j, k);
    }
    forall k | o <= k < o + |d + e|
      ensures Slot(v2, i, k / BSIZE) != 0 && ByteAt(v2, i, k) == (d + e)[k - o]
    {
      if k < o + |d| {
        assert Kept(v1, i, o + |d|, |e|, i, k);
      }
    }
  }

  /** The size of inode i after t bytes at o. */
  ghost function Grown(v: View, i: nat, o: nat, t: nat): (n: nat)
    requires i < |v.inodes|
  {
    if o + t > v.inodes[i].size then o + t else v.inodes[i].size
  }

  /** The file content after a write: spliced, as far as the new size goes. */
  lemma WroteContent(v: View, v': View, i: nat, o: nat, d: seq<Byte>, t: nat, w: View)
    requires Inv(v) && Owned(v') && |v.inodes| == |v'.inodes| && i < |v.inodes| && o + |d| <= MAXFILE * BSIZE
    requires Wrote(v, v', i, o, d) && o <= v.inodes[i].size && t <= |d| && w == SetSize(v', i, Grown(v, i, o, t))
             && Inv(w)
    ensures Grown(v, i, o, t) <= |Splice(Content(v, i), o, d)|
    ensures Content(w, i) == Splice(Content(v, i), o, d)[..Grown(v, i, o, t)]
    ensures forall j :: 0 <= j < |v.inodes| && j != i ==> Content(w, j) == Content(v, j)
  {
    hide Slot, Owned, Wrote, Splice;
    forall j | 0 <= j < |v.inodes| && j != i
      ensures Content(w, j) == Content(v, j)
    {
      OtherContent(v, v', i, o, d, t, w, j);
    }
    OwnContent(v, v', i, o, d, t, w);
  }

  lemma OwnContent(v: View, v': View, i: nat, o: nat, d: seq<Byte>, t: nat, w: View)
    requires Inv(v) && Owned(v') && |v.inodes| == |v'.inodes| && i < |v.inodes| && o + |d| <= MAXFILE * BSIZE
    requires Wrote(v, v', i, o, d) && o <= v.inodes[i].size && t <= |d| && w == SetSize(v', i, Grown(v, i, o, t))
             && Inv(w)
    ensures Grown(v, i, o, t) <= |Splice(Content(v, i), o, d)|
    ensures Content(w, i) == Splice(Content(v, i), o, d)[..Grown(v, i, o, t)]
  {
    hide Slot, Wrote;
    var n, c := Grown(v, i, o, t), Splice(Content(v, i), o, d);
    assert NoHoles(w, i) && n <= |c|;
    forall k | 0 <= k < n
      ensures ByteAt(w, i, k) == c[k]
    {
      SizeByte(v', i, n, i, k);
      WroteByte(v, v', i, o, d, i, k);
    }
  }

  lemma OtherContent(v: View, v': View, i: nat, o: nat, d: seq<Byte>, t: nat, w: View, j: nat)
    requires Inv(v) && Owned(v') && |v.inodes| == |v'.inodes| && i < |v.inodes| && o + |d| <= MAXFILE * BSIZE
    requires Wrote(v, v', i, o, d) && o <= v.inodes[i].size && t <= |d| && w == SetSize(v', i, Grown(v, i, o, t))
             && Inv(w)
    requires j < |v.inodes| && j != i
    ensures Content(w, j) == Content(v, j)
  {
    hide Slot;
    assert NoHoles(v, j);
    forall k | 0 <= k < v.inodes[j].size
      ensures ByteAt(w, j, k) == ByteAt(v, j, k)
    {
      SizeByte(v', i, Grown(v, i, o, t), j, k);
      WroteByte(v, v', i, o, d, j, k);
    }
    SameContent(v, w, j);
  }

  lemma SizeByte(v: View, i: nat, n: nat, j: nat, k: nat)
    requires Owned(v) && i < |v.inodes| && j < |v.inodes| && k < MAXFILE * BSIZE
    ensures Owned(SetSize(v, i, n)) && ByteAt(SetSize(v, i, n), j, k) == ByteAt(v, j, k)
  {
    SizeSlots(v, i, n);
  }

  lemma WroteByte(v: View, v': View, i: nat, o: nat, d: seq<Byte>, j: nat, k: nat)
    requires Inv(v) && Owned(v') && |v.inodes| == |v'.inodes| && i < |v.inodes| && o + |d| <= MAXFILE * BSIZE
    requires Wrote(v, v', i, o, d) && j < |v.inodes| && k < MAXFILE * BSIZE
    requires k < v.inodes[j].size || (j == i && o <= k < o + |d|)
    ensures ByteAt(v', j, k) == if j == i && o <= k < o + |d| then d[k - o] else ByteAt(v, j, k)
  {
    hide ByteAt, Slot;
    if !(j == i && o <= k < o + |d|) {
      assert NoHoles(v, j);
      assert (k / BSIZE) * BSIZE <= k;
      assert Kept(v, i, o, |d|, j, k);
    }
  }

  /** With its new size set, the inode written to has no holes, and nor has any other. */
  lemma WroteInv(v: View, v': View, i: nat, o: nat, d: seq<Byte>, t: nat)
    requires Inv(v) && Owned(v') && |v.inodes| == |v'.inodes| && i < |v.inodes| && o + |d| <= MAXFILE * BSIZE
    requires Wrote(v, v', i, o, d) && o <= v.inodes[i].size && t <= |d|
    ensures Inv(SetSize(v', i, Grown(v, i, o, t)))
  {
    hide Slot, Wrote, NoHoles;
    var n := Grown(v, i, o, t);
    SizeSlots(v', i, n);
    forall j | 0 <= j < |v.inodes|
      ensures NoHoles(SetSize(v', i, n), j)
    {
      WroteNoHoles(v, v', i, o, d, t, j);
    }
  }

  lemma WroteNoHoles(v: View, v': View, i: nat, o: nat, d: seq<Byte>, t: nat, j: nat)
    requires Inv(v) && Owned(v') && |v.inodes| == |v'.inodes| && i < |v.inodes| && o + |d| <= MAXFILE * BSIZE
    requires Wrote(v, v', i, o, d) && o <= v.inodes[i].size && t <= |d| && j < |v.inodes|
    ensures Shape(SetSize(v', i, Grown(v, i, o, t))) && NoHoles(SetSize(v', i, Grown(v, i, o, t)), j)
  {
    hide Slot;
    var n := Grown(v, i, o, t);
    var w := SetSize(v', i, n);
    SizeSlots(v', i, n);
    assert NoHoles(v, j) && NoHoles(v, i);
    forall bn | 0 <= bn < MAXFILE && bn * BSIZE < w.inodes[j].size
      ensures Slot(w, j, bn) != 0
    {
      var k := bn * BSIZE;
      assert k / BSIZE == bn;
      if k < v.inodes[j].size && !(j == i && o <= k < o + |d|) {
        assert Kept(v, i, o, |d|, j, k);
      }
    }
  }

  // ---- Truncation ----

  ghost predicate Of(o: Owner, i: nat) { (o.Data? || o.Ind?) && o.ino == i }

  /** Inode i gives up all of its blocks, and nothing else changes. */
  ghost function Truncated(v: View, i: nat): (v': View)
    requires Shape(v) && i < |v.inodes|
  {
    View(seq(|v.bitmap|, b requires 0 <= b < |v.bitmap| => v.bitmap[b] && !Of(v.owner[b], i)),
         v.disk,
         v.inodes[i := Inode(0, seq(NDIRECT + 1, _ => 0))],
         seq(|v.owner|, b requires 0 <= b < |v.owner| => if Of(v.owner[b], i) then Free else v.owner[b]))
  }

  lemma TruncatedSlots(v: View, i: nat)
    requires Owned(v) && i < |v.inodes|
    ensures var v' := Truncated(v, i);
            && Shape(v')
            && (forall j, m :: 0 <= j < |v.inodes| && 0 <= m < MAXFILE ==>
               Slot(v', j, m) == if j == i then 0 else Slot(v, j, m))
  {
  }

  /** Truncation keeps every block owned by its slot and every bit set exactly for a used block, and it
      leaves the contents of the other inodes alone. */
  lemma TruncatedKeeps(v: View, i: nat)
    requires Inv(v) && i < |v.inodes|
    ensures Inv(Truncated(v, i)) && Content(Truncated(v, i), i) == []
    ensures forall j :: 0 <= j < |v.inodes| && j != i ==> Content(Truncated(v, i), j) == Content(v, j)
  {
    var v' := Truncated(v, i);
    TruncatedSlots(v, i);
    TruncatedOwned(v, i);
    forall j | 0 <= j < |v.inodes|
      ensures NoHoles(v', j)
    {
      assert NoHoles(v, j);
    }
    forall j | 0 <= j < |v.inodes| && j != i
      ensures Content(v', j) == Content(v, j)
    {
      assert NoHoles(v, j);
      SameContent(v, v', j);
    }
  }

  lemma TruncatedOwned(v: View, i: nat)
    requires Owned(v) && i < |v.inodes|
    ensures Owned(Truncated(v, i))
  {
    hide Slot;
    TruncatedSlots(v, i);
  }
}
