/** The block allocator and the inode contents of kernel/fs.c. A block read with bread, changed and
    passed to log_write is an update of `disk`; `logged` collects the block numbers that were passed
    to log_write. */
module Fs {
  import opened Wrappers
  import opened Numbers
  import opened FsState

  const BPB := 8 * BSIZE // bitmap bits per block
  const MAXOPBLOCKS := 10
  const MAXCHUNK := (MAXOPBLOCKS - 1 - 1 - 2) / 2 * BSIZE
  const IPB := 16        // inodes per block: BSIZE / sizeof(struct dinode)

  class Fs {
    const inodestart: nat
    const bmapstart: nat
    var bitmap: seq<bool>
    var disk: seq<Block>
    var inodes: seq<Inode>
    ghost var owner: seq<Owner>
    ghost var logged: set<nat>

    ghost function V(): (v: View)
      reads this
    {
      View(bitmap, disk, inodes, owner)
    }

    /** An image before any file has content: the system's own blocks, from 0 on, are in use. */
    constructor (size: nat, meta: nat, inodestart: nat, bmapstart: nat, ninodes: nat)
      requires 0 < meta <= size < UINT
      ensures Inv(V()) && |disk| == size && |inodes| == ninodes && this.inodestart == inodestart
              && this.bmapstart == bmapstart
      ensures forall i :: 0 <= i < ninodes ==> Content(V(), i) == []
      ensures forall b :: 0 <= b < size ==> (bitmap[b] <==> b < meta)
    {
      this.inodestart, this.bmapstart := inodestart, bmapstart;
      bitmap := seq(size, b => b < meta);
      disk := seq(size, _ => Zeroes());
      inodes := seq(ninodes, _ => Inode(0, seq(NDIRECT + 1, _ => 0)));
      owner := seq(size, b => if b < meta then Meta else Free);
      logged := {};
    }

    function BBlock(b: nat): (n: nat) { b / BPB + bmapstart }

    function IBlock(i: nat): (n: nat) { i / IPB + inodestart }

    /** balloc: the first block whose bit is clear, zeroed and marked; None is the panic that there is
        no such block. */
    method Balloc() returns (r: Option<nat>)
      requires |bitmap| == |disk|
      modifies this`bitmap, this`disk, this`logged
      ensures |bitmap| == |old(bitmap)| == |disk|
      ensures r.None? <==> forall b :: 0 <= b < |bitmap| ==> old(bitmap)[b]
      ensures r.None? ==> bitmap == old(bitmap) && disk == old(disk) && logged == old(logged)
      ensures r.Some? ==> r.value < |disk| && !old(bitmap)[r.value] && forall c :: 0 <= c < r.value ==> old(bitmap)[c]
      ensures r.Some? ==> bitmap == old(bitmap)[r.value := true] && disk == old(disk)[r.value := Zeroes()]
      ensures r.Some? ==> logged == old(logged) + {BBlock(r.value), r.value}
    {
      var b := 0;
      while b < |bitmap|
        invariant b % BPB == 0 && bitmap == old(bitmap) && disk == old(disk) && logged == old(logged)
        invariant forall c :: 0 <= c < b && c < |bitmap| ==> bitmap[c]
      {
        var bi := 0;
        while bi < BPB && b + bi < |bitmap|
          invariant bi <= BPB && bitmap == old(bitmap) && disk == old(disk) && logged == old(logged)
          invariant forall c :: 0 <= c < b + bi && c < |bitmap| ==> bitmap[c]
        {
          if !bitmap[b + bi] {
            bitmap := bitmap[b + bi := true];
            logged := logged + {BBlock(b + bi)};
            disk := disk[b + bi := Zeroes()]; // bzero
            logged := logged + {b + bi};
            return Some(b + bi);
          }
          bi := bi + 1;
        }
        b := b + BPB;
      }
      r := None;
    }

    /** bfree; `panicked` is its panic that the block is free already. */
    method Bfree(b: nat) returns (panicked: bool)
      requires b < |bitmap|
      modifies this`bitmap, this`logged
      ensures panicked <==> !old(bitmap)[b]
      ensures bitmap == if panicked then old(bitmap) else old(bitmap)[b := false]
      ensures logged == if panicked then old(logged) else old(logged) + {BBlock(b)}
    {
      if !bitmap[b] {
        return true;
      }
      bitmap := bitmap[b := false];
      logged := logged + {BBlock(b)};
      panicked := false;
    }

    // ip->addrs[k] = b.
    method SetAddress(i: nat, k: nat, b: nat)
      requires i < |inodes| && k < |inodes[i].addrs|
      modifies this`inodes
      ensures inodes == old(inodes)[i := Inode(old(inodes)[i].size, old(inodes)[i].addrs[k := b])]
    {
      inodes := inodes[i := Inode(inodes[i].size, inodes[i].addrs[k := b])];
    }

    // The first half of bmap.
    method BmapDirect(i: nat, bn: nat) returns (r: Option<nat>, ghost bits: set<nat>)
      requires Owned(V()) && i < |inodes| && bn < NDIRECT
      modifies this
      ensures r.None? ==> Slot(old(V()), i, bn) == 0 && forall b :: 0 <= b < |bitmap| ==> bitmap[b]
      ensures r.Some? ==>
              Mapped(old(V()), old(logged), V(), logged, i, bn, r.value)
              && inodes[i].addrs[NDIRECT] == old(inodes)[i].addrs[NDIRECT]
      ensures r.Some? ==>
              logged <= old(logged) + {r.value} + bits && |bits| <= if Slot(old(V()), i, bn) == 0 then 1 else 0
    {
      bits := {};
      var addr := inodes[i].addrs[bn];
      if addr == 0 {
        var a := Balloc();
        if a.None? {
          return None, bits;
        }
        addr := a.value;
        SetAddress(i, bn, addr);
        bits := {BBlock(addr)};
        owner := owner[addr := Data(i, bn)];
        TakeDirect(old(V()), i, bn, addr);
      }
      r := Some(addr);
    }

    // The indirect block of inode i, allocated if there was none.
    method LoadIndirect(i: nat) returns (r: Option<nat>, ghost bits: set<nat>)
      requires Owned(V()) && i < |inodes|
      modifies this
      ensures r.None? ==> forall b :: 0 <= b < |bitmap| ==> bitmap[b]
      ensures r.Some? ==> Owned(V()) && |inodes| == |old(inodes)| && |disk| == |old(disk)| && r.value != 0
      ensures r.Some? ==> inodes[i].addrs[NDIRECT] == r.value && SameSlots(old(V()), V()) && SameBytes(old(V()), V())
      ensures r.Some? ==>
              forall j :: 0 <= j < |inodes| ==>
                inodes[j].size == old(inodes)[j].size && (j != i ==> inodes[j] == old(inodes)[j])
      ensures old(inodes)[i].addrs[NDIRECT] != 0 ==> r.Some? && V() == old(V()) && logged == old(logged) && bits == {}
      ensures r.Some? ==> logged <= old(logged) + {r.value} + bits && |bits| <= 1
    {
      bits := {};
      var ind := inodes[i].addrs[NDIRECT];
      if ind == 0 {
        var a := Balloc();
        if a.None? {
          return None, bits;
        }
        ind := a.value;
        SetAddress(i, NDIRECT, ind);
        bits := {BBlock(ind)};
        owner := owner[ind := Ind(i)];
        TakeInd(old(V()), i, ind);
      }
      r := Some(ind);
    }

    // The rest of bmap: an entry of the indirect block.
    method BmapEntry(i: nat, bn: nat, ind: nat) returns (r: Option<nat>, ghost bits: set<nat>)
      requires Owned(V()) && i < |inodes| && NDIRECT <= bn < MAXFILE && ind == inodes[i].addrs[NDIRECT] && ind != 0
      modifies this
      ensures r.None? ==> Slot(old(V()), i, bn) == 0 && forall b :: 0 <= b < |bitmap| ==> bitmap[b]
      ensures r.Some? ==> Mapped(old(V()), old(logged), V(), logged, i, bn, r.value) && inodes == old(inodes)
      ensures r.Some? ==>
              logged <= old(logged) + {r.value, ind} + bits && |bits| <= if Slot(old(V()), i, bn) == 0 then 1 else 0
    {
      bits := {};
      var addr := Word(disk[ind], bn - NDIRECT);
      if addr == 0 {
        var a := Balloc();
        if a.None? {
          return None, bits;
        }
        addr := a.value;
        disk := disk[ind := PutWord(disk[ind], bn - NDIRECT, addr)];
        logged := logged + {ind};
        bits := {BBlock(addr)};
        owner := owner[addr := Data(i, bn)];
        TakeEntry(old(V()), i, bn, addr);
      }
      r := Some(addr);
    }

    /** bmap: the block in slot bn of inode i, allocated if there was none; None is a panic, either
        because bn is out of range or because the disk is full. Only slot bn changes, and no byte of
        any block that was in a slot. `bits` are the bitmap blocks it logged. */
    method Bmap(i: nat, bn: nat) returns (r: Option<nat>, ghost bits: set<nat>)
      requires Owned(V()) && i < |inodes|
      modifies this
      ensures bn >= MAXFILE ==> r.None?
      ensures r.None? ==> bn >= MAXFILE || (Slot(old(V()), i, bn) == 0 && forall b :: 0 <= b < |bitmap| ==> bitmap[b])
      ensures r.Some? ==> Mapped(old(V()), old(logged), V(), logged, i, bn, r.value)
      ensures r.Some? ==> Charged(old(V()), old(logged), V(), logged, i, bn, r.value, bits)
    {
      bits := {};
      if bn < NDIRECT {
        r, bits := BmapDirect(i, bn);
        return;
      }
      if bn - NDIRECT < NINDIRECT {
        var ind, bits0 := LoadIndirect(i);
        if ind.None? {
          return None, bits0;
        }
        r, bits := BmapEntry(i, bn, ind.value);
        bits := bits0 + bits;
        return;
      }
      r := None;
    }
  
    // bread(bmap(off / BSIZE)) and m of its bytes.
    method ReadBlock(i: nat, o: nat, m: nat) returns (d: seq<Byte>)
      requires Inv(V()) && i < |inodes| && 0 < m <= BSIZE - o % BSIZE && o + m <= inodes[i].size
      modifies this
      ensures V() == old(V()) && logged == old(logged) && d == Content(V(), i)[o..o + m]
    {
      assert NoHoles(V(), i);
      assert (o / BSIZE) * BSIZE < inodes[i].size && Slot(V(), i, o / BSIZE) != 0;
      var r, _ := Bmap(i, o / BSIZE);
      ReadChunk(V(), i, o, m);
      d := disk[r.value][o % BSIZE..o % BSIZE + m];
    }

    /** readi, into a destination of which `avail` bytes can be written: the slice of the content that
        was asked for, cut off at the size. It allocates and logs nothing. */
    method Readi(i: nat, off: nat, n: nat, avail: nat) returns (dst: seq<Byte>)
      requires Inv(V()) && i < |inodes| && off < UINT && n < UINT
      modifies this
      ensures V() == old(V()) && logged == old(logged)
      ensures off > inodes[i].size || (off + n) % UINT < off ==> dst == []
      ensures off <= inodes[i].size && (off + n) % UINT >= off ==>
                var m := Copied(off, Min(n, inodes[i].size - off), avail);
                off + m <= inodes[i].size && dst == Content(V(), i)[off..off + m]
    {
      hide Inv, Content, Copied;
      if off > inodes[i].size || (off + n) % UINT < off {
        return [];
      }
      var n := Min(n, inodes[i].size - off);
      dst := [];
      var tot := 0;
      ghost var c := Content(V(), i);
      while tot < n
        invariant V() == old(V()) && logged == old(logged) && tot <= n && tot <= avail
        invariant off + n <= |c| && dst == c[off..off + tot]
        invariant tot == n || tot == 0 || (off + tot) % BSIZE == 0
      {
        var o := off + tot;
        var m := Min(n - tot, BSIZE - o % BSIZE);
        if tot + m > avail {
          CopyStops(off, n, avail, tot);
          return;
        }
        var d := ReadBlock(i, o, m);
        Joined(c, off, o, o + m);
        dst := dst + d;
        tot := tot + m;
        ChunkEnd(o, m);
      }
      CopyAll(off, n, avail);
    }

    // bread(bmap(o / BSIZE)), d copied into it, and log_write unless the copy failed.
    method WriteBlock(i: nat, o: nat, d: seq<Byte>, log: bool)
        returns (panicked: bool, ghost b: nat, ghost bits: set<nat>)
      requires Owned(V()) && i < |inodes| && o < MAXFILE * BSIZE && |d| <= BSIZE - o % BSIZE
      modifies this
      ensures panicked ==> forall c :: 0 <= c < |bitmap| ==> bitmap[c]
      ensures !panicked ==>
              Progress(old(V()), V(), i, o, d) && Charged(old(V()), old(logged), V(), logged, i, o / BSIZE, b, bits)
    {
      hide Slot, Owned, Mapped, Progress, Charged;
      var r, bits0 := Bmap(i, o / BSIZE);
      bits := bits0;
      if r.None? {
        return true, 0, bits;
      }
      ghost var v1, l1 := V(), logged;
      b := r.value;
      MapThenWrite(old(V()), old(logged), v1, l1, i, o, d, b, bits, if log then l1 + {b} else l1);
      disk := disk[r.value := disk[r.value][..o % BSIZE] + d + disk[r.value][o % BSIZE + |d|..]];
      if log {
        logged := logged + {b};
      }
      assert V() == PutBlock(v1, b, v1.disk[b][..o % BSIZE] + d + v1.disk[b][o % BSIZE + |d|..]);
      panicked := false;
    }

    // One round of writei's loop: m bytes at off + tot, of which d can be read.
    method WriteStep(i: nat, off: nat, tot: nat, m: nat, d: seq<Byte>, ok: bool, ghost v: View, ghost l: set<nat>,
                     ghost done: seq<Byte>, ghost cost: set<nat>)
        returns (panicked: bool, ghost cost': set<nat>)
      requires Inv(v) && i < |v.inodes| && off <= v.inodes[i].size && tot == |done|
               && Loop(v, l, V(), logged, i, off, done, tot, cost)
      requires 0 < m <= BSIZE - (off + tot) % BSIZE && |d| <= m && off + tot + m <= MAXFILE * BSIZE
               && (tot == 0 || (off + tot) % BSIZE == 0)
      modifies this
      ensures panicked ==> forall c :: 0 <= c < |bitmap| ==> bitmap[c]
      ensures !panicked ==> Loop(v, l, V(), logged, i, off, done + d, tot + m, cost')
    {
      hide Owned, NoHoles, Progress, Charged, Loop;
      ghost var v1, l1 := V(), logged;
      ghost var b, bits;
      InLoop(v, l, v1, l1, i, off, done, tot, cost);
      panicked, b, bits := WriteBlock(i, off + tot, d, ok);
      cost' := cost;
      if !panicked {
        LoopStep(v, l, v1, l1, V(), logged, i, off, m, done, d, cost, b, bits);
        cost' := cost + ({b} + bits);
      }
    }

    /** The loop of writei. `tot` is what it leaves in tot; m bytes are in place. Where a copy fails, the
        bytes before the failure are in a buffer that is not logged, and it is up to the cache whether
        they stay. It logs at most two blocks for every block written to, data and bitmap, and for
        the indirect block: an unaligned first block is there already. */
    method WriteBlocks(i: nat, src: seq<Byte>, off: nat, n: nat)
        returns (panicked: bool, tot: nat, ghost m: nat, ghost cost: set<nat>)
      requires Inv(V()) && i < |inodes| && off <= inodes[i].size && off + n <= MAXFILE * BSIZE
      modifies this
      ensures panicked ==> forall c :: 0 <= c < |bitmap| ==> bitmap[c]
      ensures !panicked ==> tot == Copied(off, n, |src|)
      ensures !panicked ==>
              Lands(off, n, |src|, m) && Loop(old(V()), old(logged), V(), logged, i, off, src[..m], n, cost)
    {
      hide Owned, NoHoles, Wrote, Copied, Loop;
      ghost var v := V();
      cost, m := {}, 0;
      tot := 0;
      LoopStarts(v, logged, i, off);
      while tot < n
        invariant tot <= n && tot <= |src| && (tot == n || tot == 0 || (off + tot) % BSIZE == 0)
        invariant Loop(v, old(logged), V(), logged, i, off, src[..tot], tot, cost)
      {
        var o := off + tot;
        var len := Min(n - tot, BSIZE - o % BSIZE);
        var ok := tot + len <= |src|;
        var stays: bool := *;
        var d := if ok then src[tot..tot + len] else if stays then src[tot..] else [];
        panicked, cost := WriteStep(i, off, tot, len, d, ok, v, old(logged), src[..tot], cost);
        if panicked {
          return;
        }
        if !ok {
          CopyStops(off, n, |src|, tot);
          m := if stays then |src| else tot;
          assert src[..tot] + d == src[..m];
          LoopEnds(v, old(logged), V(), logged, i, off, src[..m], tot + len, n, cost);
          return;
        }
        assert src[..tot] + d == src[..tot + len];
        tot := tot + len;
        ChunkEnd(o, len);
      }
      CopyAll(off, n, |src|);
      m := n;
      LoopEnds(v, old(logged), V(), logged, i, off, src[..m], tot, n, cost);
      panicked := false;
    }

    /** writei, from a source of which the bytes src can be read. It returns -1 and does nothing if the
        range does not fit; otherwise it returns n, and the content of inode i has the first m bytes
        spliced in, up to the size that whole successful block copies give it: all that could be read, or
        only the whole blocks of it. `panicked` is balloc's panic. */
    method Writei(i: nat, src: seq<Byte>, off: nat, n: nat)
        returns (panicked: bool, r: int, ghost m: nat, ghost cost: set<nat>)
      requires Inv(V()) && i < |inodes| && off < UINT && n < UINT
      modifies this
      ensures panicked ==> Fits(off, n, old(inodes)[i].size) && forall c :: 0 <= c < |bitmap| ==> bitmap[c]
      ensures !Fits(off, n, old(inodes)[i].size) ==> r == -1 && V() == old(V()) && logged == old(logged)
      ensures Fits(off, n, old(inodes)[i].size) && !panicked ==> r == n && Written(old(V()), V(), i, off, src, n, m)
      ensures Fits(off, n, old(inodes)[i].size) && !panicked ==>
              logged <= old(logged) + cost && |cost| <= TxnBound(off, n)
    {
      hide Slot, Owned, Content, Wrote, Copied, Splice;
      cost := {};
      if off > inodes[i].size || (off + n) % UINT < off {
        return false, -1, 0, cost;
      }
      if off + n > MAXFILE * BSIZE {
        return false, -1, 0, cost;
      }
      ghost var v := V();
      var tot;
      r := n;
      panicked, tot, m, cost := WriteBlocks(i, src, off, n);
      if panicked {
        return;
      }
      ghost var v1 := V();
      cost := cost + Indirect(inodes[i]);
      if n > 0 {
        if off + tot > inodes[i].size {
          inodes := inodes[i := Inode(off + tot, inodes[i].addrs)];
        }
        logged := logged + {IBlock(i)}; // iupdate
        cost := cost + {IBlock(i)};
      }
      FinalSize(v, v1, V(), i, off, src, n, m);
    }

    /** filewrite to an inode, while nothing else changes the file: chunk after chunk, each one a
        transaction that logs at most MAXOPBLOCKS distinct blocks, until one does not fit. `off` is
        f->off afterwards; `panicked` is balloc's panic: the short write that filewrite looks for
        cannot happen. */
    method FileWrite(i: nat, src: seq<Byte>, foff: nat, n: int)
        returns (panicked: bool, ret: int, off: nat, ghost done: nat, ghost txns: seq<set<nat>>)
      requires Inv(V()) && i < |inodes| && foff < UINT && n < 0x8000_0000
      modifies this
      ensures panicked ==> forall c :: 0 <= c < |bitmap| ==> bitmap[c]
      ensures forall t :: 0 <= t < |txns| ==> |txns[t]| <= MAXOPBLOCKS
      ensures !panicked ==> Covered(old(logged), logged, txns)
      ensures !panicked ==> Inv(V()) && |inodes| == |old(inodes)| && off == foff + done && (done == 0 || done <= n)
      ensures !panicked ==> forall j :: 0 <= j < |inodes| && j != i ==> Content(V(), j) == old(Content(V(), j))
      ensures !panicked && n <= |src| && done > 0 ==>
                foff <= old(inodes)[i].size && Content(V(), i) == Splice(old(Content(V(), i)), foff, src[..done])
      ensures !panicked && done == 0 ==> V() == old(V())
      ensures !panicked ==> ret == if done == n then n else -1
      ensures !panicked && done != n ==> n < 0 || (done < n && !Fits(off, Min(n - done, MAXCHUNK), inodes[i].size))
    {
      hide Content, Splice, Owned, NoHoles, Written, TxnBound;
      ghost var v := V();
      done, txns, off := 0, [], foff;
      var k := 0;
      while k < n
        invariant 0 <= k && (k == 0 || k <= n) && done == k && off == foff + k && Inv(V()) && |inodes| == |v.inodes|
        invariant k > 0 ==> off <= MAXFILE * BSIZE
        invariant forall t :: 0 <= t < |txns| ==> |txns[t]| <= MAXOPBLOCKS
        invariant Covered(old(logged), logged, txns)
        invariant Chained(v, V(), i, foff, src, k, n)
      {
        ghost var v1, l1 := V(), logged;
        var n1 := Min(n - k, MAXCHUNK);
        var p, r, m, cost := Writei(i, if k <= |src| then src[k..] else [], off, n1);
        if p {
          return true, -1, off, done, txns;
        }
        if r < 0 {
          break;
        }
        assert r == n1; // no short filewrite
        ChunkFits(off, n1);
        Chain(v, v1, V(), i, foff, src, k, n1, n, m);
        CoverMore(old(logged), l1, logged, txns, cost);
        txns := txns + [cost];
        off, k, done := off + r, k + r, done + r;
      }
      ret, panicked := if k == n then n else -1, false;
    }

    /** itrunc: frees exactly the inode's blocks; bfree never finds one of them free. */
    method Itrunc(i: nat)
      requires Owned(V()) && i < |inodes|
      modifies this
      ensures V() == Truncated(old(V()), i)
      ensures BitsOnly(old(logged) + {IBlock(i)}, logged, bmapstart, |bitmap|)
    {
      hide Slot, BitsOnly;
      ghost var v := V();
      FreeDirect(i, v);
      ghost var l := logged;
      NoBits(l, bmapstart, |bitmap|);
      var ind := inodes[i].addrs[NDIRECT];
      if ind != 0 {
        FreeIndirect(i, ind, v);
        SetAddress(i, NDIRECT, 0);
      } else {
        NoIndirect(v, i);
      }
      inodes := inodes[i := Inode(0, inodes[i].addrs)];
      MoreBits(old(logged), l, logged, bmapstart, |bitmap|, IBlock(i));
      logged := logged + {IBlock(i)}; // iupdate
      owner := Truncated(v, i).owner;
      assert inodes[i].addrs == seq(NDIRECT + 1, _ => 0);
      assert bitmap == Truncated(v, i).bitmap;
    }

    // The loop of itrunc over the direct addresses.
    method FreeDirect(i: nat, ghost v: View)
      requires Owned(v) && i < |inodes| && V() == v
      modifies this`bitmap, this`inodes, this`logged
      ensures |bitmap| == |v.bitmap| && Cleared(bitmap, v, i, NDIRECT) && |inodes| == |v.inodes|
              && |inodes[i].addrs| == NDIRECT + 1
      ensures forall j :: 0 <= j < |inodes| && j != i ==> inodes[j] == v.inodes[j]
      ensures forall m :: 0 <= m <= NDIRECT ==> inodes[i].addrs[m] == if m < NDIRECT then 0 else v.inodes[i].addrs[m]
      ensures BitsOnly(old(logged), logged, bmapstart, |v.bitmap|)
    {
      hide Owned, Slot, BitsOnly;
      assert Shape(v) by { ShapeOf(v); }
      assert BitsOnly(old(logged), logged, bmapstart, |v.bitmap|) by { NoBits(logged, bmapstart, |v.bitmap|); }
      var k := 0;
      while k < NDIRECT
        invariant k <= NDIRECT && |bitmap| == |v.bitmap| && |inodes| == |v.inodes|
        invariant |inodes[i].addrs| == NDIRECT + 1 && Cleared(bitmap, v, i, k)
        invariant BitsOnly(old(logged), logged, bmapstart, |v.bitmap|)
        invariant forall j :: 0 <= j < |inodes| && j != i ==> inodes[j] == v.inodes[j]
        invariant forall m :: 0 <= m <= NDIRECT ==> inodes[i].addrs[m] == if m < k then 0 else v.inodes[i].addrs[m]
      {
        AddrOwned(v, i, k);
        if inodes[i].addrs[k] != 0 {
          OneBit(old(logged), logged, bmapstart, |v.bitmap|, inodes[i].addrs[k]);
          var panicked := Bfree(inodes[i].addrs[k]);
          assert !panicked;
          SetAddress(i, k, 0);
        }
        k := k + 1;
      }
    }

    // The loop of itrunc over the indirect block's entries, and the block itself.
    method FreeIndirect(i: nat, ind: nat, ghost v: View)
      requires Owned(v) && i < |v.inodes| && disk == v.disk && owner == v.owner && |bitmap| == |v.bitmap|
      requires ind == v.inodes[i].addrs[NDIRECT] && ind != 0 && Cleared(bitmap, v, i, NDIRECT)
      modifies this`bitmap, this`logged
      ensures |bitmap| == |v.bitmap|
      ensures forall b :: 0 <= b < |bitmap| ==> (bitmap[b] <==> v.bitmap[b] && !Of(v.owner[b], i))
      ensures BitsOnly(old(logged), logged, bmapstart, |v.bitmap|)
    {
      hide Owned, Slot, BitsOnly;
      assert Shape(v) by { ShapeOf(v); }
      assert BitsOnly(old(logged), logged, bmapstart, |v.bitmap|) by { NoBits(logged, bmapstart, |v.bitmap|); }
      var j := 0;
      while j < NINDIRECT
        invariant j <= NINDIRECT && |bitmap| == |v.bitmap| && Cleared(bitmap, v, i, NDIRECT + j)
        invariant BitsOnly(old(logged), logged, bmapstart, |v.bitmap|)
      {
        var a := Word(disk[ind], j);
        AddrOwned(v, i, NDIRECT + j);
        assert Slot(v, i, NDIRECT + j) == a by { EntrySlot(v, i, j); }
        if a != 0 {
          OneBit(old(logged), logged, bmapstart, |v.bitmap|, a);
          var panicked := Bfree(a);
          assert !panicked;
        }
        j := j + 1;
      }
      AllCleared(v, i, bitmap);
      OneBit(old(logged), logged, bmapstart, |v.bitmap|, ind);
      var panicked := Bfree(ind);
      assert !panicked;
    }
  }

  /** How many of n bytes from offset off on are copied block by block, when a copy can reach only
      `avail` bytes: all of them, or as many as fill whole blocks. */
  function Copied(off: nat, n: nat, avail: nat): (t: nat)
    ensures t <= n && t <= avail
  {
    if n <= avail then n
    else
      var end := (off + avail) / BSIZE * BSIZE;
      if end <= off then 0 else end - off
  }

  /** How many blocks n bytes from off on lie in. */
  ghost function Chunks(off: nat, n: nat): (c: nat) { if n == 0 then 0 else (off % BSIZE + n - 1) / BSIZE + 1 }

  ghost function Unaligned(off: nat, n: nat): (c: nat) { if n > 0 && off % BSIZE != 0 then 1 else 0 }

  ghost function Indirect(p: Inode): (s: set<nat>)
    requires |p.addrs| == NDIRECT + 1
  {
    if p.addrs[NDIRECT] == 0 then {} else {p.addrs[NDIRECT]}
  }

  // 1 if p has no indirect block and q has.
  ghost function NewIndirect(p: Inode, q: Inode): (c: nat)
    requires |p.addrs| == |q.addrs| == NDIRECT + 1
  {
    if p.addrs[NDIRECT] == q.addrs[NDIRECT] then 0 else 1
  }

  function Min(a: nat, b: nat): (m: nat) { if a < b then a else b }

  /** The blocks of the bitmap of a disk of n blocks. */
  ghost function Bits(bmapstart: nat, n: nat): (s: set<nat>) { set b | 0 <= b < n :: b / BPB + bmapstart }

  // What is in l' beyond l is bitmap blocks.
  ghost predicate BitsOnly(l: set<nat>, l': set<nat>, bmapstart: nat, n: nat) { l' <= l + Bits(bmapstart, n) }

  lemma NoBits(l: set<nat>, bmapstart: nat, n: nat)
    ensures BitsOnly(l, l, bmapstart, n)
  {
  }

  lemma OneBit(l: set<nat>, l': set<nat>, bmapstart: nat, n: nat, b: nat)
    requires BitsOnly(l, l', bmapstart, n) && b < n
    ensures BitsOnly(l, l' + {b / BPB + bmapstart}, bmapstart, n)
  {
  }

  lemma MoreBits(l: set<nat>, l': set<nat>, l'': set<nat>, bmapstart: nat, n: nat, x: nat)
    requires BitsOnly(l, l', bmapstart, n) && BitsOnly(l', l'', bmapstart, n)
    ensures BitsOnly(l + {x}, l'' + {x}, bmapstart, n)
  {
  }

  /** Freeing a whole file logs the inode's block and one block for every BPB blocks of the disk, however long
      the file is: on a disk of 1000 blocks, two. */
  lemma TruncFits(bmapstart: nat, iblock: nat, n: nat)
    ensures |{iblock} + Bits(bmapstart, n)| <= (n + BPB - 1) / BPB + 1
  {
    var k := (n + BPB - 1) / BPB;
    FewerThan(Bits(bmapstart, n), bmapstart, bmapstart + k);
    assert iblock in Bits(bmapstart, n) ==> {iblock} + Bits(bmapstart, n) == Bits(bmapstart, n);
  }

  // bits is v's bitmap without the bits of the blocks in inode i's slots below n.
  ghost predicate Cleared(bits: seq<bool>, v: View, i: nat, n: nat)
    requires Shape(v) && |bits| == |v.bitmap|
  {
    forall b :: 0 <= b < |bits| ==>
                  (bits[b] <==> v.bitmap[b] && !(v.owner[b].Data? && v.owner[b].ino == i && v.owner[b].bn < n))
  }

  // The offsets and lengths that writei does not refuse.
  ghost predicate Fits(off: nat, n: nat, size: nat) {
    off <= size && (off + n) % UINT >= off && off + n <= MAXFILE * BSIZE
  }

  // How many bytes of a source with avail readable bytes can be in place in the end.
  ghost predicate Lands(off: nat, n: nat, avail: nat, m: nat) { m == Min(n, avail) || m == Copied(off, n, avail) }

  /** What writei makes of the inodes' contents. */
  ghost predicate Written(v: View, w: View, i: nat, off: nat, src: seq<Byte>, n: nat, m: nat)
    requires Inv(v) && i < |v.inodes| && off <= v.inodes[i].size
  {
    && Lands(off, n, |src|, m)
    && var c, size := Splice(Content(v, i), off, src[..m]), Grown(v, i, off, Copied(off, n, |src|));
    && Inv(w) && |w.inodes| == |v.inodes|
    && size <= |c| && Content(w, i) == c[..size]
    && forall j :: 0 <= j < |v.inodes| && j != i ==> Content(w, j) == Content(v, j)
  }

  /** The distinct blocks that writing n bytes at off may log: data and bitmap blocks, the indirect block
      and its bitmap block, the inode's block. */
  ghost function TxnBound(off: nat, n: nat): (c: int) { 2 * Chunks(off, n) - Unaligned(off, n) + 3 }

  lemma FinalSize(v: View, v1: View, w: View, i: nat, off: nat, src: seq<Byte>, n: nat, m: nat)
    requires Lands(off, n, |src|, m) && Inv(v) && Progress(v, v1, i, off, src[..m]) && off <= v.inodes[i].size
    requires var t := Copied(off, n, |src|);
             w == if n > 0 && off + t > v1.inodes[i].size then SetSize(v1, i, off + t) else v1
    ensures Written(v, w, i, off, src, n, m)
  {
    hide Slot, Owned, Content, Wrote, Splice;
    var d, t := src[..m], Copied(off, n, |src|);
    assert t <= |d|;
    SizeSame(v, v1, i, off, d, i);
    assert w.inodes == SetSize(v1, i, Grown(v, i, off, t)).inodes;
    WroteInv(v, v1, i, off, d, t);
    WroteContent(v, v1, i, off, d, t, w);
  }

  // What the first k bytes of filewrite have done to v; every copy succeeds if the source can be read.
  ghost predicate Chained(v: View, w: View, i: nat, foff: nat, src: seq<Byte>, k: nat, n: int)
    requires Inv(v) && i < |v.inodes|
  {
    && Inv(w) && |w.inodes| == |v.inodes|
    && (forall j :: 0 <= j < |v.inodes| && j != i ==> Content(w, j) == Content(v, j))
    && (k == 0 ==> w == v)
    && (k > 0 && n <= |src| && k <= n ==>
       foff <= v.inodes[i].size && Content(w, i) == Splice(Content(v, i), foff, src[..k]))
  }

  lemma Chain(v: View, w: View, w': View, i: nat, foff: nat, src: seq<Byte>, k: nat, n1: nat, n: int, m: nat)
    requires Inv(v) && i < |v.inodes| && Chained(v, w, i, foff, src, k, n) && 0 < n1 && k + n1 <= n
    requires foff + k <= w.inodes[i].size && Written(w, w', i, foff + k, if k <= |src| then src[k..] else [], n1, m)
    ensures Chained(v, w', i, foff, src, k + n1, n)
  {
    hide Owned, NoHoles, Content, Splice, Copied;
    if n <= |src| {
      CopySucceeds(w, w', i, foff + k, src[k..], n1, m);
      assert src[k..][..n1] == src[k..k + n1] && src[..k] + src[k..k + n1] == src[..k + n1];
      if k > 0 {
        SpliceTwice(Content(v, i), foff, src[..k], src[k..k + n1]);
      }
    }
  }

  /** When every copy succeeds, writei replaces the n bytes at off and nothing else. */
  lemma CopySucceeds(v: View, w: View, i: nat, off: nat, src: seq<Byte>, n: nat, m: nat)
    requires Inv(v) && i < |v.inodes| && off <= v.inodes[i].size && n <= |src| && Written(v, w, i, off, src, n, m)
    ensures Content(w, i) == Splice(Content(v, i), off, src[..n])
    ensures forall j :: 0 <= j < |v.inodes| && j != i ==> Content(w, j) == Content(v, j)
  {
    hide Owned, NoHoles, Content;
    CopiedAll(off, n, |src|);
    var c := Splice(Content(v, i), off, src[..n]);
    assert c[..|c|] == c;
  }

  // Everything in l' was in l or is in one of the transactions.
  ghost predicate Covered(l: set<nat>, l': set<nat>, txns: seq<set<nat>>) {
    forall b :: b in l' ==> b in l || exists t :: 0 <= t < |txns| && b in txns[t]
  }

  lemma CoverMore(l: set<nat>, l1: set<nat>, l2: set<nat>, txns: seq<set<nat>>, cost: set<nat>)
    requires Covered(l, l1, txns) && l2 <= l1 + cost
    ensures Covered(l, l2, txns + [cost])
  {
    var all := txns + [cost];
    assert all[|txns|] == cost && forall t :: 0 <= t < |txns| ==> all[t] == txns[t];
  }

  lemma SpliceTwice(c: seq<Byte>, o: nat, d: seq<Byte>, e: seq<Byte>)
    requires o <= |c|
    ensures o + |d| <= |Splice(c, o, d)| && Splice(Splice(c, o, d), o + |d|, e) == Splice(c, o, d + e)
  {
  }

  /** A chunk of filewrite logs at most MAXOPBLOCKS blocks; the bound is met at an unaligned offset. */
  lemma ChunkFits(off: nat, n: nat)
    requires n <= MAXCHUNK
    ensures TxnBound(off, n) <= MAXOPBLOCKS
    ensures off % BSIZE != 0 ==> TxnBound(off, MAXCHUNK) == MAXOPBLOCKS
  {
  }

  /** writei returns n. That is the number of bytes that are in place afterwards, and the file reaches to
      their end, if and only if all n bytes could be read. */
  lemma ShortCopyIff(v: View, w: View, i: nat, off: nat, src: seq<Byte>, n: nat, m: nat)
    requires Inv(v) && i < |v.inodes| && off <= v.inodes[i].size && Written(v, w, i, off, src, n, m)
    ensures m == n <==> n <= |src|
    ensures n <= |src| ==> off + n <= |Content(w, i)| && Content(w, i)[off..off + n] == src[..n]
  {
    CopiedAll(off, n, |src|);
    if n <= |src| {
      CopySucceeds(v, w, i, off, src, n, m);
    }
  }

  lemma CopiedAll(off: nat, n: nat, avail: nat)
    ensures Copied(off, n, avail) == n <==> n <= avail
  {
    assert (off + avail) / BSIZE * BSIZE <= off + avail;
  }

  /** mkfs rounds the root directory's size up to the next multiple of BSIZE above it. If the inode had
      just the blocks that its size needs, it has no holes then exactly if the size was not a multiple
      already. */
  lemma RootRounding(v: View, i: nat)
    requires Owned(v) && i < |v.inodes|
    requires forall bn :: 0 <= bn < MAXFILE ==> (Slot(v, i, bn) != 0 <==> bn * BSIZE < v.inodes[i].size)
    requires (v.inodes[i].size / BSIZE + 1) * BSIZE <= MAXFILE * BSIZE
    ensures Owned(SetSize(v, i, (v.inodes[i].size / BSIZE + 1) * BSIZE))
    ensures NoHoles(SetSize(v, i, (v.inodes[i].size / BSIZE + 1) * BSIZE), i) <==> v.inodes[i].size % BSIZE != 0
  {
    hide Slot;
    var k := v.inodes[i].size / BSIZE;
    var w := SetSize(v, i, (k + 1) * BSIZE);
    SizeSlots(v, i, (k + 1) * BSIZE);
    assert Slot(w, i, k) == Slot(v, i, k);
    assert k * BSIZE < v.inodes[i].size <==> v.inodes[i].size % BSIZE != 0;
  }

  lemma SizeSame(v: View, w: View, i: nat, off: nat, d: seq<Byte>, j: nat)
    requires Progress(v, w, i, off, d) && j < |v.inodes|
    ensures w.inodes[j].size == v.inodes[j].size
  {
    hide Slot, ByteAt;
  }

  // What the loop of writei has done to v.
  ghost predicate Progress(v: View, w: View, i: nat, off: nat, d: seq<Byte>) {
    && Owned(v) && Owned(w) && |v.inodes| == |w.inodes| && i < |v.inodes| && off + |d| <= MAXFILE * BSIZE
    && Wrote(v, w, i, off, d)
    && |v.inodes[i].addrs| == |w.inodes[i].addrs| == NDIRECT + 1
    && (v.inodes[i].addrs[NDIRECT] != 0 ==> w.inodes[i].addrs[NDIRECT] == v.inodes[i].addrs[NDIRECT])
  }

  // The loop invariant: d is in place, and what was logged beyond l, for t bytes, is bounded.
  ghost predicate Loop(v: View, l: set<nat>, w: View, l': set<nat>, i: nat, off: nat, d: seq<Byte>, t: nat,
                       cost: set<nat>) {
    && Progress(v, w, i, off, d)
    && l' <= l + cost + Indirect(w.inodes[i])
    && |cost| <= 2 * Chunks(off, t) - Unaligned(off, t) + NewIndirect(v.inodes[i], w.inodes[i])
  }

  lemma LoopStarts(v: View, l: set<nat>, i: nat, off: nat)
    requires Owned(v) && i < |v.inodes| && off <= MAXFILE * BSIZE
    ensures Loop(v, l, v, l, i, off, [], 0, {})
  {
  }

  lemma LoopEnds(v: View, l: set<nat>, w: View, l': set<nat>, i: nat, off: nat, d: seq<Byte>, t: nat, n: nat,
                 cost: set<nat>)
    requires Loop(v, l, w, l', i, off, d, t, cost) && t <= n && (t == 0 ==> n == 0)
    ensures Loop(v, l, w, l', i, off, d, n, cost)
  {
    if t > 0 {
      ChunksUpTo(off, t, n);
    }
  }

  // What bmap promises of the slots and bytes when it returns block b for slot bn of inode i.
  ghost predicate Mapped(v: View, l: set<nat>, w: View, l': set<nat>, i: nat, bn: nat, b: nat)
    requires Owned(v) && i < |v.inodes| && bn < MAXFILE
  {
    && Owned(w) && |w.inodes| == |v.inodes| && |w.disk| == |v.disk| && b != 0
    && Slot(w, i, bn) == b && OnlySlot(v, w, i, bn, b) && SameBytes(v, w)
    && (forall j :: 0 <= j < |v.inodes| ==>
       w.inodes[j].size == v.inodes[j].size && (j != i ==> w.inodes[j] == v.inodes[j]))
    && (Slot(v, i, bn) != 0 ==> w == v && l' == l)
  }

  // What bmap may log: block b, the bitmap blocks, and the indirect block. That block stays once there.
  ghost predicate Charged(v: View, l: set<nat>, w: View, l': set<nat>, i: nat, bn: nat, b: nat, bits: set<nat>)
    requires Owned(v) && Owned(w) && i < |v.inodes| && i < |w.inodes| && bn < MAXFILE
  {
    && l' <= l + {b} + bits + Indirect(w.inodes[i])
    && |bits| <= (if Slot(v, i, bn) == 0 then 1 else 0) + NewIndirect(v.inodes[i], w.inodes[i])
    && (v.inodes[i].addrs[NDIRECT] != 0 ==> w.inodes[i].addrs[NDIRECT] == v.inodes[i].addrs[NDIRECT])
  }

  lemma MapThenWrite(v: View, l: set<nat>, v1: View, l1: set<nat>, i: nat, o: nat, d: seq<Byte>, b: nat,
                     bits: set<nat>, l2: set<nat>)
    requires Owned(v) && i < |v.inodes| && o < MAXFILE * BSIZE && |d| <= BSIZE - o % BSIZE
    requires Mapped(v, l, v1, l1, i, o / BSIZE, b) && Charged(v, l, v1, l1, i, o / BSIZE, b, bits) && l2 <= l1 + {b}
    ensures b < |v1.disk|
    ensures var w := PutBlock(v1, b, v1.disk[b][..o % BSIZE] + d + v1.disk[b][o % BSIZE + |d|..]);
            Progress(v, w, i, o, d) && Charged(v, l, w, l2, i, o / BSIZE, b, bits)
  {
    hide Slot, OnlySlot, SameBytes, Wrote;
    BlockWrote(v, v1, i, o, d);
  }

  lemma InLoop(v: View, l: set<nat>, w: View, l': set<nat>, i: nat, off: nat, d: seq<Byte>, t: nat, cost: set<nat>)
    requires Loop(v, l, w, l', i, off, d, t, cost)
    ensures Owned(w) && i < |w.inodes|
  {
  }

  lemma LoopStep(v: View, l: set<nat>, v1: View, l1: set<nat>, v2: View, l2: set<nat>, i: nat, off: nat, m: nat,
                 d: seq<Byte>, e: seq<Byte>, cost: set<nat>, b: nat, bits: set<nat>)
    requires Inv(v) && Loop(v, l, v1, l1, i, off, d, |d|, cost) && off <= v.inodes[i].size
    requires 0 < m <= BSIZE - (off + |d|) % BSIZE && (|d| == 0 || (off + |d|) % BSIZE == 0)
             && off + |d| < MAXFILE * BSIZE
    requires Progress(v1, v2, i, off + |d|, e) && Charged(v1, l1, v2, l2, i, (off + |d|) / BSIZE, b, bits)
    ensures Loop(v, l, v2, l2, i, off, d + e, |d| + m, cost + ({b} + bits))
  {
    hide Slot, ByteAt, Owned, Wrote, Chunks, Unaligned, NoHoles;
    WroteTwice(v, v1, v2, i, off, d, e);
    ChunksStep(off, |d|, m);
    FirstBlock(v, v1, i, off, d);
    assert l2 <= l + (cost + ({b} + bits)) + Indirect(v2.inodes[i]);
  }

  // An unaligned first block is there already.
  lemma FirstBlock(v: View, v1: View, i: nat, off: nat, d: seq<Byte>)
    requires Inv(v) && Progress(v, v1, i, off, d) && off <= v.inodes[i].size && off < MAXFILE * BSIZE
    ensures |d| == 0 && off % BSIZE != 0 ==> Slot(v1, i, off / BSIZE) != 0
  {
    hide Slot, ByteAt;
    if |d| == 0 && off % BSIZE != 0 {
      assert NoHoles(v, i);
      assert (off / BSIZE) * BSIZE < v.inodes[i].size;
      assert Kept(v, i, off, 0, i, off);
    }
  }

  lemma ChunksStep(off: nat, tot: nat, m: nat)
    requires 0 < m <= BSIZE - (off + tot) % BSIZE && (tot == 0 || (off + tot) % BSIZE == 0)
    ensures Chunks(off, tot + m) == Chunks(off, tot) + 1 && Unaligned(off, tot + m) == if off % BSIZE != 0 then 1 else 0
    ensures Unaligned(off, tot) == if tot > 0 && off % BSIZE != 0 then 1 else 0
  {
    var a := off % BSIZE + tot;
    assert (off + tot) % BSIZE == a % BSIZE;
    if tot > 0 {
      assert a % BSIZE == 0 && (a - 1) / BSIZE == a / BSIZE - 1;
    }
  }

  lemma ChunksUpTo(off: nat, t: nat, n: nat)
    requires 0 < t <= n
    ensures 2 * Chunks(off, t) - Unaligned(off, t) <= 2 * Chunks(off, n) - Unaligned(off, n)
  {
    assert (off % BSIZE + t - 1) / BSIZE <= (off % BSIZE + n - 1) / BSIZE;
  }

  lemma ShapeOf(v: View)
    requires Owned(v)
    ensures Shape(v)
  {
  }

  // The block in slot bn is the one that slot owns.
  lemma AddrOwned(v: View, i: nat, bn: nat)
    requires Owned(v) && i < |v.inodes| && bn < MAXFILE
    ensures var a := if bn < NDIRECT then v.inodes[i].addrs[bn] else Slot(v, i, bn);
            && a == Slot(v, i, bn)
            && (a != 0 ==> a < |v.disk| && v.owner[a] == Data(i, bn) && v.bitmap[a])
    ensures forall b :: 0 <= b < |v.owner| && v.owner[b] == Data(i, bn) ==> Slot(v, i, bn) == b
  {
  }

  lemma EntrySlot(v: View, i: nat, j: nat)
    requires Shape(v) && i < |v.inodes| && j < NINDIRECT && v.inodes[i].addrs[NDIRECT] != 0
    ensures Slot(v, i, NDIRECT + j) == Word(v.disk[v.inodes[i].addrs[NDIRECT]], j)
  {
  }

  lemma AllCleared(v: View, i: nat, bits: seq<bool>)
    requires Owned(v) && i < |v.inodes| && |bits| == |v.bitmap| && Cleared(bits, v, i, MAXFILE)
             && v.inodes[i].addrs[NDIRECT] != 0
    ensures var ind := v.inodes[i].addrs[NDIRECT];
            bits[ind] && forall b :: 0 <= b < |bits| ==> (bits[ind := false][b] <==> v.bitmap[b] && !Of(v.owner[b], i))
  {
    hide Slot;
  }

  lemma ReadChunk(v: View, i: nat, o: nat, m: nat)
    requires Inv(v) && i < |v.inodes| && o + m <= v.inodes[i].size && m <= BSIZE - o % BSIZE && o < MAXFILE * BSIZE
    ensures Slot(v, i, o / BSIZE) < |v.disk|
    ensures Content(v, i)[o..o + m] == v.disk[Slot(v, i, o / BSIZE)][o % BSIZE..o % BSIZE + m]
  {
    var b := Slot(v, i, o / BSIZE);
    var c := Content(v, i)[o..o + m];
    forall k | 0 <= k < m
      ensures c[k] == v.disk[b][o % BSIZE..o % BSIZE + m][k]
    {
      InBlock(o, k);
    }
  }

  lemma Joined(c: seq<Byte>, x: nat, y: nat, z: nat)
    requires x <= y <= z <= |c|
    ensures c[x..y] + c[y..z] == c[x..z]
  {
  }

  lemma ChunkEnd(o: nat, m: nat)
    requires m <= BSIZE - o % BSIZE
    ensures m == BSIZE - o % BSIZE ==> (o + m) % BSIZE == 0
  {
  }

  lemma CopyAll(off: nat, n: nat, avail: nat)
    requires n <= avail
    ensures Copied(off, n, avail) == n
  {
  }

  lemma CopyStops(off: nat, n: nat, avail: nat, tot: nat)
    requires tot < n && tot <= avail < tot + Min(n - tot, BSIZE - (off + tot) % BSIZE)
    requires tot == 0 || (off + tot) % BSIZE == 0
    ensures Copied(off, n, avail) == tot
  {
    var o := off + tot;
    assert (off + avail) / BSIZE == o / BSIZE;
  }

  lemma NoIndirect(v: View, i: nat)
    requires Owned(v) && i < |v.inodes| && v.inodes[i].addrs[NDIRECT] == 0
    ensures forall b :: 0 <= b < |v.disk| && Of(v.owner[b], i) ==> v.owner[b].Data? && v.owner[b].bn < NDIRECT
  {
  }
}
