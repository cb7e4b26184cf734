/** The buffer cache (kernel/bio.c) and its list: circular, doubly linked, through all buffers and a head,
    in the order of the last move to the front. Buffers are numbered from 0; the head is number n. */
module Bio {
  import opened Wrappers
  import opened Numbers

  /** next and prev, of the buffers and the head, and for each the time of its last move to the front; the
      head counts as later than all. */
  datatype Links = Links(n: nat, next: seq<nat>, prev: seq<nat>, time: seq<nat>)

  ghost predicate Shape(l: Links) {
    && |l.next| == |l.prev| == |l.time| == l.n + 1
    && (forall b :: 0 <= b <= l.n ==> l.next[b] <= l.n && l.prev[b] <= l.n)
    && (forall a, b :: 0 <= a < b <= l.n ==> l.time[a] != l.time[b])
    && (forall b :: 0 <= b < l.n ==> l.time[b] < l.time[l.n])
  }

  // No buffer's time is between those of c and b.
  ghost predicate NoneBetween(l: Links, c: nat, b: nat)
    requires Shape(l) && b <= l.n && c <= l.n
  {
    forall d :: 0 <= d < l.n ==> !(l.time[c] < l.time[d] < l.time[b])
  }

  // No buffer is earlier than b.
  ghost predicate Earliest(l: Links, b: nat)
    requires Shape(l) && b <= l.n
  {
    forall d :: 0 <= d < l.n ==> l.time[b] <= l.time[d]
  }

  /** After b comes the latest of those that are earlier than b, and after the earliest the head; and b is
      before the one after it. */
  ghost predicate LinkOk(l: Links, b: nat)
    requires Shape(l) && b <= l.n
  {
    var c := l.next[b];
    && l.prev[c] == b && l.next[l.prev[b]] == b
    && if c == l.n then Earliest(l, b) else l.time[c] < l.time[b] && NoneBetween(l, c, b)
  }

  /** The list runs through all buffers, from the one moved to the front last to the one moved first. */
  ghost predicate Ordered(l: Links) { Shape(l) && forall b {:trigger LinkOk(l, b)} :: 0 <= b <= l.n ==> LinkOk(l, b) }

  /** b->next->prev = b->prev and so on: b moves to the front. */
  ghost function MovedUp(l: Links, b: nat, now: nat): (l': Links)
    requires Shape(l) && b < l.n
  {
    var prev1 := l.prev[l.next[b] := l.prev[b]];
    var next1 := l.next[prev1[b] := l.next[b]];
    var first := next1[l.n];
    Links(l.n, next1[b := first][l.n := b], prev1[b := l.n][first := b], l.time[b := now][l.n := now + 1])
  }

  lemma MovedUpShape(l: Links, b: nat, now: nat)
    requires Ordered(l) && b < l.n && now == l.time[l.n]
    ensures Shape(MovedUp(l, b, now))
  {
  }

  lemma MovedUpOrdered(l: Links, b: nat, now: nat)
    requires Ordered(l) && b < l.n && now == l.time[l.n]
    ensures Ordered(MovedUp(l, b, now))
  {
    MovedUpShape(l, b, now);
    forall x | 0 <= x <= l.n
      ensures LinkOk(MovedUp(l, b, now), x)
    {
      MovedUpLink(l, b, now, x);
    }
  }

  // Where the links point then.
  lemma MovedUpNext(l: Links, b: nat, now: nat, x: nat)
    requires Ordered(l) && b < l.n && now == l.time[l.n] && x <= l.n
    ensures var first := l.next[l.n];
            && MovedUp(l, b, now).next[x]
               == (if first == b then l.next[x] else if x == l.n then b else if x == b then first
                 else if x == l.prev[b] then l.next[b] else l.next[x])
            && MovedUp(l, b, now).prev[x]
               == (if first == b then l.prev[x] else if x == b then l.n else if x == first then b
                 else if x == l.next[b] then l.prev[b] else l.prev[x])
  {
    assert LinkOk(l, b) && LinkOk(l, l.n) && LinkOk(l, l.prev[b]) && LinkOk(l, l.next[b]);
  }

  lemma MovedUpLink(l: Links, b: nat, now: nat, x: nat)
    requires Ordered(l) && b < l.n && now == l.time[l.n] && x <= l.n && Shape(MovedUp(l, b, now))
    ensures LinkOk(MovedUp(l, b, now), x)
  {
    hide MovedUp;
    var l' := MovedUp(l, b, now);
    MovedUpTime(l, b, now);
    var c := l'.next[x];
    MovedUpNext(l, b, now, x);
    MovedUpNext(l, b, now, c);
    MovedUpNext(l, b, now, l'.prev[x]);
    assert LinkOk(l, b) && LinkOk(l, x) && LinkOk(l, l.n) && LinkOk(l, l.prev[b]) && LinkOk(l, c);
    MovedUpPlace(l, b, now, x, c);
  }

  lemma MovedUpTime(l: Links, b: nat, now: nat)
    requires Shape(l) && b < l.n
    ensures MovedUp(l, b, now).time == l.time[b := now][l.n := now + 1] && MovedUp(l, b, now).n == l.n
  {
  }

  lemma MovedUpPlace(l: Links, b: nat, now: nat, x: nat, c: nat)
    requires Ordered(l) && b < l.n && now == l.time[l.n] && x <= l.n && Shape(MovedUp(l, b, now))
             && c == MovedUp(l, b, now).next[x]
    ensures var l' := MovedUp(l, b, now);
            if c == l.n then Earliest(l', x) else l'.time[c] < l'.time[x] && NoneBetween(l', c, x)
  {
    hide MovedUp;
    MovedUpNext(l, b, now, x);
    MovedUpTime(l, b, now);
    assert LinkOk(l, b) && LinkOk(l, x) && LinkOk(l, l.n) && LinkOk(l, l.prev[b]);
  }

  // ---- The cache ----

  datatype Buf = Buf(dev: nat, blockno: nat, refcnt: nat, valid: bool)

  /** No two buffers are for the same block of a device; before its first use a buffer is for device 0. */
  ghost predicate Unique(bufs: seq<Buf>) {
    forall a, b :: 0 <= a < b < |bufs| && bufs[a].dev != 0 ==>
      bufs[a].dev != bufs[b].dev || bufs[a].blockno != bufs[b].blockno
  }

  class BCache {
    var next: seq<nat>
    var prev: seq<nat>
    var bufs: seq<Buf>
    ghost var time: seq<nat>

    ghost function L(): (l: Links)
      reads this
    {
      Links(|bufs|, next, prev, time)
    }

    ghost predicate Valid()
      reads this
    {
      Ordered(L()) && Unique(bufs)
    }

    /** binit: each buffer in turn goes to the front. */
    constructor (nbuf: nat)
      ensures |bufs| == nbuf && Valid() && forall b :: 0 <= b < nbuf ==> bufs[b] == Buf(0, 0, 0, false)
      ensures forall a, b :: 0 <= a < b < nbuf ==> time[a] < time[b]
    {
      bufs := seq(nbuf, _ => Buf(0, 0, 0, false));
      next, prev, time := seq(nbuf + 1, _ => nbuf), seq(nbuf + 1, _ => nbuf), seq(nbuf + 1, i => i);
      new;
      var b := 0;
      while b < nbuf
        invariant b <= nbuf && |next| == |prev| == nbuf + 1 && |bufs| == nbuf && time == seq(nbuf + 1, i => i)
        invariant forall k :: 0 <= k < nbuf ==> bufs[k] == Buf(0, 0, 0, false)
        invariant next[nbuf] == (if b == 0 then nbuf else b - 1) && prev[nbuf] == if b == 0 then nbuf else 0
        invariant forall k :: 0 <= k < b ==>
                  next[k] == (if k == 0 then nbuf else k - 1) && prev[k] == if k == b - 1 then nbuf else k + 1
      {
        next := next[b := next[nbuf]];
        prev := prev[b := nbuf];
        prev := prev[next[nbuf] := b];
        next := next[nbuf := b];
        b := b + 1;
      }
      forall k | 0 <= k <= nbuf
        ensures LinkOk(L(), k)
      {
      }
    }

    // The buffer for a block, by way of next from the head; the whole list is searched.
    method Lookup(dev: nat, blockno: nat) returns (r: Option<nat>)
      requires Valid()
      ensures r.Some? ==> r.value < |bufs| && bufs[r.value].dev == dev && bufs[r.value].blockno == blockno
      ensures r.None? ==> forall d :: 0 <= d < |bufs| ==> !(bufs[d].dev == dev && bufs[d].blockno == blockno)
    {
      ghost var l := L();
      HeadAlone(l);
      assert LinkOk(l, l.n);
      var b: nat := next[|bufs|];
      while b != |bufs|
        invariant b <= |bufs| && prev[b] <= |bufs|
        invariant b < |bufs| ==>
                  forall d :: 0 <= d < |bufs| && time[d] > time[b] ==>
                    !(bufs[d].dev == dev && bufs[d].blockno == blockno)
        invariant b == |bufs| ==> forall d :: 0 <= d < |bufs| ==> !(bufs[d].dev == dev && bufs[d].blockno == blockno)
        decreases if b == |bufs| then 0 else time[b] + 1
      {
        assert LinkOk(l, b);
        if bufs[b].dev == dev && bufs[b].blockno == blockno {
          return Some(b);
        }
        b := next[b];
      }
      r := None;
    }

    // The least recently used buffer that is not in use, by way of prev from the head.
    method Recycle() returns (r: Option<nat>)
      requires Valid()
      ensures r.Some? ==> r.value < |bufs| && bufs[r.value].refcnt == 0
      ensures r.Some? ==> forall d :: 0 <= d < |bufs| && bufs[d].refcnt == 0 ==> time[r.value] <= time[d]
      ensures r.None? ==> forall d :: 0 <= d < |bufs| ==> bufs[d].refcnt > 0
    {
      ghost var l := L();
      HeadAlone(l);
      assert LinkOk(l, l.n);
      var b: nat := prev[|bufs|];
      assert LinkOk(l, b);
      while b != |bufs|
        invariant b <= |bufs|
        invariant b < |bufs| ==> forall d :: 0 <= d < |bufs| && time[d] < time[b] ==> bufs[d].refcnt > 0
        invariant b == |bufs| ==> forall d :: 0 <= d < |bufs| ==> bufs[d].refcnt > 0
        decreases if b == |bufs| then 0 else 1 + time[|bufs|] - time[b]
      {
        if bufs[b].refcnt == 0 {
          return Some(b);
        }
        assert LinkOk(l, b) && LinkOk(l, prev[b]);
        b := prev[b];
      }
      r := None;
    }

    /** bget: the block's buffer if it is cached; otherwise the least recently used buffer that is not in
        use, which is the block's from now on; None is the panic that all are in use. */
    method Bget(dev: nat, blockno: nat) returns (r: Option<nat>)
      requires Valid()
      modifies this`bufs
      ensures Valid() && |bufs| == |old(bufs)|
      ensures r.None? ==>
              bufs == old(bufs) && forall d :: 0 <= d < |bufs| ==>
                bufs[d].refcnt > 0 && !(bufs[d].dev == dev && bufs[d].blockno == blockno)
      ensures r.Some? ==>
              r.value < |bufs| && bufs == old(bufs)[r.value := bufs[r.value]] && bufs[r.value].dev == dev
              && bufs[r.value].blockno == blockno
      ensures r.Some? ==> var b := old(bufs)[r.value];
                          if b.dev == dev && b.blockno == blockno then bufs[r.value] == b.(refcnt := Inc(b.refcnt))
                          else b.refcnt == 0 && bufs[r.value] == Buf(dev, blockno, 1, false)
                               && (forall d :: 0 <= d < |bufs| ==>
                                  !(old(bufs)[d].dev == dev && old(bufs)[d].blockno == blockno))
                               && (forall d :: 0 <= d < |bufs| && old(bufs)[d].refcnt == 0 ==> time[r.value] <= time[d])
    {
      r := Lookup(dev, blockno);
      if r.Some? {
        var b := r.value;
        bufs := bufs[b := bufs[b].(refcnt := Inc(bufs[b].refcnt))];
        return;
      }
      r := Recycle();
      if r.Some? {
        bufs := bufs[r.value := Buf(dev, blockno, 1, false)];
      }
    }

    /** brelse: one reference less; at none the buffer goes to the front of the list. `holds` is whether the
        caller holds the buffer's lock; it panics exactly if not. */
    method Brelse(b: nat, holds: bool) returns (panicked: bool)
      requires Valid() && b < |bufs|
      modifies this
      ensures panicked <==> !holds
      ensures panicked ==> L() == old(L()) && bufs == old(bufs)
      ensures Valid()
      ensures !panicked ==> bufs == old(bufs)[b := old(bufs)[b].(refcnt := Dec(old(bufs)[b].refcnt))]
      ensures !panicked && bufs[b].refcnt > 0 ==> L() == old(L())
      ensures !panicked && bufs[b].refcnt == 0 ==> L() == MovedUp(old(L()), b, old(time)[|bufs|])
    {
      if !holds {
        return true;
      }
      panicked := false;
      hide Ordered;
      var n := |bufs|;
      ghost var l := L();
      ShapeOf(l);
      bufs := bufs[b := bufs[b].(refcnt := Dec(bufs[b].refcnt))];
      if bufs[b].refcnt == 0 {
        MovedUpOrdered(l, b, l.time[n]);
        prev := prev[next[b] := prev[b]];
        next := next[prev[b] := next[b]];
        next := next[b := next[n]];
        prev := prev[b := n];
        prev := prev[next[n] := b];
        next := next[n := b];
        time := MovedUp(l, b, l.time[n]).time;
        SameLinks(l, b, next, prev);
      }
    }

    /** bpin and bunpin; the count is an unsigned int. */
    method Bpin(b: nat)
      requires Valid() && b < |bufs|
      modifies this`bufs
      ensures Valid() && bufs == old(bufs)[b := old(bufs)[b].(refcnt := Inc(old(bufs)[b].refcnt))]
    {
      bufs := bufs[b := bufs[b].(refcnt := Inc(bufs[b].refcnt))];
    }

    method Bunpin(b: nat)
      requires Valid() && b < |bufs|
      modifies this`bufs
      ensures Valid() && bufs == old(bufs)[b := old(bufs)[b].(refcnt := Dec(old(bufs)[b].refcnt))]
    {
      bufs := bufs[b := bufs[b].(refcnt := Dec(bufs[b].refcnt))];
    }
  }

  lemma HeadAlone(l: Links)
    requires Ordered(l)
    ensures l.next[l.n] == l.n || l.prev[l.n] == l.n ==> l.n == 0
  {
    assert LinkOk(l, l.n) && LinkOk(l, l.prev[l.n]);
    assert l.n > 0 ==> l.time[0] < l.time[l.n];
  }

  lemma ShapeOf(l: Links)
    requires Ordered(l)
    ensures Shape(l)
  {
  }

  // The six assignments of brelse are what MovedUp says.
  lemma SameLinks(l: Links, b: nat, next: seq<nat>, prev: seq<nat>)
    requires Ordered(l) && b < l.n
    requires var prev1 := l.prev[l.next[b] := l.prev[b]];
             var next1 := l.next[prev1[b] := l.next[b]];
             var next2 := next1[b := next1[l.n]];
             var prev2 := prev1[b := l.n];
             next2[l.n] <= l.n && prev == prev2[next2[l.n] := b] && next == next2[l.n := b]
    ensures next == MovedUp(l, b, l.time[l.n]).next && prev == MovedUp(l, b, l.time[l.n]).prev
  {
  }
}
