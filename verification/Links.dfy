/** Link counts and directory entries under create, link and unlink (kernel/sysfile.c), with dirlookup,
    dirlink and iput (kernel/fs.c). A system call's work while it holds the inodes' locks is one step. */
module Links {
  import opened Wrappers

  const ROOT := 1

  datatype Kind = Free | File | Dir | Dev

  /** inum 0 is an empty slot. A name is what is left when a longer one is cut off after DIRSIZ characters. */
  datatype Entry = Entry(inum: nat, name: seq<char>)

  datatype Inode = Inode(kind: Kind, nlink: int, entries: seq<Entry>)

  /** refs[i]: references to inode i in memory; valid[i]: it has been read in since the first of them;
      pending[i]: calls of link that have raised its nlink and not made the entry yet; slot[i]: where in its
      parent a directory's entry is. Inode 0 is not used. */
  datatype State = State(inodes: seq<Inode>, refs: seq<nat>, valid: seq<bool>, pending: seq<nat>, slot: seq<nat>)

  ghost predicate Shape(s: State) {
    |s.inodes| == |s.refs| == |s.valid| == |s.pending| == |s.slot| && ROOT < |s.inodes|
  }

  // A process has the inode locked: it has a reference, and ilock has read the inode in.
  ghost predicate Locked(s: State, i: nat)
    requires Shape(s)
  {
    0 < i < |s.inodes| && s.refs[i] > 0 && s.valid[i]
  }

  ghost predicate Live(s: State, d: nat) { d < |s.inodes| && s.inodes[d].kind.Dir? && s.inodes[d].nlink > 0 }

  /** Slot k of directory d, which is linked itself, is a name other than "." for inode i. */
  ghost predicate Named(s: State, i: nat, d: nat, k: nat) {
    Live(s, d) && k < |s.inodes[d].entries| && s.inodes[d].entries[k].inum == i && i != 0
      && s.inodes[d].entries[k].name != ['.']
  }

  ghost function Names(s: State, i: nat): (r: set<(nat, nat)>)
    ensures forall d: nat, k: nat :: (d, k) in r <==> Named(s, i, d, k)
  {
    set d: nat, k: nat | d < |s.inodes| && k < |s.inodes[d].entries| && Named(s, i, d, k) :: (d, k)
  }

  /** nlink counts the names, and the calls of link in progress. */
  ghost predicate CountOk(s: State, i: nat)
    requires Shape(s) && i < |s.inodes|
  {
    s.inodes[i].nlink == |Names(s, i)| + s.pending[i]
  }

  // ---- Directories ----

  ghost predicate UniqueNames(es: seq<Entry>) {
    forall j, k :: 0 <= j < k < |es| && es[j].inum != 0 && es[k].inum != 0 ==> es[j].name != es[k].name
  }

  /** A directory begins with "." and "..", and its names are different. An unlinked one has no others. A
      linked one other than the root has one name, which is where its ".." leads. */
  ghost predicate DirOk(s: State, d: nat)
    requires Shape(s) && d < |s.inodes| && s.inodes[d].kind.Dir?
  {
    var es := s.inodes[d].entries;
    && |es| >= 2 && es[0] == Entry(d, ['.']) && es[1].name == ['.', '.'] && 0 < es[1].inum < |s.inodes|
       && UniqueNames(es)
    && (forall k :: 0 <= k < |es| && es[k].inum != 0 && k != 0 ==> es[k].name != ['.'])
    && s.pending[d] == 0
    && (s.inodes[d].nlink <= 0 ==> forall k :: 2 <= k < |es| ==> es[k].inum == 0)
    && (if d == ROOT then es[1].inum == ROOT && s.inodes[d].nlink > 0
        else es[1].inum != d && (s.inodes[d].nlink > 0 ==> s.slot[d] >= 2 && Named(s, d, es[1].inum, s.slot[d])))
  }

  // Where an entry leads: to an inode in use, and, if that is a directory, to one whose parent this is.
  ghost predicate EntryOk(s: State, d: nat, k: nat)
    requires Shape(s) && Live(s, d) && k < |s.inodes[d].entries| && s.inodes[d].entries[k].inum != 0
  {
    var i := s.inodes[d].entries[k].inum;
    && i < |s.inodes| && !s.inodes[i].kind.Free?
    && (k >= 2 && s.inodes[i].kind.Dir? ==>
       i != ROOT && |s.inodes[i].entries| >= 2 && s.inodes[i].entries[1].inum == d && s.slot[i] == k)
  }

  // A free inode has no links.
  ghost predicate FreeOk(s: State, i: nat)
    requires Shape(s) && i < |s.inodes|
  {
    s.inodes[i].kind.Free? ==> s.inodes[i].nlink == 0
  }

  ghost predicate Inv(s: State) {
    && Shape(s) && s.inodes[ROOT].kind.Dir?
    && (forall i {:trigger CountOk(s, i)} :: 0 < i < |s.inodes| ==> CountOk(s, i))
    && (forall i {:trigger FreeOk(s, i)} :: 0 <= i < |s.inodes| ==> FreeOk(s, i))
    && (forall d {:trigger DirOk(s, d)} :: 0 < d < |s.inodes| && s.inodes[d].kind.Dir? ==> DirOk(s, d))
    && (forall d: nat, k: nat {:trigger EntryOk(s, d, k)} ::
          Live(s, d) && k < |s.inodes[d].entries| && s.inodes[d].entries[k].inum != 0 ==> EntryOk(s, d, k))
    && !s.inodes[0].kind.Dir? && s.pending[0] == 0
  }

  // ---- dirlookup and dirlink ----

  /** dirlookup: whether the name is there. */
  ghost predicate Present(es: seq<Entry>, name: seq<char>) {
    exists k :: 0 <= k < |es| && es[k].inum != 0 && es[k].name == name
  }

  /** Where dirlink puts a new entry: the first empty slot, or the end. */
  function EmptySlot(es: seq<Entry>, k: nat): (r: nat)
    requires k <= |es|
    ensures k <= r <= |es| && (r < |es| ==> es[r].inum == 0) && forall j :: k <= j < r ==> es[j].inum != 0
    decreases |es| - k
  {
    if k == |es| || es[k].inum == 0 then k else EmptySlot(es, k + 1)
  }

  function Linked(es: seq<Entry>, e: Entry): (r: seq<Entry>) {
    var k := EmptySlot(es, 0);
    if k < |es| then es[k := e] else es + [e]
  }

  lemma LinkedAt(es: seq<Entry>, e: Entry)
    ensures var k := EmptySlot(es, 0);
            && |es| <= |Linked(es, e)| <= |es| + 1 && k < |Linked(es, e)| && Linked(es, e)[k] == e
            && forall j :: 0 <= j < |es| && j != k ==> Linked(es, e)[j] == es[j]
  {
  }

  lemma LinkedUnique(es: seq<Entry>, e: Entry)
    requires UniqueNames(es) && !Present(es, e.name)
    ensures UniqueNames(Linked(es, e))
  {
    LinkedAt(es, e);
  }

  /** dirlookup: the slot of a name. */
  method DirLookup(es: seq<Entry>, name: seq<char>) returns (r: Option<nat>)
    ensures r.Some? <==> Present(es, name)
    ensures r.Some? ==> r.value < |es| && es[r.value].inum != 0 && es[r.value].name == name
    ensures r.Some? && UniqueNames(es) ==>
            forall k :: 0 <= k < |es| && es[k].inum != 0 && es[k].name == name ==> k == r.value
  {
    var off := 0;
    while off < |es|
      invariant off <= |es| && forall k :: 0 <= k < off && es[k].inum != 0 ==> es[k].name != name
    {
      if es[off].inum != 0 && es[off].name == name {
        return Some(off);
      }
      off := off + 1;
    }
    r := None;
  }

  /** dirlink: the entries with the new one, or None if the name is there already. */
  method DirLink(es: seq<Entry>, name: seq<char>, inum: nat) returns (r: Option<seq<Entry>>)
    requires inum != 0 && UniqueNames(es)
    ensures r.None? <==> Present(es, name)
    ensures r.Some? ==> r.value == Linked(es, Entry(inum, name)) && UniqueNames(r.value) && Present(r.value, name)
  {
    var found := DirLookup(es, name);
    if found.Some? {
      return None;
    }
    var off := 0;
    while off < |es| && es[off].inum != 0
      invariant off <= |es| && EmptySlot(es, off) == EmptySlot(es, 0)
    {
      off := off + 1;
    }
    var es' := if off < |es| then es[off := Entry(inum, name)] else es + [Entry(inum, name)];
    LinkedAt(es, Entry(inum, name));
    LinkedUnique(es, Entry(inum, name));
    assert es'[off].name == name;
    r := Some(es');
  }

  // ---- create ----

  ghost predicate MayCreate(s: State, dp: nat, name: seq<char>, kind: Kind, ip: nat) {
    && Shape(s) && Locked(s, dp) && s.inodes[dp].kind.Dir? && !Present(s.inodes[dp].entries, name)
    && 0 < ip < |s.inodes| && s.inodes[ip].kind.Free? && !kind.Free?
  }

  ghost predicate CanCreate(s: State, dp: nat, name: seq<char>, kind: Kind, ip: nat) {
    Inv(s) && MayCreate(s, dp, name, kind, ip)
  }

  /** create, of a name that is not there, with the free inode ip. */
  ghost function Create(s: State, dp: nat, name: seq<char>, kind: Kind, ip: nat): (s': State)
    requires MayCreate(s, dp, name, kind, ip)
  {
    var p, k := s.inodes[dp], EmptySlot(s.inodes[dp].entries, 0);
    s.(inodes := s.inodes[ip := Inode(kind, 1, if kind.Dir? then [Entry(ip, ['.']), Entry(dp, ['.', '.'])] else [])]
                         [dp := Inode(Dir, p.nlink + (if kind.Dir? then 1 else 0), Linked(p.entries, Entry(ip, name)))],
       refs := s.refs[ip := s.refs[ip] + 1], valid := s.valid[ip := true], slot := s.slot[ip := k])
  }

  // The names after create, in a directory that is linked.
  lemma CreateNames(s: State, dp: nat, name: seq<char>, kind: Kind, ip: nat, i: nat)
    requires CanCreate(s, dp, name, kind, ip) && s.inodes[dp].nlink > 0
    ensures var k := EmptySlot(s.inodes[dp].entries, 0);
            Names(Create(s, dp, name, kind, ip), i)
              == Names(s, i) + (if i == ip then {(dp, k)} else {}) + (if kind.Dir? && i == dp then {(ip, 1)} else {})
  {
    hide Inv;
    var s', k, es := Create(s, dp, name, kind, ip), EmptySlot(s.inodes[dp].entries, 0), s.inodes[dp].entries;
    CreateFacts(s, dp, name, kind, ip);
    LinkedAt(es, Entry(ip, name));
    forall d: nat, m: nat
      ensures Named(s', i, d, m) <==>
              Named(s, i, d, m) || (i == ip && d == dp && m == k) || (kind.Dir? && i == dp && d == ip && m == 1)
    {
      if d == dp && m < |Linked(es, Entry(ip, name))| && m != k {
        assert m < |es|;
      }
    }
  }

  lemma CreateFacts(s: State, dp: nat, name: seq<char>, kind: Kind, ip: nat)
    requires CanCreate(s, dp, name, kind, ip)
    ensures var es := s.inodes[dp].entries;
            && dp != ip && name != ['.'] && |es| >= 2 && EmptySlot(es, 0) >= 2 && !Live(s, ip)
  {
    assert DirOk(s, dp);
    var es := s.inodes[dp].entries;
    assert es[0].inum != 0 && es[1].inum != 0;
    assert EmptySlot(es, 0) == EmptySlot(es, 1) == EmptySlot(es, 2);
  }

  lemma CreateCounts(s: State, dp: nat, name: seq<char>, kind: Kind, ip: nat, i: nat)
    requires CanCreate(s, dp, name, kind, ip) && s.inodes[dp].nlink > 0 && 0 < i < |s.inodes|
    ensures Shape(Create(s, dp, name, kind, ip)) && CountOk(Create(s, dp, name, kind, ip), i)
  {
    var s', k := Create(s, dp, name, kind, ip), EmptySlot(s.inodes[dp].entries, 0);
    assert CountOk(s, i) && FreeOk(s, ip);
    CreateFacts(s, dp, name, kind, ip);
    CreateNames(s, dp, name, kind, ip, i);
    assert !Named(s, i, ip, 1);
    assert i == ip ==> Names(s, i) == {};
    NotYet(s, i, dp, k);
  }

  // An empty slot, or one past the end, is no name.
  lemma NotYet(s: State, i: nat, d: nat, k: nat)
    requires d < |s.inodes| && (k >= |s.inodes[d].entries| || s.inodes[d].entries[k].inum == 0)
    ensures (d, k) !in Names(s, i)
  {
  }

  lemma CreateDirs(s: State, dp: nat, name: seq<char>, kind: Kind, ip: nat, d: nat)
    requires CanCreate(s, dp, name, kind, ip) && s.inodes[dp].nlink > 0 && Shape(Create(s, dp, name, kind, ip))
    requires 0 < d < |s.inodes| && Create(s, dp, name, kind, ip).inodes[d].kind.Dir?
    ensures DirOk(Create(s, dp, name, kind, ip), d)
  {
    CreateFacts(s, dp, name, kind, ip);
    LinkedAt(s.inodes[dp].entries, Entry(ip, name));
    if d != ip {
      assert DirOk(s, d);
      if d == dp {
        LinkedUnique(s.inodes[dp].entries, Entry(ip, name));
      }
    }
    assert FreeOk(s, ip) && CountOk(s, ip);
  }

  lemma CreateEntries(s: State, dp: nat, name: seq<char>, kind: Kind, ip: nat, d: nat, k: nat)
    requires CanCreate(s, dp, name, kind, ip) && s.inodes[dp].nlink > 0 && Shape(Create(s, dp, name, kind, ip))
    requires var s' := Create(s, dp, name, kind, ip);
             Live(s', d) && k < |s'.inodes[d].entries| && s'.inodes[d].entries[k].inum != 0
    ensures EntryOk(Create(s, dp, name, kind, ip), d, k)
  {
    CreateFacts(s, dp, name, kind, ip);
    var es := s.inodes[dp].entries;
    LinkedAt(es, Entry(ip, name));
    assert DirOk(s, dp);
    if d != ip && !(d == dp && k == EmptySlot(es, 0)) {
      assert EntryOk(s, d, k);
    }
  }

  /** create in a directory that is linked keeps the counts. */
  lemma CreateKeeps(s: State, dp: nat, name: seq<char>, kind: Kind, ip: nat)
    requires CanCreate(s, dp, name, kind, ip) && s.inodes[dp].nlink > 0
    ensures Inv(Create(s, dp, name, kind, ip))
  {
    hide CountOk, DirOk, EntryOk;
    var s' := Create(s, dp, name, kind, ip);
    CreateFacts(s, dp, name, kind, ip);
    forall i | 0 < i < |s'.inodes|
      ensures CountOk(s', i)
    {
      CreateCounts(s, dp, name, kind, ip, i);
    }
    forall i | 0 <= i < |s'.inodes|
      ensures FreeOk(s', i)
    {
      assert FreeOk(s, i);
    }
    forall d | 0 < d < |s'.inodes| && s'.inodes[d].kind.Dir?
      ensures DirOk(s', d)
    {
      CreateDirs(s, dp, name, kind, ip, d);
    }
    forall d: nat, k: nat | Live(s', d) && k < |s'.inodes[d].entries| && s'.inodes[d].entries[k].inum != 0
      ensures EntryOk(s', d, k)
    {
      CreateEntries(s, dp, name, kind, ip, d, k);
    }
  }

  /** The counts are right after create exactly if the directory is still linked: nothing keeps a process
      from creating a file in a directory that was unlinked under it. */
  lemma CreateIff(s: State, dp: nat, name: seq<char>, kind: Kind, ip: nat)
    requires CanCreate(s, dp, name, kind, ip)
    ensures Shape(Create(s, dp, name, kind, ip))
    ensures (forall i {:trigger CountOk(Create(s, dp, name, kind, ip), i)} :: 0 < i < |s.inodes| ==>
            CountOk(Create(s, dp, name, kind, ip), i)) <==> s.inodes[dp].nlink > 0
  {
    var s' := Create(s, dp, name, kind, ip);
    if s.inodes[dp].nlink > 0 {
      CreateKeeps(s, dp, name, kind, ip);
    } else if kind.Dir? {
      CreateFacts(s, dp, name, kind, ip);
      assert CountOk(s, dp);
      Resurrected(s, dp, name, ip);
      assert !CountOk(s', s.inodes[dp].entries[1].inum);
    } else {
      CreateFacts(s, dp, name, kind, ip);
      assert CountOk(s, ip) && FreeOk(s, ip);
      assert Names(s', ip) == {};
      assert !CountOk(s', ip);
    }
  }

  // A directory made in an unlinked directory links it again, and with it its "..".
  lemma Resurrected(s: State, dp: nat, name: seq<char>, ip: nat)
    requires CanCreate(s, dp, name, Dir, ip) && s.inodes[dp].nlink == 0
    ensures |s.inodes[dp].entries| >= 2
    ensures var q := s.inodes[dp].entries[1].inum;
            Shape(Create(s, dp, name, Dir, ip)) && 0 < q < |s.inodes| && !CountOk(Create(s, dp, name, Dir, ip), q)
  {
    CreateFacts(s, dp, name, Dir, ip);
    var s', es := Create(s, dp, name, Dir, ip), s.inodes[dp].entries;
    var q := es[1].inum;
    LinkedAt(es, Entry(ip, name));
    assert DirOk(s, dp) && CountOk(s, q);
    assert FreeOk(s, q);
    forall d: nat, m: nat
      ensures Named(s', q, d, m) <==>
              Named(s, q, d, m) || (d == dp && m == 1) || (q == ip && d == dp && m == EmptySlot(es, 0))
    {
      if d == dp && 2 <= m < |es| {
        assert es[m].inum == 0;
      }
    }
    assert (dp, 1) !in Names(s, q);
    if q == ip {
      assert Names(s, q) == {} && {(dp, 1), (dp, EmptySlot(es, 0))} <= Names(s', q);
      AtLeastTwo(Names(s', q), (dp, 1), (dp, EmptySlot(es, 0)));
    } else {
      assert Names(s', q) == Names(s, q) + {(dp, 1)};
    }
  }

  lemma AtLeastTwo(a: set<(nat, nat)>, x: (nat, nat), y: (nat, nat))
    requires x in a && y in a && x != y
    ensures |a| >= 2
  {
    assert |a - {x}| == |a| - 1 && y in a - {x};
  }

  // ---- link ----

  ghost predicate MayLink(s: State, ip: nat) {
    Shape(s) && Locked(s, ip) && !s.inodes[ip].kind.Dir? && !s.inodes[ip].kind.Free?
  }

  ghost predicate CanLink(s: State, ip: nat) { Inv(s) && MayLink(s, ip) }

  /** The first part of link: nlink goes up. */
  ghost function LinkStart(s: State, ip: nat): (s': State)
    requires MayLink(s, ip)
  {
    s.(inodes := s.inodes[ip := s.inodes[ip].(nlink := s.inodes[ip].nlink + 1)],
      pending := s.pending[ip := s.pending[ip] + 1])
  }

  /** The way out of link that takes it back. */
  ghost function LinkUndo(s: State, ip: nat): (s': State)
    requires MayLink(s, ip) && s.pending[ip] > 0
  {
    s.(inodes := s.inodes[ip := s.inodes[ip].(nlink := s.inodes[ip].nlink - 1)],
      pending := s.pending[ip := s.pending[ip] - 1])
  }

  ghost predicate MayEnter(s: State, ip: nat, dp: nat, name: seq<char>) {
    && MayLink(s, ip) && s.pending[ip] > 0
    && Locked(s, dp) && s.inodes[dp].kind.Dir? && !Present(s.inodes[dp].entries, name)
  }

  ghost predicate CanEnter(s: State, ip: nat, dp: nat, name: seq<char>) { Inv(s) && MayEnter(s, ip, dp, name) }

  /** The second part: dirlink makes the entry. */
  ghost function LinkEnter(s: State, ip: nat, dp: nat, name: seq<char>): (s': State)
    requires MayEnter(s, ip, dp, name)
  {
    s.(inodes := s.inodes[dp := s.inodes[dp].(entries := Linked(s.inodes[dp].entries, Entry(ip, name)))],
      pending := s.pending[ip := s.pending[ip] - 1])
  }

  // Only the nlink and pending of a file change.
  lemma Recounted(s: State, s': State, ip: nat)
    requires CanLink(s, ip) && Shape(s') && s'.slot == s.slot && s'.refs == s.refs && s'.valid == s.valid
             && |s'.inodes| == |s.inodes|
    requires s'.inodes[ip].kind == s.inodes[ip].kind && s'.inodes[ip].entries == s.inodes[ip].entries
    requires forall j :: 0 <= j < |s.inodes| && j != ip ==> s'.inodes[j] == s.inodes[j] && s'.pending[j] == s.pending[j]
    requires s'.inodes[ip].nlink - s'.pending[ip] == s.inodes[ip].nlink - s.pending[ip]
    ensures Inv(s')
  {
    forall i | 0 < i < |s'.inodes|
      ensures CountOk(s', i)
    {
      assert CountOk(s, i);
      assert Names(s', i) == Names(s, i);
    }
    forall i | 0 <= i < |s'.inodes|
      ensures FreeOk(s', i)
    {
      assert FreeOk(s, i);
    }
    forall d | 0 < d < |s'.inodes| && s'.inodes[d].kind.Dir?
      ensures DirOk(s', d)
    {
      assert DirOk(s, d);
    }
    forall d: nat, k: nat | Live(s', d) && k < |s'.inodes[d].entries| && s'.inodes[d].entries[k].inum != 0
      ensures EntryOk(s', d, k)
    {
      assert EntryOk(s, d, k);
    }
  }

  lemma LinkStartKeeps(s: State, ip: nat)
    requires CanLink(s, ip)
    ensures Inv(LinkStart(s, ip))
  {
    Recounted(s, LinkStart(s, ip), ip);
  }

  lemma LinkUndoKeeps(s: State, ip: nat)
    requires CanLink(s, ip) && s.pending[ip] > 0
    ensures Inv(LinkUndo(s, ip))
  {
    Recounted(s, LinkUndo(s, ip), ip);
  }

  lemma EnterFacts(s: State, ip: nat, dp: nat, name: seq<char>)
    requires CanEnter(s, ip, dp, name)
    ensures var es := s.inodes[dp].entries; dp != ip && name != ['.'] && |es| >= 2 && EmptySlot(es, 0) >= 2
  {
    assert DirOk(s, dp);
    var es := s.inodes[dp].entries;
    assert es[0].inum != 0 && es[1].inum != 0;
    assert EmptySlot(es, 0) == EmptySlot(es, 1) == EmptySlot(es, 2);
  }

  lemma EnterNames(s: State, ip: nat, dp: nat, name: seq<char>, i: nat)
    requires CanEnter(s, ip, dp, name)
    ensures Names(LinkEnter(s, ip, dp, name), i) == Names(s, i) + if i == ip && s.inodes[dp].nlink > 0
            then {(dp, EmptySlot(s.inodes[dp].entries, 0))} else {}
  {
    hide Inv;
    EnterFacts(s, ip, dp, name);
    var s', es := LinkEnter(s, ip, dp, name), s.inodes[dp].entries;
    LinkedAt(es, Entry(ip, name));
    forall d: nat, m: nat
      ensures Named(s', i, d, m) <==>
              Named(s, i, d, m) || (i == ip && s.inodes[dp].nlink > 0 && d == dp && m == EmptySlot(es, 0))
    {
      if d == dp && m < |Linked(es, Entry(ip, name))| && m != EmptySlot(es, 0) {
        assert m < |es|;
      }
    }
  }

  /** The entry keeps the counts exactly if its directory is still linked. */
  lemma EnterIff(s: State, ip: nat, dp: nat, name: seq<char>)
    requires CanEnter(s, ip, dp, name)
    ensures Inv(LinkEnter(s, ip, dp, name)) <==> s.inodes[dp].nlink > 0
  {
    var s' := LinkEnter(s, ip, dp, name);
    EnterFacts(s, ip, dp, name);
    EnterNames(s, ip, dp, name, ip);
    assert CountOk(s, ip);
    if s.inodes[dp].nlink > 0 {
      EnterKeeps(s, ip, dp, name);
    } else {
      assert !CountOk(s', ip);
    }
  }

  lemma EnterKeeps(s: State, ip: nat, dp: nat, name: seq<char>)
    requires CanEnter(s, ip, dp, name) && s.inodes[dp].nlink > 0
    ensures Inv(LinkEnter(s, ip, dp, name))
  {
    hide CountOk, DirOk, EntryOk, Names;
    var s', es := LinkEnter(s, ip, dp, name), s.inodes[dp].entries;
    forall i | 0 < i < |s'.inodes|
      ensures CountOk(s', i)
    {
      EnterCounts(s, ip, dp, name, i);
    }
    forall i | 0 <= i < |s'.inodes|
      ensures FreeOk(s', i)
    {
      assert FreeOk(s, i);
    }
    forall d | 0 < d < |s'.inodes| && s'.inodes[d].kind.Dir?
      ensures DirOk(s', d)
    {
      EnterDirs(s, ip, dp, name, d);
    }
    forall d: nat, k: nat | Live(s', d) && k < |s'.inodes[d].entries| && s'.inodes[d].entries[k].inum != 0
      ensures EntryOk(s', d, k)
    {
      EnterEntries(s, ip, dp, name, d, k);
    }
  }

  lemma EnterCounts(s: State, ip: nat, dp: nat, name: seq<char>, i: nat)
    requires CanEnter(s, ip, dp, name) && s.inodes[dp].nlink > 0 && 0 < i < |s.inodes|
             && Shape(LinkEnter(s, ip, dp, name))
    ensures CountOk(LinkEnter(s, ip, dp, name), i)
  {
    assert CountOk(s, i);
    EnterFacts(s, ip, dp, name);
    EnterNames(s, ip, dp, name, i);
    NotYet(s, i, dp, EmptySlot(s.inodes[dp].entries, 0));
  }

  lemma EnterDirs(s: State, ip: nat, dp: nat, name: seq<char>, d: nat)
    requires CanEnter(s, ip, dp, name) && s.inodes[dp].nlink > 0 && 0 < d < |s.inodes| && s.inodes[d].kind.Dir?
             && Shape(LinkEnter(s, ip, dp, name))
    ensures DirOk(LinkEnter(s, ip, dp, name), d)
  {
    EnterFacts(s, ip, dp, name);
    LinkedAt(s.inodes[dp].entries, Entry(ip, name));
    assert DirOk(s, d) && DirOk(s, dp);
    LinkedUnique(s.inodes[dp].entries, Entry(ip, name));
  }

  lemma EnterEntries(s: State, ip: nat, dp: nat, name: seq<char>, d: nat, k: nat)
    requires CanEnter(s, ip, dp, name) && s.inodes[dp].nlink > 0 && Shape(LinkEnter(s, ip, dp, name))
    requires var s' := LinkEnter(s, ip, dp, name);
             Live(s', d) && k < |s'.inodes[d].entries| && s'.inodes[d].entries[k].inum != 0
    ensures EntryOk(LinkEnter(s, ip, dp, name), d, k)
  {
    var es := s.inodes[dp].entries;
    EnterFacts(s, ip, dp, name);
    LinkedAt(es, Entry(ip, name));
    if !(d == dp && k == EmptySlot(es, 0)) {
      assert EntryOk(s, d, k);
    }
    assert DirOk(s, dp);
  }

  // ---- unlink ----

  ghost predicate MayUnlink(s: State, dp: nat, k: nat) {
    && Shape(s) && Locked(s, dp) && s.inodes[dp].kind.Dir? && k < |s.inodes[dp].entries|
    && var e := s.inodes[dp].entries[k];
       && Locked(s, e.inum) && e.name != ['.'] && e.name != ['.', '.']
       && (s.inodes[e.inum].kind.Dir? ==>
          forall m :: 2 <= m < |s.inodes[e.inum].entries| ==> s.inodes[e.inum].entries[m].inum == 0)
  }

  ghost predicate CanUnlink(s: State, dp: nat, k: nat) { Inv(s) && MayUnlink(s, dp, k) }

  /** The panic that nlink is 0 does not happen; and the only name of a directory to be unlinked is this one,
      so that it is unlinked then. */
  lemma UnlinkFacts(s: State, dp: nat, k: nat)
    requires CanUnlink(s, dp, k)
    ensures var i := s.inodes[dp].entries[k].inum;
            && k >= 2 && i != dp && Live(s, dp) && Named(s, i, dp, k) && s.inodes[i].nlink >= 1
            && (s.inodes[i].kind.Dir? ==>
               i != ROOT && s.inodes[i].nlink == 1 && |s.inodes[i].entries| >= 2 && s.inodes[i].entries[1].inum == dp
               && s.inodes[dp].nlink >= 2)
  {
    var i := s.inodes[dp].entries[k].inum;
    assert DirOk(s, dp);
    assert k >= 2;
    assert Live(s, dp) && Named(s, i, dp, k);
    assert EntryOk(s, dp, k) && CountOk(s, i);
    assert (dp, k) in Names(s, i);
    if s.inodes[i].kind.Dir? {
      OnlyName(s, dp, k);
      ParentCount(s, dp, k);
    }
  }

  lemma OnlyName(s: State, dp: nat, k: nat)
    requires CanUnlink(s, dp, k) && Live(s, dp) && k >= 2 && s.inodes[s.inodes[dp].entries[k].inum].kind.Dir?
    ensures var i := s.inodes[dp].entries[k].inum;
            i != ROOT && i != dp && s.inodes[i].nlink == 1 && Names(s, i) == {(dp, k)}
  {
    var i := s.inodes[dp].entries[k].inum;
    assert EntryOk(s, dp, k) && DirOk(s, i) && CountOk(s, i);
    forall d: nat, m: nat | Named(s, i, d, m)
      ensures d == dp && m == k
    {
      assert EntryOk(s, d, m);
      assert s.inodes[d].kind.Dir? && d != 0;
      assert DirOk(s, d);
      assert m == 1 ==> d == ROOT || Named(s, d, i, s.slot[d]);
    }
    assert Named(s, i, dp, k);
    assert Names(s, i) == {(dp, k)};
  }

  lemma ParentCount(s: State, dp: nat, k: nat)
    requires CanUnlink(s, dp, k) && Live(s, dp) && k >= 2 && s.inodes[s.inodes[dp].entries[k].inum].kind.Dir?
    ensures s.inodes[dp].nlink >= 2
  {
    var i := s.inodes[dp].entries[k].inum;
    OnlyName(s, dp, k);
    assert EntryOk(s, dp, k) && DirOk(s, i) && DirOk(s, dp) && CountOk(s, dp);
    assert Named(s, dp, i, 1);
    var x := if dp == ROOT then (ROOT, 1) else (s.inodes[dp].entries[1].inum, s.slot[dp]);
    assert Named(s, dp, x.0, x.1);
    AtLeastTwo(Names(s, dp), (i, 1), x);
  }

  /** unlink of the entry in slot k. */
  ghost function Unlink(s: State, dp: nat, k: nat): (s': State)
    requires MayUnlink(s, dp, k)
  {
    var p, i := s.inodes[dp], s.inodes[dp].entries[k].inum;
    s.(inodes := s.inodes[dp :=
      Inode(Dir, p.nlink - (if s.inodes[i].kind.Dir? then 1 else 0), p.entries[k := Entry(0, [])])]
                         [i := s.inodes[i].(nlink := s.inodes[i].nlink - 1)])
  }

  lemma UnlinkNames(s: State, dp: nat, k: nat, j: nat)
    requires CanUnlink(s, dp, k)
    ensures var i := s.inodes[dp].entries[k].inum;
            Names(Unlink(s, dp, k), j)
              == Names(s, j) - (if j == i then {(dp, k)} else {}) - (if s.inodes[i].kind.Dir? && j == dp
                then {(i, 1)} else {})
  {
    UnlinkFacts(s, dp, k);
    var s', i := Unlink(s, dp, k), s.inodes[dp].entries[k].inum;
    if s.inodes[i].kind.Dir? {
      assert DirOk(s, i);
    }
    hide Inv, DirOk;
    forall d: nat, m: nat
      ensures Named(s', j, d, m) <==>
              Named(s, j, d, m) && !(j == i && d == dp && m == k)
              && !(s.inodes[i].kind.Dir? && j == dp && d == i && m == 1)
    {
      if d == i && s.inodes[i].kind.Dir? && 2 <= m < |s.inodes[i].entries| {
        assert s.inodes[i].entries[m].inum == 0;
      }
    }
  }

  lemma UnlinkCounts(s: State, dp: nat, k: nat, j: nat)
    requires CanUnlink(s, dp, k) && 0 < j < |s.inodes| && Shape(Unlink(s, dp, k))
    ensures CountOk(Unlink(s, dp, k), j)
  {
    hide Inv, Named, Names;
    UnlinkFacts(s, dp, k);
    UnlinkNames(s, dp, k, j);
    CountNow(s, j);
    var i, was, now := s.inodes[dp].entries[k].inum, Names(s, j), Names(Unlink(s, dp, k), j);
    if j == i {
      assert now == was - {(dp, k)};
      assert (dp, k) in was;
    } else if s.inodes[i].kind.Dir? && j == dp {
      ParentOf(s, dp, k);
      assert now == was - {(i, 1)};
      assert (i, 1) in was;
    } else {
      assert now == was;
    }
  }

  lemma CountNow(s: State, j: nat)
    requires Inv(s) && 0 < j < |s.inodes|
    ensures CountOk(s, j)
  {
  }

  lemma ParentOf(s: State, dp: nat, k: nat)
    requires CanUnlink(s, dp, k) && s.inodes[s.inodes[dp].entries[k].inum].kind.Dir?
    ensures Named(s, dp, s.inodes[dp].entries[k].inum, 1)
  {
    UnlinkFacts(s, dp, k);
    assert DirOk(s, s.inodes[dp].entries[k].inum);
  }

  // An empty directory is no directory's parent.
  lemma NoChild(s: State, dp: nat, k: nat, d: nat)
    requires CanUnlink(s, dp, k) && 0 < d < |s.inodes| && s.inodes[d].kind.Dir? && d != ROOT && s.inodes[d].nlink > 0
    ensures |s.inodes[d].entries| >= 2 && s.inodes[d].entries[1].inum != s.inodes[dp].entries[k].inum
  {
    assert DirOk(s, d);
    assert Named(s, d, s.inodes[d].entries[1].inum, s.slot[d]);
  }

  lemma UnlinkDirs(s: State, dp: nat, k: nat, d: nat)
    requires CanUnlink(s, dp, k) && 0 < d < |s.inodes| && s.inodes[d].kind.Dir? && Shape(Unlink(s, dp, k))
    ensures DirOk(Unlink(s, dp, k), d)
  {
    UnlinkFacts(s, dp, k);
    assert DirOk(s, d) && DirOk(s, dp);
    var s', i := Unlink(s, dp, k), s.inodes[dp].entries[k].inum;
    if d != ROOT && d != i && s.inodes[d].nlink > 0 {
      var q := s.inodes[d].entries[1].inum;
      assert Named(s, d, q, s.slot[d]);
      NoChild(s, dp, k, d);
      assert Named(s', d, q, s.slot[d]);
    }
  }

  lemma UnlinkEntries(s: State, dp: nat, k: nat, d: nat, m: nat)
    requires CanUnlink(s, dp, k) && Shape(Unlink(s, dp, k))
    requires var s' := Unlink(s, dp, k); Live(s', d) && m < |s'.inodes[d].entries| && s'.inodes[d].entries[m].inum != 0
    ensures EntryOk(Unlink(s, dp, k), d, m)
  {
    UnlinkFacts(s, dp, k);
    assert EntryOk(s, d, m);
  }

  lemma UnlinkKeeps(s: State, dp: nat, k: nat)
    requires CanUnlink(s, dp, k)
    ensures Inv(Unlink(s, dp, k))
  {
    hide CountOk, DirOk, EntryOk, Names;
    var s' := Unlink(s, dp, k);
    UnlinkFacts(s, dp, k);
    forall i | 0 < i < |s'.inodes|
      ensures CountOk(s', i)
    {
      UnlinkCounts(s, dp, k, i);
    }
    forall i | 0 <= i < |s'.inodes|
      ensures FreeOk(s', i)
    {
      assert FreeOk(s, i);
    }
    forall d | 0 < d < |s'.inodes| && s'.inodes[d].kind.Dir?
      ensures DirOk(s', d)
    {
      UnlinkDirs(s, dp, k, d);
    }
    forall d: nat, m: nat | Live(s', d) && m < |s'.inodes[d].entries| && s'.inodes[d].entries[m].inum != 0
      ensures EntryOk(s', d, m)
    {
      UnlinkEntries(s, dp, k, d, m);
    }
  }

  // ---- iget and iput ----

  /** iget: the first reference gets a cache slot that has not been read in. */
  ghost function Get(s: State, i: nat): (s': State)
    requires Shape(s) && i < |s.inodes|
  {
    s.(refs := s.refs[i := s.refs[i] + 1], valid := s.valid[i := s.refs[i] > 0 && s.valid[i]])
  }

  /** ilock reads the inode in. */
  ghost function Lock(s: State, i: nat): (s': State)
    requires Shape(s) && i < |s.inodes|
  {
    s.(valid := s.valid[i := true])
  }

  /** iput: with the last reference, an inode without links is freed, if it has been read in. */
  ghost function Put(s: State, i: nat): (s': State)
    requires Shape(s) && 0 < i < |s.inodes| && s.refs[i] > 0
  {
    var s1 := if s.refs[i] == 1 && s.valid[i] && s.inodes[i].nlink == 0
      then s.(inodes := s.inodes[i := Inode(Free, 0, [])]) else s;
    s1.(refs := s.refs[i := s.refs[i] - 1])
  }

  /** An inode is freed only if it has no name and no other reference, and no link call is about to name it. */
  lemma FreedUnnamed(s: State, i: nat)
    requires Inv(s) && 0 < i < |s.inodes| && s.refs[i] > 0 && !s.inodes[i].kind.Free? && Put(s, i).inodes[i].kind.Free?
    ensures Names(s, i) == {} && s.pending[i] == 0 && s.refs[i] == 1
  {
    assert CountOk(s, i);
  }

  lemma PutNames(s: State, i: nat, j: nat)
    requires Inv(s) && 0 < i < |s.inodes| && s.refs[i] > 0
    ensures Names(Put(s, i), j) == Names(s, j)
  {
    var s' := Put(s, i);
    forall d: nat, m: nat
      ensures Named(s', j, d, m) <==> Named(s, j, d, m)
    {
    }
  }

  lemma PutDirs(s: State, i: nat, d: nat)
    requires Inv(s) && 0 < i < |s.inodes| && s.refs[i] > 0 && 0 < d < |s.inodes| && Put(s, i).inodes[d].kind.Dir?
             && Shape(Put(s, i))
    ensures DirOk(Put(s, i), d)
  {
    assert DirOk(s, d);
    PutNames(s, i, d);
    if d != ROOT && s.inodes[d].nlink > 0 {
      var x := (s.inodes[d].entries[1].inum, s.slot[d]);
      assert x in Names(s, d);
      assert x in Names(Put(s, i), d);
    }
  }

  lemma PutEntries(s: State, i: nat, d: nat, m: nat)
    requires Inv(s) && 0 < i < |s.inodes| && s.refs[i] > 0 && Shape(Put(s, i))
    requires var s' := Put(s, i); Live(s', d) && m < |s'.inodes[d].entries| && s'.inodes[d].entries[m].inum != 0
    ensures EntryOk(Put(s, i), d, m)
  {
    assert EntryOk(s, d, m) && d != 0;
    assert DirOk(s, d);
    var j := s.inodes[d].entries[m].inum;
    assert m != 0 ==> Named(s, j, d, m) && (d, m) in Names(s, j);
    assert CountOk(s, i);
  }

  lemma PutKeeps(s: State, i: nat)
    requires Inv(s) && 0 < i < |s.inodes| && s.refs[i] > 0
    ensures Inv(Put(s, i))
  {
    hide CountOk, DirOk, EntryOk, Names;
    var s' := Put(s, i);
    assert s.inodes[ROOT].nlink > 0 by { RootLinked(s); }
    forall j | 0 < j < |s'.inodes|
      ensures CountOk(s', j)
    {
      PutCounts(s, i, j);
    }
    forall j | 0 <= j < |s'.inodes|
      ensures FreeOk(s', j)
    {
      assert FreeOk(s, j);
    }
    forall d | 0 < d < |s'.inodes| && s'.inodes[d].kind.Dir?
      ensures DirOk(s', d)
    {
      PutDirs(s, i, d);
    }
    forall d: nat, m: nat | Live(s', d) && m < |s'.inodes[d].entries| && s'.inodes[d].entries[m].inum != 0
      ensures EntryOk(s', d, m)
    {
      PutEntries(s, i, d, m);
    }
  }

  lemma RootLinked(s: State)
    requires Inv(s)
    ensures s.inodes[ROOT].nlink > 0
  {
    assert DirOk(s, ROOT);
  }

  lemma PutCounts(s: State, i: nat, j: nat)
    requires Inv(s) && 0 < i < |s.inodes| && s.refs[i] > 0 && 0 < j < |s.inodes| && Shape(Put(s, i))
    ensures CountOk(Put(s, i), j)
  {
    assert CountOk(s, j);
    PutNames(s, i, j);
  }

  // ---- Crashes ----

  /** A crash: nothing is referenced any more, and as link is one transaction, the log takes back the counts
      that calls of link had raised without making the entry. */
  ghost function Crash(s: State): (s': State)
    requires Shape(s)
  {
    var n := |s.inodes|;
    State(seq(n, i requires 0 <= i < n => s.inodes[i].(nlink := s.inodes[i].nlink - s.pending[i])),
          seq(n, _ => 0), seq(n, _ => false), seq(n, _ => 0), s.slot)
  }

  lemma CrashNames(s: State, i: nat)
    requires Inv(s)
    ensures Names(Crash(s), i) == Names(s, i)
  {
    forall d: nat, k: nat
      ensures Named(Crash(s), i, d, k) <==> Named(s, i, d, k)
    {
      assert 0 < d < |s.inodes| && s.inodes[d].kind.Dir? ==> DirOk(s, d);
    }
  }

  lemma CrashKeeps(s: State)
    requires Inv(s)
    ensures Inv(Crash(s))
  {
    var s' := Crash(s);
    forall i | 0 < i < |s'.inodes|
      ensures CountOk(s', i)
    {
      assert CountOk(s, i);
      CrashNames(s, i);
    }
    forall i | 0 <= i < |s'.inodes|
      ensures FreeOk(s', i)
    {
      assert FreeOk(s, i) && (i > 0 ==> CountOk(s, i));
    }
    forall d | 0 < d < |s'.inodes| && s'.inodes[d].kind.Dir?
      ensures DirOk(s', d)
    {
      assert DirOk(s, d);
      CrashNames(s, d);
      assert Named(s, d, s.inodes[d].entries[1].inum, s.slot[d]) ==>
          (s.inodes[d].entries[1].inum, s.slot[d]) in Names(s, d);
    }
    forall d: nat, k: nat | Live(s', d) && k < |s'.inodes[d].entries| && s'.inodes[d].entries[k].inum != 0
      ensures EntryOk(s', d, k)
    {
      assert d > 0 ==> DirOk(s, d);
      assert EntryOk(s, d, k);
    }
  }

  // ---- Runs ----

  datatype Step =
    | DoCreate(dp: nat, name: seq<char>, kind: Kind, ip: nat)
    | DoStart(ip: nat)
    | DoEnter(ip: nat, dp: nat, name: seq<char>)
    | DoUndo(ip: nat)
    | DoUnlink(dp: nat, k: nat)
    | DoGet(i: nat)
    | DoLock(i: nat)
    | DoPut(i: nat)
    | DoCrash

  /** What a system call may do next, or a crash at any time. */
  ghost predicate Enabled(s: State, t: Step) {
    && Shape(s)
    && match t
       case DoCreate(dp, name, kind, ip) => MayCreate(s, dp, name, kind, ip)
       case DoStart(ip) => MayLink(s, ip)
       case DoEnter(ip, dp, name) => MayEnter(s, ip, dp, name)
       case DoUndo(ip) => MayLink(s, ip) && s.pending[ip] > 0
       case DoUnlink(dp, k) => MayUnlink(s, dp, k)
       case DoGet(i) => i < |s.inodes|
       case DoLock(i) => i < |s.inodes| && s.refs[i] > 0
       case DoPut(i) => 0 < i < |s.inodes| && s.refs[i] > 0
       case DoCrash => true
  }

  ghost function Apply(s: State, t: Step): (s': State)
    requires Enabled(s, t)
  {
    match t
    case DoCreate(dp, name, kind, ip) => Create(s, dp, name, kind, ip)
    case DoStart(ip) => LinkStart(s, ip)
    case DoEnter(ip, dp, name) => LinkEnter(s, ip, dp, name)
    case DoUndo(ip) => LinkUndo(s, ip)
    case DoUnlink(dp, k) => Unlink(s, dp, k)
    case DoGet(i) => Get(s, i)
    case DoLock(i) => Lock(s, i)
    case DoPut(i) => Put(s, i)
    case DoCrash => Crash(s)
  }

  /** An entry is made only in a directory that is linked itself. */
  ghost predicate InLinked(s: State, t: Step)
    requires Enabled(s, t)
  {
    t.DoCreate? || t.DoEnter? ==> s.inodes[t.dp].nlink > 0
  }

  // Only the references in memory change.
  lemma SameDisk(s: State, s': State)
    requires Inv(s) && Shape(s') && s'.inodes == s.inodes && s'.pending == s.pending && s'.slot == s.slot
    ensures Inv(s')
  {
    forall j | 0 < j < |s'.inodes|
      ensures CountOk(s', j)
    {
      assert CountOk(s, j);
      assert Names(s', j) == Names(s, j);
    }
    forall j | 0 <= j < |s'.inodes|
      ensures FreeOk(s', j)
    {
      assert FreeOk(s, j);
    }
    forall d | 0 < d < |s'.inodes| && s'.inodes[d].kind.Dir?
      ensures DirOk(s', d)
    {
      assert DirOk(s, d);
    }
    forall d: nat, m: nat | Live(s', d) && m < |s'.inodes[d].entries| && s'.inodes[d].entries[m].inum != 0
      ensures EntryOk(s', d, m)
    {
      assert EntryOk(s, d, m);
    }
  }

  lemma GetKeeps(s: State, i: nat)
    requires Inv(s) && i < |s.inodes|
    ensures Inv(Get(s, i))
  {
    SameDisk(s, Get(s, i));
  }

  lemma LockKeeps(s: State, i: nat)
    requires Inv(s) && i < |s.inodes|
    ensures Inv(Lock(s, i))
  {
    SameDisk(s, Lock(s, i));
  }

  /** A step keeps the invariant if and only if it is not one that makes an entry in an unlinked directory. */
  lemma KeepStep(s: State, t: Step)
    requires Inv(s) && Enabled(s, t)
    ensures Inv(Apply(s, t)) <==> InLinked(s, t)
  {
    hide Inv, Create, LinkStart, LinkEnter, LinkUndo, Unlink, Get, Put, Crash;
    match t
    case DoCreate(dp, name, kind, ip) => CreateInv(s, dp, name, kind, ip);
    case DoStart(ip) => LinkStartKeeps(s, ip);
    case DoEnter(ip, dp, name) => EnterIff(s, ip, dp, name);
    case DoUndo(ip) => LinkUndoKeeps(s, ip);
    case DoUnlink(dp, k) => UnlinkKeeps(s, dp, k);
    case DoGet(i) => GetKeeps(s, i);
    case DoLock(i) => LockKeeps(s, i);
    case DoPut(i) => PutKeeps(s, i);
    case DoCrash => CrashKeeps(s);
  }

  lemma CreateInv(s: State, dp: nat, name: seq<char>, kind: Kind, ip: nat)
    requires CanCreate(s, dp, name, kind, ip)
    ensures Inv(Create(s, dp, name, kind, ip)) <==> s.inodes[dp].nlink > 0
  {
    hide CountOk, DirOk, EntryOk, FreeOk;
    CreateIff(s, dp, name, kind, ip);
    if s.inodes[dp].nlink > 0 {
      CreateKeeps(s, dp, name, kind, ip);
    }
  }

  ghost predicate Legal(s: State, ts: seq<Step>)
    decreases |ts|
  {
    |ts| == 0 || (Enabled(s, ts[0]) && Legal(Apply(s, ts[0]), ts[1..]))
  }

  ghost function After(s: State, ts: seq<Step>): (s': State)
    requires Legal(s, ts)
    decreases |ts|
  {
    if |ts| == 0 then s else After(Apply(s, ts[0]), ts[1..])
  }

  // Every entry in the run is made in a linked directory.
  ghost predicate Tidy(s: State, ts: seq<Step>)
    requires Legal(s, ts)
    decreases |ts|
  {
    |ts| == 0 || (InLinked(s, ts[0]) && Tidy(Apply(s, ts[0]), ts[1..]))
  }

  /** What mkfs makes: inode 1 is the root, whose "." and ".." are itself; inodes 2 to n + 1 are the files
      named in it; the rest of the root's last block is empty, and so are the other inodes. */
  ghost predicate Image(s: State, n: nat) {
    && Shape(s) && n + 2 <= |s.inodes| && s.inodes[ROOT].kind.Dir? && s.inodes[ROOT].nlink == 1
    && var es := s.inodes[ROOT].entries;
    && n + 2 <= |es| && es[0] == Entry(ROOT, ['.']) && es[1] == Entry(ROOT, ['.', '.']) && UniqueNames(es)
    && (forall k :: 2 <= k < |es| ==> es[k].inum == if k < n + 2 then k else 0)
    && (forall i :: 0 <= i < |s.inodes| && i != ROOT ==>
       s.inodes[i] == if 2 <= i < n + 2 then Inode(File, 1, []) else Inode(Free, 0, []))
    && (forall i :: 0 <= i < |s.inodes| ==> s.refs[i] == 0 && s.pending[i] == 0)
  }

  ghost predicate Initial(s: State) { exists n :: Image(s, n) }

  lemma ImageCount(s: State, n: nat, i: nat)
    requires Image(s, n) && 0 < i < |s.inodes|
    ensures CountOk(s, i)
  {
    forall d: nat, k: nat
      ensures Named(s, i, d, k) <==> d == ROOT && ((i == ROOT && k == 1) || (2 <= i < n + 2 && k == i))
    {
      assert d == ROOT && k == 0 ==> s.inodes[ROOT].entries[k].name == ['.'];
    }
    assert Names(s, i) == if i == ROOT then {(ROOT, 1)} else if i < n + 2 then {(ROOT, i)} else {};
  }

  /** The image meets the invariant. */
  lemma ImageInv(s: State, n: nat)
    requires Image(s, n)
    ensures Inv(s)
  {
    hide CountOk, Named;
    forall i | 0 < i < |s.inodes|
      ensures CountOk(s, i)
    {
      ImageCount(s, n, i);
    }
    assert DirOk(s, ROOT);
  }

  lemma {:induction false} KeepRun(s: State, ts: seq<Step>)
    requires Inv(s) && Legal(s, ts) && Tidy(s, ts)
    ensures Inv(After(s, ts))
    decreases |ts|
  {
    hide Inv, Enabled, Apply, InLinked;
    if |ts| > 0 {
      KeepStep(s, ts[0]);
      KeepRun(Apply(s, ts[0]), ts[1..]);
    }
  }

  lemma Reached(s: State, ts: seq<Step>)
    requires Initial(s) && Legal(s, ts) && Tidy(s, ts)
    ensures Inv(After(s, ts))
  {
    hide Inv;
    var n :| Image(s, n);
    ImageInv(s, n);
    KeepRun(s, ts);
  }

  /** In every run, with no link call in progress, an inode's nlink is the number of its names other than "."
      in linked directories; and in no directory two entries have the same name. */
  lemma NlinkCounts(s: State, ts: seq<Step>, i: nat)
    requires Initial(s) && Legal(s, ts) && Tidy(s, ts)
    requires var e := After(s, ts); 0 < i < |e.inodes| && i < |e.pending| && e.pending[i] == 0
    ensures var e := After(s, ts);
            e.inodes[i].nlink == |Names(e, i)| && (e.inodes[i].kind.Dir? ==> UniqueNames(e.inodes[i].entries))
  {
    Reached(s, ts);
    var e := After(s, ts);
    assert CountOk(e, i);
    assert e.inodes[i].kind.Dir? ==> DirOk(e, i);
  }

  // ---- Orphans ----

  /** An inode in use that has no links, and nobody who will free it. */
  ghost predicate Orphan(s: State, i: nat)
    requires Shape(s)
  {
    0 < i < |s.inodes| && !s.inodes[i].kind.Free? && s.inodes[i].nlink == 0 && !(s.refs[i] > 0 && s.valid[i])
  }

  /** A step makes an orphan if and only if it is a crash; and that makes one of every inode in use that has
      no name, whoever has it open. */
  lemma OrphanIff(s: State, t: Step, i: nat)
    requires Inv(s) && Enabled(s, t) && InLinked(s, t) && 0 < i < |s.inodes| && !Orphan(s, i)
    ensures Shape(Apply(s, t))
    ensures Orphan(Apply(s, t), i) <==> t.DoCrash? && !s.inodes[i].kind.Free? && Names(s, i) == {}
  {
    hide Inv, Names, Linked, Present;
    CountNow(s, i);
    if t.DoUnlink? {
      UnlinkFacts(s, t.dp, t.k);
    }
  }

  lemma {:induction false} NoNewOrphan(s: State, ts: seq<Step>, i: nat)
    requires Inv(s) && Legal(s, ts) && Tidy(s, ts) && 0 < i < |s.inodes| && !Orphan(s, i)
    requires forall k :: 0 <= k < |ts| ==> !ts[k].DoCrash?
    ensures var e := After(s, ts); Inv(e) && !Orphan(e, i)
    decreases |ts|
  {
    hide Enabled, InLinked, Orphan;
    if |ts| > 0 {
      assert !ts[0].DoCrash?;
      KeepStep(s, ts[0]);
      OrphanIff(s, ts[0], i);
      SameNumber(s, ts[0]);
      NoNewOrphan(Apply(s, ts[0]), ts[1..], i);
    }
  }

  lemma SameNumber(s: State, t: Step)
    requires Enabled(s, t)
    ensures |Apply(s, t).inodes| == |s.inodes|
  {
  }

  /** In every run without a crash, an inode in use has a name, or a link call in progress, or a reference in
      memory whose iput will free it: none is left over. */
  lemma NoOrphan(s: State, ts: seq<Step>, i: nat)
    requires Initial(s) && Legal(s, ts) && Tidy(s, ts) && forall k :: 0 <= k < |ts| ==> !ts[k].DoCrash?
    requires 0 < i < |s.inodes|
    ensures var e := After(s, ts);
            && Shape(e) && i < |e.inodes|
            && (!e.inodes[i].kind.Free? ==>
                  Names(e, i) != {} || e.pending[i] > 0
                  || (e.refs[i] > 0 && e.valid[i] && (e.refs[i] == 1 ==> Put(e, i).inodes[i].kind.Free?)))
  {
    var n :| Image(s, n);
    ImageInv(s, n);
    NoNewOrphan(s, ts, i);
    RunNumber(s, ts);
    CountNow(After(s, ts), i);
  }

  lemma {:induction false} RunNumber(s: State, ts: seq<Step>)
    requires Legal(s, ts)
    ensures |After(s, ts).inodes| == |s.inodes|
    decreases |ts|
  {
    hide Enabled, Apply;
    if |ts| > 0 {
      SameNumber(s, ts[0]);
      RunNumber(Apply(s, ts[0]), ts[1..]);
    }
  }

  // ---- An unlinked directory in use ----

  lemma Then(s: State, ts: seq<Step>, t: Step)
    requires Legal(s, ts) && Tidy(s, ts) && Enabled(After(s, ts), t) && InLinked(After(s, ts), t)
    ensures Legal(s, ts + [t]) && Tidy(s, ts + [t]) && After(s, ts + [t]) == Apply(After(s, ts), t)
    decreases |ts|
  {
    hide Enabled, Apply, InLinked;
    if |ts| == 0 {
      assert [] + [t] == [t] && [t][1..] == [];
      assert ts + [t] == [t];
    } else {
      Then(Apply(s, ts[0]), ts[1..], t);
      assert (ts + [t])[1..] == ts[1..] + [t];
    }
  }

  /** A run after which a directory is unlinked and still locked by someone: it was made, kept, and removed
      from the root. A file made in it then has a count that is wrong. */
  lemma UnlinkedInUse(s: State) returns (ts: seq<Step>)
    requires Image(s, 0) && |s.inodes| >= 4 && |s.inodes[ROOT].entries| == 2
    ensures Legal(s, ts) && Tidy(s, ts)
    ensures var e, t := After(s, ts), DoCreate(2, ['f'], File, 3);
            Inv(e) && Enabled(e, t) && e.inodes[2].nlink == 0 && !InLinked(e, t) && !Inv(Apply(e, t))
  {
    ts := [DoGet(ROOT)];
    Then(s, [], DoGet(ROOT));
    assert [] + [DoGet(ROOT)] == ts;
    Then(s, ts, DoLock(ROOT));
    ts := ts + [DoLock(ROOT)];
    var r := After(s, ts);
    assert EmptySlot(s.inodes[ROOT].entries, 0) == EmptySlot(s.inodes[ROOT].entries, 1)
           == EmptySlot(s.inodes[ROOT].entries, 2) == 2;
    Then(s, ts, DoCreate(ROOT, ['d'], Dir, 2));
    ts := ts + [DoCreate(ROOT, ['d'], Dir, 2)];
    var c := After(s, ts);
    Then(s, ts, DoUnlink(ROOT, 2));
    ts := ts + [DoUnlink(ROOT, 2)];
    ImageInv(s, 0);
    KeepRun(s, ts);
    KeepStep(After(s, ts), DoCreate(2, ['f'], File, 3));
  }

  /** After a crash at that point, the directory is an orphan. */
  lemma CrashOrphans(s: State) returns (ts: seq<Step>)
    requires Image(s, 0) && |s.inodes| >= 4 && |s.inodes[ROOT].entries| == 2
    ensures Legal(s, ts) && Tidy(s, ts) && Shape(After(s, ts)) && Orphan(After(s, ts), 2)
  {
    hide Image, Legal, Tidy, After, Inv, Names;
    ts := UnlinkedInUse(s);
    var e := After(s, ts);
    Then(s, ts, DoCrash);
    ts := ts + [DoCrash];
    CountNow(e, 2);
    assert Shape(e) && !Orphan(e, 2);
    OrphanIff(e, DoCrash, 2);
  }
}
