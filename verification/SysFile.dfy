/** link, unlink and create of kernel/sysfile.c, on the file system of kernel/fs.c.  Paths are
    already resolved: dp and ip are what nameiparent and namei returned, 0 for nothing. */
module SysFile {
  import opened Collections
  import opened FsBytes
  import opened FsDisk
  import opened FsFiles
  import opened FsReadWrite
  import opened FsDirs
  import opened FsRuns
  import opened LinkCounts
  import opened Params

  // The name space that a disk stands for.
  ghost function TreeOf(l: Layout, d: Disk): (t: Tree)
    requires Shape(l, d)
    ensures |t| == l.ninodes
    ensures forall i :: 0 <= i < l.ninodes ==> t[i] == NodeOf(l, d, i)
  {
    seq(l.ninodes, i requires 0 <= i < l.ninodes => NodeOf(l, d, i))
  }

  ghost function NodeOf(l: Layout, d: Disk, i: nat): Node
    requires Shape(l, d) && i < l.ninodes
  {
    Node(d.ino[i].kind, d.ino[i].nlink, if d.ino[i].kind == T_DIR then Dir(l, d, i) else [])
  }

  // The type is one of those there are; free inodes hold no blocks, and directories are whole entries.
  ghost predicate InodeOk(n: Inode) {
    && n.kind <= T_DEVICE
    && (n.kind == 0 ==> n.size == 0 && n.addrs == seq(NDIRECT + 1, _ => 0))
    && (n.kind == T_DIR ==> n.size % DESIZE == 0)
  }

  ghost predicate DiskOk(l: Layout, d: Disk, own: Owners) {
    FilesOk(l, d, own) && l.ninodes <= 0x1_0000 && forall i :: 0 <= i < l.ninodes ==> InodeOk(d.ino[i])
  }

  // ---------------------------------------------------------------- inode updates

  function SetInode(d: Disk, i: nat, n: Inode): (r: Disk)
    requires i < |d.ino|
  {
    d.(ino := d.ino[i := n])
  }

  // Changing an inode without touching its blocks changes one node.
  lemma InodeSet(l: Layout, d: Disk, own: Owners, i: nat, n: Inode)
    requires DiskOk(l, d, own) && i < l.ninodes && n.addrs == d.ino[i].addrs && n.size == d.ino[i].size && InodeOk(n)
    ensures DiskOk(l, SetInode(d, i, n), own)
    ensures forall j :: 0 <= j < l.ninodes ==> Bytes(l, SetInode(d, i, n), j) == Bytes(l, d, j)
    ensures TreeOf(l, SetInode(d, i, n)) == TreeOf(l,
                                                   d)[i := Node(n.kind, n.nlink, if n.kind == T_DIR then Dir(l, d, i)
                                                                else [])]
  {
    hide Owned, Ref;
    var d' := SetInode(d, i, n);
    SizeIsNoRef(l, d, d', own);
    forall j | 0 <= j < l.ninodes ensures Mapped(d', j) {
      assert Mapped(d, j);
      forall bn | 0 <= bn < MAXFILE ensures Addr(d', j, bn) == Addr(d, j, bn) {}
    }
    forall j | 0 <= j < l.ninodes ensures Bytes(l, d', j) == Bytes(l, d, j) {
      forall k: nat ensures ByteAt(d', j, k) == ByteAt(d, j, k) {}
    }
  }

  // One directory changed one entry.
  lemma EntrySet(l: Layout, d: Disk, d': Disk, own: Owners, own': Owners, dp: nat, k: nat, e: Dirent)
    requires DiskOk(l, d, own) && DirFile(l, d', own', dp) && d.ino[dp].kind == T_DIR && k <= |Dir(l, d, dp)|
    requires Entered(l, d, d', dp, k, e)
    ensures DiskOk(l, d', own') && TreeOf(l, d') == SetEnt(TreeOf(l, d), dp, k, e)
    ensures FilesKept(l, d, d') && Calm(d, d')
  {
    hide Owned, Mapped, Bytes, Ents;
    forall i | 0 <= i < l.ninodes ensures InodeOk(d'.ino[i]) { assert i != dp ==> d'.ino[i] == d.ino[i]; }
    forall i | 0 <= i < l.ninodes && i != dp ensures NodeOf(l, d', i) == NodeOf(l, d, i) {
      assert d'.ino[i] == d.ino[i];
    }
  }

  // A failed dirlink changed no entry.
  lemma NoEntrySet(l: Layout, d: Disk, d': Disk, own: Owners, own': Owners, dp: nat)
    requires DiskOk(l, d, own) && DirFile(l, d', own', dp) && OthersKept(l, d, d', dp)
             && Bytes(l, d', dp) == Bytes(l, d, dp)
    requires d.ino[dp].kind == d'.ino[dp].kind == T_DIR && d.ino[dp].nlink == d'.ino[dp].nlink
    ensures DiskOk(l, d', own') && TreeOf(l, d') == TreeOf(l, d)
    ensures FilesKept(l, d, d') && Calm(d, d')
  {
    hide Owned, Mapped, Bytes, Ents;
    forall i | 0 <= i < l.ninodes ensures InodeOk(d'.ino[i]) { assert i != dp ==> d'.ino[i] == d.ino[i]; }
    forall i | 0 <= i < l.ninodes ensures NodeOf(l, d', i) == NodeOf(l, d, i) {
      assert i != dp ==> d'.ino[i] == d.ino[i];
    }
  }

  // ---------------------------------------------------------------- blocks given to log_write

  // A disk, and the blocks given to log_write so far.
  datatype Snap = Snap(d: Disk, s: set<nat>)

  ghost function Now(fs: FileSystem): Snap
    reads fs
  {
    Snap(fs.d, fs.logged)
  }

  // Every regular file has the bytes it had, or was freed.
  ghost predicate FilesKept(l: Layout, d: Disk, d': Disk) {
    Shape(l, d) && Shape(l, d') && forall j :: 0 <= j < l.ninodes && d.ino[j].kind == T_FILE ==> FileKept(l, d, d', j)
  }

  ghost predicate FileKept(l: Layout, d: Disk, d': Disk, j: nat)
    requires Shape(l, d) && Shape(l, d') && j < l.ninodes
  {
    d'.ino[j].kind == 0 || (d'.ino[j].kind == T_FILE && Bytes(l, d', j) == Bytes(l, d, j))
  }

  // No free inode was taken.
  ghost predicate Calm(d: Disk, d': Disk) {
    |d'.ino| == |d.ino| && forall j :: 0 <= j < |d.ino| && d.ino[j].kind == 0 ==> d'.ino[j].kind == 0
  }

  lemma CalmTwice(d: Disk, d1: Disk, d2: Disk)
    requires Calm(d, d1) && Calm(d1, d2)
    ensures Calm(d, d2)
  {
  }

  lemma StayedCalm(d: Disk)
    ensures Calm(d, d)
  {
  }

  lemma FilesKeptTwice(l: Layout, d: Disk, d1: Disk, d2: Disk)
    requires FilesKept(l, d, d1) && FilesKept(l, d1, d2) && Calm(d1, d2)
    ensures FilesKept(l, d, d2)
  {
    hide Bytes;
    forall j | 0 <= j < l.ninodes && d.ino[j].kind == T_FILE ensures FileKept(l, d, d2, j) {
      assert FileKept(l, d, d1, j);
      if d1.ino[j].kind == T_FILE { assert FileKept(l, d1, d2, j); }
    }
  }

  // Everything that changed from a to b was logged, and no file lost its bytes.
  ghost predicate Careful(l: Layout, a: Snap, b: Snap) {
    Noted(l, a.d, b.d, a.s, b.s, {}, {}) && FilesKept(l, a.d, b.d)
  }

  // The same; and on a disk with one bitmap block, besides the blocks in known at most n were logged.
  ghost predicate Logs(l: Layout, a: Snap, b: Snap, known: set<nat>, n: nat) {
    Careful(l, a, b) && (OneBitmap(l) ==> LogsBut(a.s, b.s, known, n))
  }

  lemma LogsKnown(l: Layout, a: Snap, b: Snap, known: set<nat>)
    requires Careful(l, a, b) && (OneBitmap(l) ==> b.s <= a.s + known)
    ensures Logs(l, a, b, known, 0)
  {
    hide Noted, FilesKept;
    if OneBitmap(l) { assert b.s - a.s - known == {}; }
  }

  lemma LogsNothing(l: Layout, a: Snap, known: set<nat>)
    requires Shape(l, a.d)
    ensures Logs(l, a, a, known, 0)
  {
    NotedSame(l, a.d, a.s, {}, {});
    LogsKnown(l, a, a, known);
  }

  // One inode is changed and written back.
  lemma LogsInode(l: Layout, a: Snap, i: nat, n: Inode)
    requires Shape(l, a.d) && i < l.ninodes && (a.d.ino[i].kind == T_FILE ==> n.kind == T_FILE)
             && Shape(l, SetInode(a.d, i, n))
    requires forall j :: 0 <= j < l.ninodes ==> Bytes(l, SetInode(a.d, i, n), j) == Bytes(l, a.d, j)
    ensures Logs(l, a, Snap(SetInode(a.d, i, n), a.s + {IBlock(l, i)}), {IBlock(l, i)}, 0)
  {
    hide Bytes;
    NotedLater(l, a.d, a.s, i, n);
    NotedInode(l, a.d, SetInode(a.d, i, n), a.s, a.s, {}, i);
    LogsKnown(l, a, Snap(SetInode(a.d, i, n), a.s + {IBlock(l, i)}), {IBlock(l, i)});
  }

  // itrunc writes the inode back, so its type can change in the same block.
  lemma LogsFreed(l: Layout, a: Snap, b: Snap, i: nat, n: Inode)
    requires Noted(l, a.d, b.d, a.s, b.s, {}, {}) && IBlock(l, i) in b.s && i < |b.d.ino| && n.kind == 0
    requires OneBitmap(l) ==> b.s <= a.s + {l.bmapstart, IBlock(l, i)}
    requires Shape(l, a.d) && Shape(l, b.d) && Shape(l, SetInode(b.d, i, n))
    requires forall j :: 0 <= j < l.ninodes && j != i ==> b.d.ino[j] == a.d.ino[j]
    requires forall j :: 0 <= j < l.ninodes && j != i ==> Bytes(l, SetInode(b.d, i, n), j) == Bytes(l, a.d, j)
    ensures Logs(l, a, Snap(SetInode(b.d, i, n), b.s), {l.bmapstart, IBlock(l, i)}, 0) && Calm(a.d, SetInode(b.d, i, n))
  {
    hide Bytes;
    LogsKnown(l, a, Snap(SetInode(b.d, i, n), b.s), {l.bmapstart, IBlock(l, i)});
  }

  lemma LogsMore(l: Layout, a: Snap, b: Snap, c: Snap, k1: set<nat>, n1: nat, k2: set<nat>, n2: nat)
    requires Logs(l, a, b, k1, n1) && Logs(l, b, c, k2, n2) && Calm(b.d, c.d) && k2 <= k1
    ensures Logs(l, a, c, k1, n1 + n2)
  {
    hide Noted, FilesKept;
    FilesKeptTwice(l, a.d, b.d, c.d);
    NotedTwice(l, a.d, b.d, c.d, a.s, b.s, c.s, {}, {});
    if OneBitmap(l) {
      var x, y, z := b.s - a.s - k1, c.s - b.s - k2, c.s - a.s - k1;
      assert z <= x + y;
      SubsetSize(z, x + y);
    }
  }

  lemma LogsWider(l: Layout, a: Snap, b: Snap, k1: set<nat>, n1: nat, k2: set<nat>, n2: nat)
    requires Logs(l, a, b, k1, n1) && k1 <= k2 && n1 <= n2
    ensures Logs(l, a, b, k2, n2)
  {
    hide Noted, FilesKept;
    if OneBitmap(l) { SubsetSize(b.s - a.s - k2, b.s - a.s - k1); }
  }

  lemma ClearLogs(l: Layout, a: Snap, b: Snap, k1: set<nat>, k2: set<nat>)
    requires Noted(l, a.d, b.d, a.s, b.s, {}, {}) && FilesKept(l, a.d, b.d)
             && (OneBitmap(l) ==> LogsBut(a.s, b.s, k1, 2)) && k1 <= k2
    ensures Logs(l, a, b, k2, 2)
  {
    hide Noted, FilesKept;
    LogsWider(l, a, b, k1, 2, k2, 2);
  }

  lemma LogsTotal(l: Layout, a: Snap, b: Snap, x: nat, y: nat, z: nat, n: nat)
    requires Logs(l, a, b, {x, y, z}, n)
    ensures Careful(l, a, b) && (OneBitmap(l) ==> LogsAtMost(a.s, b.s, 3 + n))
  {
    hide Noted, FilesKept;
    if OneBitmap(l) {
      var rest, known := b.s - a.s - {x, y, z}, {x, y, z};
      SubsetSize(b.s - a.s, rest + known);
      assert |rest + known| <= |rest| + |known|;
    }
  }

  // At most five blocks in all.
  lemma FewLogged(l: Layout, a: Snap, b: Snap, x: nat, y: nat, z: nat, n: nat)
    requires n <= 2 && (Logs(l, a, b, {x, y, z}, n) || Logs(l, a, b, {x, y}, n))
    ensures Careful(l, a, b) && (OneBitmap(l) ==> LogsAtMost(a.s, b.s, 5))
  {
    hide Noted, FilesKept;
    if !Logs(l, a, b, {x, y, z}, n) { LogsWider(l, a, b, {x, y}, n, {x, y, z}, n); }
    LogsTotal(l, a, b, x, y, z, n);
  }

  // At most nine.
  lemma NineLogged(l: Layout, a: Snap, b: Snap, x: nat, y: nat, z: nat, n: nat)
    requires n <= 6 && Logs(l, a, b, {x, y, z}, n)
    ensures Careful(l, a, b) && (OneBitmap(l) ==> LogsAtMost(a.s, b.s, 9))
  {
    hide Noted, FilesKept;
    LogsTotal(l, a, b, x, y, z, n);
  }

  lemma TwoPuts(l: Layout, a: Snap, b: Snap, c: Snap, x: nat, y: nat, z: nat)
    requires Logs(l, a, b, {x, y}, 0) && Logs(l, b, c, {x, z}, 0) && Calm(b.d, c.d)
    ensures Logs(l, a, c, {x, y, z}, 0)
  {
    hide Logs;
    LogsWider(l, a, b, {x, y}, 0, {x, y, z}, 0);
    LogsMore(l, a, b, c, {x, y, z}, 0, {x, z}, 0);
  }

  // nlink is a short on the disk and in memory.
  method SetNlink(fs: FileSystem, i: nat, v: int)
    requires DiskOk(fs.l, fs.d, fs.own) && i < fs.l.ninodes && fs.d.ino[i].kind != 0
    modifies fs
    ensures DiskOk(fs.l, fs.d, fs.own) && fs.own == old(fs.own)
    ensures TreeOf(fs.l, fs.d) == SetLink(TreeOf(fs.l, old(fs.d)), i, Short(v))
    ensures fs.d == old(fs.d).(ino := old(fs.d).ino[i := old(fs.d).ino[i].(nlink := Short(v))])
    ensures forall j :: 0 <= j < fs.l.ninodes ==> Bytes(fs.l, fs.d, j) == Bytes(fs.l, old(fs.d), j)
    ensures Logs(fs.l, old(Now(fs)), Now(fs), {IBlock(fs.l, i)}, 0) && Calm(old(fs.d), fs.d)
  {
    hide Owned, Mapped, Bytes, Ents, Logs;
    var n := fs.d.ino[i].(nlink := Short(v));
    InodeSet(fs.l, fs.d, fs.own, i, n);
    LogsInode(fs.l, Now(fs), i, n);
    fs.d := SetInode(fs.d, i, n);
    fs.logged := fs.logged + {IBlock(fs.l, i)};
  }

  // The first free inode, marked allocated; 0 if there is none.
  method Ialloc(fs: FileSystem, kind: nat) returns (inum: nat)
    requires DiskOk(fs.l, fs.d, fs.own) && 0 < kind <= T_DEVICE
    modifies fs
    ensures DiskOk(fs.l, fs.d, fs.own) && fs.own == old(fs.own)
    ensures inum == 0 ==> fs.d == old(fs.d) && forall i :: 0 < i < fs.l.ninodes ==> fs.d.ino[i].kind != 0
    ensures inum != 0 ==> inum < fs.l.ninodes && old(fs.d).ino[inum].kind == 0
    ensures inum != 0 ==> fs.d == SetInode(old(fs.d), inum, Inode(kind, 0, 0, seq(NDIRECT + 1, _ => 0)))
    ensures inum != 0 ==> TreeOf(fs.l, fs.d) == TreeOf(fs.l, old(fs.d))[inum := Node(kind, 0, [])]
    ensures Logs(fs.l, old(Now(fs)), Now(fs), {IBlock(fs.l, inum)}, 0)
  {
    hide Owned, Mapped, Bytes, Logs;
    LogsNothing(fs.l, Now(fs), {IBlock(fs.l, 0)});
    inum := 1;
    while inum < fs.l.ninodes
      invariant fs.d == old(fs.d) && fs.own == old(fs.own) && fs.logged == old(fs.logged) && 1 <= inum
      invariant forall i :: 0 < i < inum && i < fs.l.ninodes ==> fs.d.ino[i].kind != 0
    {
      if fs.d.ino[inum].kind == 0 {
        var n := Inode(kind, 0, 0, seq(NDIRECT + 1, _ => 0));
        assert InodeOk(fs.d.ino[inum]);
        InodeSet(fs.l, fs.d, fs.own, inum, n);
        assert |Bytes(fs.l, fs.d, inum)| == 0;
        LogsInode(fs.l, Now(fs), inum, n);
        fs.d := SetInode(fs.d, inum, n);
        fs.logged := fs.logged + {IBlock(fs.l, inum)};
        return;
      }
      inum := inum + 1;
    }
    inum := 0;
  }

  // What dropping a reference to inode i does to the name space; busy are the inodes that
  // someone else refers to.
  function PutTree(t: Tree, i: nat, busy: set<nat>): (r: Tree)
    requires i < |t|
    ensures |r| == |t|
  {
    if t[i].nlink == 0 && i !in busy then Free(t, i) else t
  }

  // An inode that a call has put is not left in use without links and without users.
  predicate NotStranded(t: Tree, i: nat, busy: set<nat>) {
    i < |t| && t[i].kind != 0 && i !in busy ==> t[i].nlink != 0
  }

  lemma PutSettles(t: Tree, i: nat, busy: set<nat>)
    requires i < |t|
    ensures NotStranded(PutTree(t, i, busy), i, busy)
  {
  }

  lemma PutStays(t: Tree, i: nat, j: nat, busy: set<nat>)
    requires i < |t| && NotStranded(t, j, busy)
    ensures NotStranded(PutTree(t, i, busy), j, busy)
  {
  }

  // iput: an inode with no links and no other references is freed.
  method Iput(fs: FileSystem, i: nat, busy: set<nat>)
    requires DiskOk(fs.l, fs.d, fs.own) && i < fs.l.ninodes
    modifies fs
    ensures DiskOk(fs.l, fs.d, fs.own)
    ensures TreeOf(fs.l, fs.d) == PutTree(TreeOf(fs.l, old(fs.d)), i, busy)
    ensures old(fs.d).ino[i].nlink != 0 || i in busy ==> fs.d == old(fs.d)
    ensures Logs(fs.l, old(Now(fs)), Now(fs), {fs.l.bmapstart, IBlock(fs.l, i)}, 0) && Calm(old(fs.d), fs.d)
  {
    hide Owned, Mapped, Bytes, Ents, Logs, Noted, Contents;
    LogsNothing(fs.l, Now(fs), {fs.l.bmapstart, IBlock(fs.l, i)});
    if fs.d.ino[i].nlink == 0 && i !in busy {
      ghost var d0 := fs.d;
      var panic := fs.Itrunc(i);
      TruncatedFiles(fs.l, d0, fs.d, old(fs.own), fs.own, i);
      TruncatedTree(fs.l, d0, fs.d, old(fs.own), fs.own, i);
      LogsFreed(fs.l, old(Now(fs)), Now(fs), i, fs.d.ino[i].(kind := 0));
      fs.d := SetInode(fs.d, i, fs.d.ino[i].(kind := 0));
    }
  }

  lemma TruncatedTree(l: Layout, d: Disk, d': Disk, own: Owners, own': Owners, i: nat)
    requires DiskOk(l, d, own) && FilesOk(l, d', own') && i < l.ninodes
    requires d'.ino == d.ino[i := d.ino[i].(size := 0, addrs := d'.ino[i].addrs)] && d.ino[i].nlink == 0
    requires forall t :: 0 <= t < SLOTS ==> Ref(d', i, t) == 0
    requires Contents(l, d') == Contents(l, d)[i := []]
    ensures var d2 := SetInode(d', i, d'.ino[i].(kind := 0));
            && DiskOk(l, d2, own') && TreeOf(l, d2) == Free(TreeOf(l, d), i)
            && forall j :: 0 <= j < l.ninodes && j != i ==> Bytes(l, d2, j) == Bytes(l, d, j)
  {
    hide Owned, Mapped, Bytes, Contents;
    var n := d'.ino[i];
    forall s | 0 <= s < NDIRECT + 1 ensures n.addrs[s] == 0 { assert Ref(d', i, s) == n.addrs[s]; }
    assert n.addrs == seq(NDIRECT + 1, _ => 0);
    forall j | 0 <= j < l.ninodes ensures InodeOk(d'.ino[j]) { assert InodeOk(d.ino[j]); }
    forall j | 0 <= j < l.ninodes && j != i ensures Bytes(l, d', j) == Bytes(l, d, j) {
      assert Contents(l, d')[j] == Contents(l, d)[j];
    }
    InodeSet(l, d', own', i, n.(kind := 0));
  }

  // ---------------------------------------------------------------- system calls

  // No entry is free.
  predicate AllLive(ents: seq<Dirent>) { forall j :: 0 <= j < |ents| ==> Live(ents[j]) }

  // There is no block for another entry, or the directory has its greatest size.
  ghost predicate NoRoom(l: Layout, d: Disk, dp: nat)
    requires dp < |d.ino|
  {
    FullDisk(l, d) || d.ino[dp].size == MAXFILE * BSIZE
  }

  // The next entry needs a block and there are too few, or the directory has its greatest size.
  ghost predicate NoBlockFor(l: Layout, d: Disk, dp: nat, ents: seq<Dirent>)
    requires Shape(l, d) && dp < l.ninodes
  {
    || |ents| == 64 * MAXFILE
    || (|ents| < 64 * MAXFILE && |ents| % 64 == 0 && |FreeBlocks(l, d)| < FullPrice(d.ino[dp], |ents| / 64))
  }

  lemma TooFew(l: Layout, d: Disk, dp: nat, ents: seq<Dirent>)
    requires Shape(l, d) && dp < l.ninodes && |ents| <= 64 * MAXFILE && |ents| % 64 == 0
    requires |ents| < 64 * MAXFILE ==> |FreeBlocks(l, d)| < Price(d, dp, |ents| / 64)
    ensures NoBlockFor(l, d, dp, ents)
  {
    hide FreeBlocks, FullPrice;
  }

  lemma SamePlace(l: Layout, d: Disk, d': Disk, dp: nat, ents: seq<Dirent>)
    requires Shape(l, d) && Shape(l, d') && dp < l.ninodes && d'.blk == d.blk && d'.ino[dp].addrs == d.ino[dp].addrs
    ensures NoBlockFor(l, d', dp, ents) <==> NoBlockFor(l, d, dp, ents)
  {
    assert FreeBlocks(l, d') == FreeBlocks(l, d);
  }

  lemma RoomKept(l: Layout, d: Disk, d': Disk, dp: nat)
    requires dp < |d.ino| && dp < |d'.ino| && d'.blk == d.blk && d'.ino[dp].size == d.ino[dp].size
    ensures NoRoom(l, d, dp) <==> NoRoom(l, d', dp)
  {
  }

  // dirlink, seen from the name space.
  method Enter(fs: FileSystem, dp: nat, name: Name, inum: nat) returns (r: int, ghost k: nat)
    requires DiskOk(fs.l, fs.d, fs.own) && dp < fs.l.ninodes && fs.d.ino[dp].kind == T_DIR && NameOk(name)
             && inum < 0x1_0000
    modifies fs
    ensures DiskOk(fs.l, fs.d, fs.own) && r in {0, -1}
    ensures var t := TreeOf(fs.l, old(fs.d));
            if r == -1 then TreeOf(fs.l, fs.d) == t
            else (!HasName(t[dp].ents, name) && k <= |t[dp].ents| && (k < |t[dp].ents| ==> !Live(t[dp].ents[k]))
                  && TreeOf(fs.l, fs.d) == SetEnt(t, dp, k, Dirent(inum, name)))
    ensures var ents := TreeOf(fs.l, old(fs.d))[dp].ents;
            r == -1 && !HasName(ents, name) ==> AllLive(ents) && NoRoom(fs.l, fs.d, dp)
                                                && NoBlockFor(fs.l, old(fs.d), dp, ents)
    ensures r == 0 ==> Spent(old(fs.d), old(fs.own), fs.own, dp, k / 64, false)
    ensures OtherInodes(old(fs.d), fs.d, dp)
    ensures Logs(fs.l, old(Now(fs)), Now(fs), {fs.l.bmapstart, IBlock(fs.l, dp)}, 2) && Calm(old(fs.d), fs.d)
  {
    hide Owned, Mapped, Bytes, Ents, HasName, Entered, OthersKept, FullDisk, TreeOf, LogsBut, Noted, FilesKept, Calm,
        Spent, Price, FreeBlocks, NoBlockFor;
    ghost var d0, own0 := fs.d, fs.own;
    KindOf(fs.l, fs.d, dp);
    r, k := DirLink(fs, dp, name, inum);
    if r == 0 { EntrySet(fs.l, d0, fs.d, own0, fs.own, dp, k, Dirent(inum, name)); }
    else {
      NoEntrySet(fs.l, d0, fs.d, own0, fs.own, dp);
      KindOf(fs.l, fs.d, dp);
      if !HasName(Dir(fs.l, d0, dp), name) { TooFew(fs.l, d0, dp, Dir(fs.l, d0, dp)); }
    }
    SameInodes(fs.l, d0, fs.d, dp, if r == 0 then k else 0, Dirent(inum, name), r == 0);
  }

  // Inodes other than i are as before.
  ghost predicate OtherInodes(d: Disk, d': Disk, i: nat) {
    |d'.ino| == |d.ino| && forall j :: 0 <= j < |d.ino| && j != i ==> d'.ino[j] == d.ino[j]
  }

  lemma SameInodes(l: Layout, d: Disk, d': Disk, dp: nat, k: nat, e: Dirent, ok: bool)
    requires Shape(l, d) && Shape(l, d') && dp < l.ninodes && k <= |Dir(l, d, dp)|
    requires if ok then Entered(l, d, d', dp, k, e) else OthersKept(l, d, d', dp)
    ensures OtherInodes(d, d', dp)
  {
    hide Bytes, Ents;
  }

  // dirlink followed by iunlockput of the directory.
  method EnterAndPut(fs: FileSystem, dp: nat, name: Name, inum: nat, busy: set<nat>) returns (r: int, ghost k: nat)
    requires DiskOk(fs.l, fs.d, fs.own) && dp < fs.l.ninodes && fs.d.ino[dp].kind == T_DIR && NameOk(name)
             && inum < 0x1_0000
    modifies fs
    ensures DiskOk(fs.l, fs.d, fs.own) && r in {0, -1}
    ensures var t := TreeOf(fs.l, old(fs.d));
            if r == -1 then TreeOf(fs.l, fs.d) == PutTree(t, dp, busy)
            else (!HasName(t[dp].ents, name) && k <= |t[dp].ents| && (k < |t[dp].ents| ==> !Live(t[dp].ents[k]))
                  && TreeOf(fs.l, fs.d) == PutTree(SetEnt(t, dp, k, Dirent(inum, name)), dp, busy))
    ensures var ents := TreeOf(fs.l, old(fs.d))[dp].ents;
            r == -1 && !HasName(ents, name) ==> AllLive(ents) && NoBlockFor(fs.l, old(fs.d), dp, ents)
                                                && (old(fs.d).ino[dp].nlink > 0 ==> NoRoom(fs.l, fs.d, dp))
    ensures Logs(fs.l, old(Now(fs)), Now(fs), {fs.l.bmapstart, IBlock(fs.l, dp)}, 2) && Calm(old(fs.d), fs.d)
  {
    hide Owned, Mapped, Bytes, Ents, HasName, NoRoom, AllLive, TreeOf, NodeOf, Logs, Calm, NoBlockFor, FullDisk,
        PutTree;
    KindOf(fs.l, fs.d, dp);
    r, k := Enter(fs, dp, name, inum);
    KindOf(fs.l, fs.d, dp);
    ghost var s1 := Now(fs);
    Iput(fs, dp, busy);
    CalmTwice(old(fs.d), s1.d, fs.d);
    LogsMore(fs.l, old(Now(fs)), s1, Now(fs), {fs.l.bmapstart, IBlock(fs.l, dp)}, 2,
             {fs.l.bmapstart, IBlock(fs.l, dp)}, 0);
  }

  lemma KindOf(l: Layout, d: Disk, i: nat)
    requires Shape(l, d) && i < l.ninodes
    ensures var t := TreeOf(l, d);
            |t| == l.ninodes && t[i].kind == d.ino[i].kind && t[i].nlink == d.ino[i].nlink
            && (t[i].kind == T_DIR ==> t[i].ents == Dir(l, d, i))
  {
  }

  // The inodes in busy are in use.
  ghost predicate NsOk(l: Layout, d: Disk, own: Owners, busy: set<nat>) {
    DiskOk(l, d, own) && LinkInv(TreeOf(l, d)) && forall i :: i in busy ==> 0 < i < l.ninodes && d.ino[i].kind != 0
  }

  ghost predicate Resolved(t: Tree, dp: nat) { dp == 0 || (dp < |t| && t[dp].kind == T_DIR) }

  // sys_link.  The name space keeps its invariant exactly when the new name is in a directory
  // that is still linked and the count fits a short; a failure leaves every count as it was.
  method Link(fs: FileSystem, ip: nat, dp: nat, name: Name, busy: set<nat>) returns (r: int, ghost k: nat)
    requires NsOk(fs.l, fs.d, fs.own, busy) && Resolved(TreeOf(fs.l, fs.d), dp) && NameOk(name)
    requires ip == 0 || (ip < fs.l.ninodes && fs.d.ino[ip].kind != 0)
    modifies fs
    ensures DiskOk(fs.l, fs.d, fs.own) && r in {0, -1}
    ensures var t := TreeOf(fs.l, old(fs.d));
            if r == 0 then
              && ip != 0 && dp != 0 && t[ip].kind != T_DIR && CanEnter(t, dp, k, name)
              && TreeOf(fs.l, fs.d) == PutTree(LinkCounts.Link(t, ip, dp, k, name), dp, busy)
              && (LinkInv(TreeOf(fs.l, fs.d)) <==> t[dp].nlink > 0 && t[ip].nlink < MAXLINK)
            else LinkInv(TreeOf(fs.l, fs.d)) && Released(t, TreeOf(fs.l, fs.d), busy)
    ensures var t := TreeOf(fs.l, old(fs.d));
            r == -1 && ip != 0 && t[ip].kind != T_DIR && dp != 0 && !HasName(t[dp].ents, name) ==>
              AllLive(t[dp].ents) && NoBlockFor(fs.l, old(fs.d), dp, t[dp].ents)
              && (t[dp].nlink > 0 && t[ip].nlink > 0 ==> NoRoom(fs.l, fs.d, dp))
    ensures r == -1 && ip != 0 ==> NotStranded(TreeOf(fs.l, fs.d), ip, busy)
    ensures r == -1 && ip != 0 && old(fs.d).ino[ip].kind != T_DIR && dp != 0 ==>
              NotStranded(TreeOf(fs.l, fs.d), dp, busy)
    ensures Careful(fs.l, old(Now(fs)), Now(fs)) && (OneBitmap(fs.l) ==> LogsAtMost(old(fs.logged), fs.logged, 5))
  {
    hide Owned, Mapped, Bytes, Ents, HasName, NoRoom, NoBlockFor, AllLive, TreeOf, LinkInv, NodeOf, Released, Logs,
        LogsAtMost, Careful, Calm;
    ghost var s0, bm, ib, db := Now(fs), fs.l.bmapstart, IBlock(fs.l, ip), IBlock(fs.l, dp);
    LogsNothing(fs.l, s0, {bm, ib, db});
    FewLogged(fs.l, s0, s0, bm, ib, db, 0);
    k := 0;
    ghost var t := TreeOf(fs.l, fs.d);
    NothingReleased(t, busy);
    if ip == 0 { return -1, 0; }
    KindOf(fs.l, fs.d, ip);
    if fs.d.ino[ip].kind == T_DIR {
      Iput(fs, ip, busy);
      FewLogged(fs.l, s0, Now(fs), bm, ib, db, 0);
      PutReleases(t, t, ip, busy);
      PutSettles(t, ip, busy);
      return -1, 0;
    }
    if dp != 0 {
      KindOf(fs.l, fs.d, dp);
      r, k := LinkFile(fs, ip, dp, name, busy);
      FewLogged(fs.l, s0, Now(fs), bm, ib, db, 2);
      return;
    }
    SetNlink(fs, ip, fs.d.ino[ip].nlink + 1);
    LogsWider(fs.l, s0, Now(fs), {ib}, 0, {bm, ib}, 0);
    KindOf(fs.l, fs.d, ip);
    ghost var s1 := Now(fs);
    Unlinking(t, ip, dp, busy);
    UndoLink(fs, ip, busy);
    PutSettles(SetLink(TreeOf(fs.l, s1.d), ip, Short(s1.d.ino[ip].nlink - 1)), ip, busy);
    LogsMore(fs.l, s0, s1, Now(fs), {bm, ib}, 0, {bm, ib}, 0);
    FewLogged(fs.l, s0, Now(fs), bm, ib, db, 0);
    r := -1;
  }

  // The directory has been put, and then the inode with its count taken back.
  lemma BothPut(t: Tree, t1: Tree, ip: nat, dp: nat, v: int, busy: set<nat>)
    requires ip < |t| && dp < |t| && ip != dp && t1 == PutTree(t, dp, busy)
    ensures var t2 := PutTree(SetLink(t1, ip, v), ip, busy); NotStranded(t2, ip, busy) && NotStranded(t2, dp, busy)
  {
    PutSettles(t, dp, busy);
    PutSettles(SetLink(t1, ip, v), ip, busy);
    PutStays(SetLink(t1, ip, v), ip, dp, busy);
  }

  // sys_link of a file into a directory.
  method LinkFile(fs: FileSystem, ip: nat, dp: nat, name: Name, busy: set<nat>) returns (r: int, ghost k: nat)
    requires NsOk(fs.l, fs.d, fs.own, busy) && 0 < dp < fs.l.ninodes && fs.d.ino[dp].kind == T_DIR && NameOk(name)
    requires 0 < ip < fs.l.ninodes && fs.d.ino[ip].kind !in {0, T_DIR}
    modifies fs
    ensures DiskOk(fs.l, fs.d, fs.own) && r in {0, -1}
    ensures var t := TreeOf(fs.l, old(fs.d));
            if r == 0 then
              && CanEnter(t, dp, k, name) && TreeOf(fs.l, fs.d) == PutTree(LinkCounts.Link(t, ip, dp, k, name), dp,
                                                                           busy)
              && (LinkInv(TreeOf(fs.l, fs.d)) <==> t[dp].nlink > 0 && t[ip].nlink < MAXLINK)
            else LinkInv(TreeOf(fs.l, fs.d)) && Released(t, TreeOf(fs.l, fs.d), busy)
    ensures var t := TreeOf(fs.l, old(fs.d));
            r == -1 && !HasName(t[dp].ents, name) ==>
              AllLive(t[dp].ents) && NoBlockFor(fs.l, old(fs.d), dp, t[dp].ents)
              && (t[dp].nlink > 0 && t[ip].nlink > 0 ==> NoRoom(fs.l, fs.d, dp))
    ensures r == -1 ==> NotStranded(TreeOf(fs.l, fs.d), ip, busy) && NotStranded(TreeOf(fs.l, fs.d), dp, busy)
    ensures Logs(fs.l, old(Now(fs)), Now(fs), {fs.l.bmapstart, IBlock(fs.l, ip), IBlock(fs.l, dp)}, 2)
  {
    hide Owned, Mapped, Bytes, Ents, HasName, NoRoom, AllLive, TreeOf, LinkInv, NodeOf, Released, Logs,
        LinkCounts.Link, Short, Calm, FullDisk, NoBlockFor;
    ghost var s0, known := Now(fs), {fs.l.bmapstart, IBlock(fs.l, ip), IBlock(fs.l, dp)};
    ghost var t := TreeOf(fs.l, fs.d);
    KindOf(fs.l, fs.d, ip);
    KindOf(fs.l, fs.d, dp);
    SetNlink(fs, ip, fs.d.ino[ip].nlink + 1);
    LogsWider(fs.l, s0, Now(fs), {IBlock(fs.l, ip)}, 0, known, 0);
    SamePlace(fs.l, s0.d, fs.d, dp, t[dp].ents);
    KindOf(fs.l, fs.d, dp);
    ghost var s1, t1 := Now(fs), TreeOf(fs.l, fs.d);
    r, k := EnterAndPut(fs, dp, name, ip, busy);
    LogsMore(fs.l, s0, s1, Now(fs), known, 0, {fs.l.bmapstart, IBlock(fs.l, dp)}, 2);
    KindOf(fs.l, fs.d, ip);
    s1 := Now(fs);
    if r == 0 {
      Linking(t, ip, dp, k, name, busy);
      Iput(fs, ip, busy);
    } else {
      Unlinking(t, ip, dp, busy);
      UndoLink(fs, ip, busy);
      BothPut(t1, TreeOf(fs.l, s1.d), ip, dp, Short(s1.d.ino[ip].nlink - 1), busy);
    }
    LogsMore(fs.l, s0, s1, Now(fs), known, 2, {fs.l.bmapstart, IBlock(fs.l, ip)}, 0);
  }

  // The label bad of sys_link: take back the count, and put the inode.
  method UndoLink(fs: FileSystem, ip: nat, busy: set<nat>)
    requires DiskOk(fs.l, fs.d, fs.own) && ip < fs.l.ninodes && fs.d.ino[ip].kind != 0
    modifies fs
    ensures DiskOk(fs.l, fs.d, fs.own)
    ensures var v := Short(old(fs.d).ino[ip].nlink - 1);
            && TreeOf(fs.l, fs.d) == PutTree(SetLink(TreeOf(fs.l, old(fs.d)), ip, v), ip, busy)
            && (v != 0 ==> forall dp: nat :: dp < fs.l.ninodes && NoRoom(fs.l, old(fs.d), dp) ==>
                                               NoRoom(fs.l, fs.d, dp))
    ensures Logs(fs.l, old(Now(fs)), Now(fs), {fs.l.bmapstart, IBlock(fs.l, ip)}, 0) && Calm(old(fs.d), fs.d)
  {
    hide Owned, Mapped, Bytes, Ents, NoRoom, TreeOf, NodeOf, Logs, Calm;
    ghost var d0, s0, known := fs.d, Now(fs), {fs.l.bmapstart, IBlock(fs.l, ip)};
    SetNlink(fs, ip, fs.d.ino[ip].nlink - 1);
    LogsWider(fs.l, s0, Now(fs), {IBlock(fs.l, ip)}, 0, known, 0);
    ghost var d1, s1 := fs.d, Now(fs);
    forall dp: nat | dp < fs.l.ninodes ensures NoRoom(fs.l, d0, dp) <==> NoRoom(fs.l, d1, dp) {
      RoomKept(fs.l, d0, d1, dp);
    }
    Iput(fs, ip, busy);
    CalmTwice(d0, d1, fs.d);
    LogsMore(fs.l, s0, s1, Now(fs), known, 0, known, 0);
  }

  // Nothing changed but that some unlinked inodes which nobody holds were freed.
  ghost predicate Released(t: Tree, t': Tree, busy: set<nat>) {
    |t'| == |t| && forall i :: 0 <= i < |t| ==> t'[i] == t[i]
                                                || (i !in busy && t[i].nlink == 0 && t'[i] == Node(0, 0, []))
  }

  lemma NothingReleased(t: Tree, busy: set<nat>)
    ensures Released(t, t, busy)
  {
  }

  lemma PutReleases(t: Tree, t1: Tree, i: nat, busy: set<nat>)
    requires LinkInv(t1) && Released(t, t1, busy) && 0 < i < |t1|
    ensures LinkInv(PutTree(t1, i, busy)) && Released(t, PutTree(t1, i, busy), busy)
  {
    hide LinkInv;
    if t1[i].nlink == 0 && i !in busy { FreeKeeps(t1, i); }
  }

  // The last reference to the file is not its last link.
  lemma Linking(t: Tree, ip: nat, dp: nat, k: nat, name: Name, busy: set<nat>)
    requires CanEnter(t, dp, k, name) && 0 < ip < |t| && t[ip].kind !in {0, T_DIR}
    ensures var t1 := PutTree(SetEnt(SetLink(t, ip, Short(t[ip].nlink + 1)), dp, k, Dirent(ip, name)), dp, busy);
            && t1 == PutTree(LinkCounts.Link(t, ip, dp, k, name), dp, busy) && ip < |t1| && PutTree(t1, ip, busy) == t1
            && (LinkInv(t1) <==> t[dp].nlink > 0 && t[ip].nlink < MAXLINK)
  {
    hide HasName, Distinct, Shaped;
    assert NodeOk(t, ip) && NodeOk(t, dp);
    LinkKeepsIff(t, ip, dp, k, name);
    var t0 := LinkCounts.Link(t, ip, dp, k, name);
    if t[dp].nlink == 0 && dp !in busy {
      assert name != DOT by { DotIsThere(t, dp, name); }
      LinkRefs(t, ip, dp, k, name, ip);
      FreeRefs(t0, dp, ip);
      assert Counted(t, ip);
      assert !Counted(Free(t0, dp), ip);
    }
  }

  lemma FreeRefs(t: Tree, i: nat, j: nat)
    requires i < |t| && t[i].nlink == 0 && j > 0
    ensures Refs(Free(t, i), j) == Refs(t, j)
  {
    forall d: nat, m: nat ensures IsRef(Free(t, i), d, m, j) <==> IsRef(t, d, m, j) {}
  }

  // Taking back the count restores the tree, whether or not the directory was freed meanwhile.
  lemma Unlinking(t: Tree, ip: nat, dp: nat, busy: set<nat>)
    requires LinkInv(t) && 0 < ip < |t| && t[ip].kind !in {0, T_DIR} && dp < |t| && (dp == 0 || t[dp].kind == T_DIR)
    ensures var t1 := SetLink(t, ip, Short(t[ip].nlink + 1));
            var t2 := if dp == 0 then t1 else PutTree(t1, dp, busy);
            var t3 := SetLink(t2, ip, Short(t2[ip].nlink - 1));
            && t3 == (if dp == 0 then t else PutTree(t, dp, busy))
            && LinkInv(PutTree(t3, ip, busy)) && Released(t, PutTree(t3, ip, busy), busy)
  {
    assert NodeOk(t, ip);
    hide LinkInv, NodeOk;
    NothingReleased(t, busy);
    var t3 := if dp == 0 then t else PutTree(t, dp, busy);
    var t1 := SetLink(t, ip, Short(t[ip].nlink + 1));
    var t2 := if dp == 0 then t1 else PutTree(t1, dp, busy);
    assert SetLink(t2, ip, Short(t2[ip].nlink - 1)) == t3;
    if dp != 0 { PutReleases(t, t, dp, busy); }
    PutReleases(t, t3, ip, busy);
  }

  // The second half of sys_unlink, once nothing can fail.
  method RemoveEntry(fs: FileSystem, dp: nat, k: nat, ip: nat, busy: set<nat>)
    requires DiskOk(fs.l, fs.d, fs.own) && CanUnlink(TreeOf(fs.l, fs.d), dp, k)
             && ip == TreeOf(fs.l, fs.d)[dp].ents[k].inum
    modifies fs
    ensures DiskOk(fs.l, fs.d, fs.own)
    ensures TreeOf(fs.l, fs.d) == PutTree(LinkCounts.Unlink(TreeOf(fs.l, old(fs.d)), dp, k), ip, busy)
            && LinkInv(TreeOf(fs.l, fs.d))
    ensures Logs(fs.l, old(Now(fs)), Now(fs), {fs.l.bmapstart, IBlock(fs.l, ip), IBlock(fs.l, dp)}, 2)
  {
    hide Owned, Mapped, Bytes, Ents, HasName, FullDisk, TreeOf, LinkInv, NodeOf, OthersKept, Entered, LogsBut, Logs,
        Noted, FilesKept, Calm;
    ghost var s0, known := Now(fs), {fs.l.bmapstart, IBlock(fs.l, ip), IBlock(fs.l, dp)};
    ghost var t := TreeOf(fs.l, fs.d);
    KindOf(fs.l, fs.d, dp);
    Removing(t, dp, k, busy);
    ghost var d0, own0 := fs.d, fs.own;
    var panic := ClearEntry(fs, dp, k);
    EntrySet(fs.l, d0, fs.d, own0, fs.own, dp, k, Dirent(0, []));
    ClearLogs(fs.l, s0, Now(fs), {fs.l.bmapstart, IBlock(fs.l, dp)}, known);
    ghost var s1 := Now(fs);
    KindOf(fs.l, fs.d, ip);
    KindOf(fs.l, fs.d, dp);
    if fs.d.ino[ip].kind == T_DIR {
      SetNlink(fs, dp, fs.d.ino[dp].nlink - 1);
      LogsMore(fs.l, s0, s1, Now(fs), known, 2, {IBlock(fs.l, dp)}, 0);
    }
    s1 := Now(fs);
    Iput(fs, dp, busy);
    LogsMore(fs.l, s0, s1, Now(fs), known, 2, {fs.l.bmapstart, IBlock(fs.l, dp)}, 0);
    KindOf(fs.l, fs.d, ip);
    s1 := Now(fs);
    SetNlink(fs, ip, fs.d.ino[ip].nlink - 1);
    LogsMore(fs.l, s0, s1, Now(fs), known, 2, {IBlock(fs.l, ip)}, 0);
    s1 := Now(fs);
    Iput(fs, ip, busy);
    LogsMore(fs.l, s0, s1, Now(fs), known, 2, {fs.l.bmapstart, IBlock(fs.l, ip)}, 0);
  }

  // sys_unlink: the panic on a missing link is never reached, and the invariant always holds.
  method Unlink(fs: FileSystem, dp: nat, name: Name, busy: set<nat>) returns (r: int, panic: bool, ghost k: nat)
    requires NsOk(fs.l, fs.d, fs.own, busy) && Resolved(TreeOf(fs.l, fs.d), dp) && NameOk(name)
    modifies fs
    ensures DiskOk(fs.l, fs.d, fs.own) && r in {0, -1} && !panic && LinkInv(TreeOf(fs.l, fs.d))
    ensures var t := TreeOf(fs.l, old(fs.d));
            if r == 0 then
              && dp != 0 && CanUnlink(t, dp, k) && t[dp].ents[k].name == name
              && TreeOf(fs.l, fs.d) == PutTree(LinkCounts.Unlink(t, dp, k), t[dp].ents[k].inum, busy)
            else Released(t, TreeOf(fs.l, fs.d), busy) && (dp != 0 ==> Refused(t, dp, name))
    ensures r == -1 && dp != 0 ==> NotStranded(TreeOf(fs.l, fs.d), dp, busy)
    ensures Careful(fs.l, old(Now(fs)), Now(fs)) && (OneBitmap(fs.l) ==> LogsAtMost(old(fs.logged), fs.logged, 5))
  {
    hide Owned, Mapped, Bytes, Ents, HasName, FullDisk, TreeOf, LinkInv, NodeOf, Released, OthersKept, Entered, Logs,
        LogsAtMost, Careful, Calm;
    ghost var s0, bm, db := Now(fs), fs.l.bmapstart, IBlock(fs.l, dp);
    LogsNothing(fs.l, s0, {bm, db});
    FewLogged(fs.l, s0, s0, bm, db, db, 0);
    k, panic := 0, false;
    ghost var t := TreeOf(fs.l, fs.d);
    NothingReleased(t, busy);
    if dp == 0 { return -1, false, 0; }
    KindOf(fs.l, fs.d, dp);
    PutReleases(t, t, dp, busy);
    PutSettles(t, dp, busy);
    if name == DOT || name == DOTDOT {
      Iput(fs, dp, busy);
      FewLogged(fs.l, s0, Now(fs), bm, db, db, 0);
      return -1, false, 0;
    }
    var found, at, ip := DirLookup(fs, dp, name);
    if !found {
      Iput(fs, dp, busy);
      FewLogged(fs.l, s0, Now(fs), bm, db, db, 0);
      return -1, false, 0;
    }
    k := at;
    Found(t, dp, at, name);
    KindOf(fs.l, fs.d, ip);
    if fs.d.ino[ip].nlink < 1 { return -1, true, k; }
    if fs.d.ino[ip].kind == T_DIR {
      var empty := IsDirEmpty(fs, ip);
      if !empty {
        IsRefused(t, dp, at, name);
        Iput(fs, ip, busy);
        ghost var s1 := Now(fs);
        PutSettles(TreeOf(fs.l, fs.d), dp, busy);
        Iput(fs, dp, busy);
        TwoPuts(fs.l, s0, s1, Now(fs), bm, IBlock(fs.l, ip), db);
        FewLogged(fs.l, s0, Now(fs), bm, IBlock(fs.l, ip), db, 0);
        return -1, false, k;
      }
    }
    RemoveEntry(fs, dp, at, ip, busy);
    FewLogged(fs.l, s0, Now(fs), bm, IBlock(fs.l, ip), db, 2);
    r := 0;
  }

  // Why unlink refuses a name.
  ghost predicate Refused(t: Tree, dp: nat, name: Name)
    requires dp < |t|
  {
    || name in {DOT, DOTDOT} || !HasName(t[dp].ents, name)
    || exists k :: HoldsFull(t, dp, k, name)
  }

  ghost predicate HoldsFull(t: Tree, dp: nat, k: nat, name: Name)
    requires dp < |t|
  {
    && k < |t[dp].ents| && Live(t[dp].ents[k]) && t[dp].ents[k].name == name && t[dp].ents[k].inum < |t|
    && t[t[dp].ents[k].inum].kind == T_DIR && !Empty(t[t[dp].ents[k].inum].ents)
  }

  lemma IsRefused(t: Tree, dp: nat, k: nat, name: Name)
    requires dp < |t| && HoldsFull(t, dp, k, name)
    ensures Refused(t, dp, name)
  {
    hide Empty, HasName;
  }

  lemma Found(t: Tree, dp: nat, k: nat, name: Name)
    requires LinkInv(t) && 0 < dp < |t| && t[dp].kind == T_DIR && k < |t[dp].ents| && Live(t[dp].ents[k])
             && t[dp].ents[k].name == name
    requires name !in {DOT, DOTDOT}
    ensures 2 <= k && t[dp].ents[k].inum < |t| && t[t[dp].ents[k].inum].nlink >= 1 && t[t[dp].ents[k].inum].kind != 0
            && t[dp].nlink > 0
    ensures Named(t, dp, k)
  {
    assert NodeOk(t, dp);
    EntryLinked(t, dp, k);
  }

  lemma Removing(t: Tree, dp: nat, k: nat, busy: set<nat>)
    requires CanUnlink(t, dp, k)
    ensures var ip := t[dp].ents[k].inum;
            var t1 := SetEnt(t, dp, k, NONE);
            var t2 := if t1[ip].kind == T_DIR then SetLink(t1, dp, Short(t1[dp].nlink - 1)) else t1;
            && PutTree(t2, dp, busy) == t2 && t[ip].kind != 0
            && SetLink(t2, ip, Short(t2[ip].nlink - 1)) == LinkCounts.Unlink(t, dp, k)
            && LinkInv(PutTree(LinkCounts.Unlink(t, dp, k), ip, busy))
  {
    EntryLinked(t, dp, k);
    assert NodeOk(t, dp);
    var ip := t[dp].ents[k].inum;
    if t[ip].kind == T_DIR { EmptyNamedOnce(t, dp, k); DotDotCounts(t, ip); }
    UnlinkKeeps(t, dp, k);
    hide LinkInv;
    var t' := LinkCounts.Unlink(t, dp, k);
    if t'[ip].nlink == 0 { FreeKeeps(t', ip); }
  }

  // The first half of create: the name is already there.
  method OpenExisting(fs: FileSystem, dp: nat, k: nat, ip: nat, kind: nat, busy: set<nat>)
    returns (inum: nat, panic: bool)
    requires NsOk(fs.l, fs.d, fs.own, busy) && 0 < dp < fs.l.ninodes && fs.d.ino[dp].kind == T_DIR
    requires var t := TreeOf(fs.l, fs.d); k < |t[dp].ents| && t[dp].ents[k].inum == ip != 0
    modifies fs
    ensures DiskOk(fs.l, fs.d, fs.own) && LinkInv(TreeOf(fs.l, fs.d))
            && Released(TreeOf(fs.l, old(fs.d)), TreeOf(fs.l, fs.d), busy)
    ensures var t := TreeOf(fs.l, old(fs.d));
            && ip < |t| && (panic <==> t[ip].kind == 0)
            && inum == if kind == T_FILE && t[ip].kind in {T_FILE, T_DEVICE} then ip else 0
    ensures NotStranded(TreeOf(fs.l, fs.d), dp, busy) && (inum == 0 ==> NotStranded(TreeOf(fs.l, fs.d), ip, busy))
    ensures Logs(fs.l, old(Now(fs)), Now(fs), {fs.l.bmapstart, IBlock(fs.l, ip), IBlock(fs.l, dp)}, 0)
  {
    hide Owned, Mapped, Bytes, Ents, TreeOf, LinkInv, NodeOf, Released, Logs, Calm;
    ghost var s0, known := Now(fs), {fs.l.bmapstart, IBlock(fs.l, ip), IBlock(fs.l, dp)};
    ghost var t := TreeOf(fs.l, fs.d);
    KindOf(fs.l, fs.d, dp);
    EntryInTree(t, dp, k);
    NothingReleased(t, busy);
    ghost var t1 := PutTree(t, dp, busy + {ip});
    PutReleases(t, t, dp, busy);
    KindOf(fs.l, fs.d, ip);
    Iput(fs, dp, busy + {ip});
    PutSettles(t, dp, busy + {ip});
    assert ip != dp ==> NotStranded(t1, dp, busy);
    LogsWider(fs.l, s0, Now(fs), {fs.l.bmapstart, IBlock(fs.l, dp)}, 0, known, 0);
    ghost var s1 := Now(fs);
    KindOf(fs.l, fs.d, ip);
    if fs.d.ino[ip].kind == 0 { return 0, true; }
    if kind == T_FILE && fs.d.ino[ip].kind in {T_FILE, T_DEVICE} { return ip, false; }
    PutReleases(t, t1, ip, busy);
    PutSettles(t1, ip, busy);
    if ip != dp { PutStays(t1, ip, dp, busy); }
    Iput(fs, ip, busy);
    LogsMore(fs.l, s0, s1, Now(fs), known, 0, {fs.l.bmapstart, IBlock(fs.l, ip)}, 0);
    return 0, false;
  }

  lemma EntryInTree(t: Tree, dp: nat, k: nat)
    requires LinkInv(t) && dp < |t| && t[dp].kind == T_DIR && k < |t[dp].ents|
    ensures t[dp].ents[k].inum < |t|
  {
    assert NodeOk(t, dp);
  }

  // A name leads to a freed inode only through the ".." of a removed directory.
  lemma StaleOnlyDotDot(t: Tree, dp: nat, k: nat)
    requires LinkInv(t) && dp < |t| && t[dp].kind == T_DIR && k < |t[dp].ents| && Live(t[dp].ents[k])
    ensures t[dp].ents[k].inum < |t|
    ensures t[t[dp].ents[k].inum].kind == 0 ==> t[dp].nlink == 0 && k == 1
  {
    assert NodeOk(t, dp);
    var ip := t[dp].ents[k].inum;
    if t[dp].nlink > 0 && k > 0 {
      assert IsRef(t, dp, k, ip) by { assert Live(t[dp].ents[0]); }
      assert Counted(t, ip) && NodeOk(t, ip);
      assert |Refs(t, ip) - {(dp, k)}| == |Refs(t, ip)| - 1;
    }
  }

  lemma NoNamesYet(ip: nat)
    ensures !HasName([], DOT) && !HasName([Dirent(ip, DOT)], DOTDOT)
  {
  }

  // The first entry of a directory costs one block at most.
  lemma FirstCosts(l: Layout, d: Disk, own: Owners, own': Owners, ip: nat, r: int, k: nat)
    requires Shape(l, d) && ip < l.ninodes
    requires if r == 0 then k == 0 && Spent(d, own, own', ip, k / 64, false) else NoBlockFor(l, d, ip, [])
    ensures if r == 0 then |own'| <= |own| + 1 else |FreeBlocks(l, d)| == 0
  {
    hide FreeBlocks;
  }

  // The second is in the same block.
  lemma SecondRoom(l: Layout, d: Disk, ip: nat, ents: seq<Dirent>)
    requires Shape(l, d) && ip < l.ninodes && |ents| == 1
    ensures !NoBlockFor(l, d, ip, ents)
  {
  }

  lemma SecondFree(l: Layout, d: Disk, own: Owners, own': Owners, ip: nat, k: nat)
    requires FilesOk(l, d, own) && ip < l.ninodes && d.ino[ip].size > 0 && k < 64
             && Spent(d, own, own', ip, k / 64, false)
    ensures |own'| == |own|
  {
    hide Owned;
    assert Mapped(d, ip);
    assert Addr(d, ip, 0) != 0;
  }

  // The two entries of a new directory ip; only a full disk stops them, and only at the first.
  method MakeDots(fs: FileSystem, ip: nat, dp: nat) returns (ok: bool, ghost ents: seq<Dirent>)
    requires DiskOk(fs.l, fs.d, fs.own) && 0 < ip < fs.l.ninodes && dp < fs.l.ninodes
    requires TreeOf(fs.l, fs.d)[ip] == Node(T_DIR, 1, [])
    modifies fs
    ensures DiskOk(fs.l, fs.d, fs.own) && TreeOf(fs.l, fs.d) == TreeOf(fs.l, old(fs.d))[ip := Node(T_DIR, 1, ents)]
    ensures if ok then ents == [Dirent(ip, DOT), Dirent(dp, DOTDOT)] else |FreeBlocks(fs.l, old(fs.d))| == 0
    ensures ok ==> |fs.own| <= |old(fs.own)| + 1
    ensures OtherInodes(old(fs.d), fs.d, ip)
    ensures Logs(fs.l, old(Now(fs)), Now(fs), {fs.l.bmapstart, IBlock(fs.l, ip)}, 4) && Calm(old(fs.d), fs.d)
  {
    hide Owned, Mapped, Bytes, Ents, HasName, TreeOf, NodeOf, Logs, FullDisk, NoRoom, Calm, Spent, NoBlockFor,
        FreeBlocks;
    NoNamesYet(ip);
    ghost var s0, known := Now(fs), {fs.l.bmapstart, IBlock(fs.l, ip)};
    ghost var t, k := TreeOf(fs.l, fs.d), 0;
    var r;
    KindOf(fs.l, fs.d, ip);
    ents := [];
    assert t == t[ip := Node(T_DIR, 1, [])];
    ghost var own0 := fs.own;
    r, k := Enter(fs, ip, DOT, ip);
    LogsWider(fs.l, s0, Now(fs), known, 2, known, 4);
    ghost var s1, own1 := Now(fs), fs.own;
    FirstCosts(fs.l, s0.d, own0, own1, ip, r, k);
    if r != 0 { return false, ents; }
    ents := [Dirent(ip, DOT)];
    assert Put([], k, Dirent(ip, DOT)) == ents;
    KindOf(fs.l, fs.d, ip);
    r, k := Enter(fs, ip, DOTDOT, dp);
    CalmTwice(s0.d, s1.d, fs.d);
    LogsMore(fs.l, s0, s1, Now(fs), known, 2, known, 2);
    SecondRoom(fs.l, s1.d, ip, [Dirent(ip, DOT)]);
    assert r == 0;
    SecondFree(fs.l, s1.d, own1, fs.own, ip, k);
    assert Put(ents, k, Dirent(dp, DOTDOT)) == [Dirent(ip, DOT), Dirent(dp, DOTDOT)];
    ents := [Dirent(ip, DOT), Dirent(dp, DOTDOT)];
    ok := true;
  }

  // ialloc for create: an inode with one link and, for a directory, its two entries.
  method NewInode(fs: FileSystem, kind: nat, dp: nat) returns (inum: nat, ok: bool, ghost ents: seq<Dirent>)
    requires DiskOk(fs.l, fs.d, fs.own) && LinkInv(TreeOf(fs.l, fs.d)) && dp < fs.l.ninodes && 0 < kind <= T_DEVICE
    modifies fs
    ensures DiskOk(fs.l, fs.d, fs.own) && inum < fs.l.ninodes
    ensures var t := TreeOf(fs.l, old(fs.d));
            if inum == 0 then TreeOf(fs.l, fs.d) == t
            else t[inum] == Node(0, 0, []) && TreeOf(fs.l, fs.d) == t[inum := Node(kind, 1, ents)]
    ensures ok ==> ents == if kind == T_DIR then [Dirent(inum, DOT), Dirent(dp, DOTDOT)] else []
    ensures inum == 0 ==> NoInode(old(fs.d))
    ensures inum != 0 && !ok ==> kind == T_DIR && |FreeBlocks(fs.l, old(fs.d))| == 0
    ensures ok ==> |fs.own| <= |old(fs.own)| + if kind == T_DIR then 1 else 0
    ensures OtherInodes(old(fs.d), fs.d, inum)
    ensures Logs(fs.l, old(Now(fs)), Now(fs), {fs.l.bmapstart, IBlock(fs.l, inum)}, 4)
  {
    hide Owned, Mapped, Bytes, Ents, HasName, TreeOf, NodeOf, LinkInv, Logs, FullDisk, Calm, FreeBlocks, OtherInodes;
    ghost var s0 := Now(fs);
    ghost var t := TreeOf(fs.l, fs.d);
    inum := Ialloc(fs, kind);
    OneInode(s0.d, fs.d, inum);
    ghost var s1, known := Now(fs), {fs.l.bmapstart, IBlock(fs.l, inum)};
    LogsWider(fs.l, s0, s1, {IBlock(fs.l, inum)}, 0, known, 4);
    LogsWider(fs.l, s0, s1, {IBlock(fs.l, inum)}, 0, known, 0);
    ents := [];
    if inum == 0 { return 0, false, ents; }
    FreeNode(fs.l, old(fs.d), fs.own, inum);
    SetNlink(fs, inum, 1);
    OneInode(s0.d, fs.d, inum);
    SameFree(fs.l, old(fs.d), fs.d);
    LogsMore(fs.l, s0, s1, Now(fs), known, 0, {IBlock(fs.l, inum)}, 0);
    LogsWider(fs.l, s0, Now(fs), known, 0, known, 4);
    s1 := Now(fs);
    KindOf(fs.l, fs.d, inum);
    ok := true;
    if kind == T_DIR {
      ok, ents := MakeDots(fs, inum, dp);
      LogsMore(fs.l, s0, s1, Now(fs), known, 0, known, 4);
      OtherTwice(s0.d, s1.d, fs.d, inum);
    }
  }

  lemma OneInode(d: Disk, d': Disk, i: nat)
    requires d' == d || (i < |d.ino| == |d'.ino| && d'.ino == d.ino[i := d'.ino[i]])
    ensures OtherInodes(d, d', i)
  {
  }

  lemma OtherTwice(d: Disk, d1: Disk, d2: Disk, i: nat)
    requires OtherInodes(d, d1, i) && OtherInodes(d1, d2, i)
    ensures OtherInodes(d, d2, i)
  {
  }

  lemma SameFree(l: Layout, d: Disk, d': Disk)
    requires Shape(l, d) && Shape(l, d') && d'.blk == d.blk
    ensures FreeBlocks(l, d') == FreeBlocks(l, d)
  {
  }

  lemma UndoTree(t: Tree, i: nat, kind: nat, ents: seq<Dirent>, busy: set<nat>)
    requires i < |t| && t[i] == Node(0, 0, []) && i !in busy
    ensures PutTree(SetLink(t[i := Node(kind, 1, ents)], i, 0), i, busy) == t
  {
  }

  lemma CreateTree(t: Tree, i: nat, kind: nat, ents: seq<Dirent>, dp: nat, k: nat, name: Name)
    requires i < |t| && dp < |t| && k <= |t[dp].ents| && i != dp
    requires ents == if kind == T_DIR then [Dirent(i, DOT), Dirent(dp, DOTDOT)] else []
    ensures var t1 := SetEnt(t[i := Node(kind, 1, ents)], dp, k, Dirent(i, name));
            LinkCounts.Create(t, i, kind, dp, k, name) == if kind == T_DIR then
                  SetLink(t1, dp, Short(t1[dp].nlink + 1)) else t1
  {
  }

  // The end of create: count the ".." of a new directory, and put the parent.
  method CreateFinish(fs: FileSystem, dp: nat, kind: nat, busy: set<nat>)
    requires DiskOk(fs.l, fs.d, fs.own) && dp < fs.l.ninodes && fs.d.ino[dp].kind != 0
    modifies fs
    ensures DiskOk(fs.l, fs.d, fs.own)
    ensures var t := TreeOf(fs.l, old(fs.d));
            |t| == fs.l.ninodes && TreeOf(fs.l, fs.d) == PutTree(if kind == T_DIR then
                                                                   SetLink(t, dp, Short(t[dp].nlink + 1))
                                                                   else t, dp, busy)
    ensures Logs(fs.l, old(Now(fs)), Now(fs), {fs.l.bmapstart, IBlock(fs.l, dp)}, 0) && Calm(old(fs.d), fs.d)
  {
    hide Owned, Mapped, Bytes, Ents, TreeOf, NodeOf, Logs, Short, Calm;
    StayedCalm(fs.d);
    ghost var s0, known := Now(fs), {fs.l.bmapstart, IBlock(fs.l, dp)};
    LogsNothing(fs.l, s0, known);
    KindOf(fs.l, fs.d, dp);
    if kind == T_DIR {
      SetNlink(fs, dp, fs.d.ino[dp].nlink + 1);
      LogsWider(fs.l, s0, Now(fs), {IBlock(fs.l, dp)}, 0, known, 0);
    }
    ghost var s1 := Now(fs);
    Iput(fs, dp, busy);
    CalmTwice(s0.d, s1.d, fs.d);
    LogsMore(fs.l, s0, s1, Now(fs), known, 0, known, 0);
  }

  // The label fail of create: the new inode is freed, and the parent put.
  method CreateFail(fs: FileSystem, i: nat, dp: nat, busy: set<nat>)
    requires DiskOk(fs.l, fs.d, fs.own) && i < fs.l.ninodes && fs.d.ino[i].kind != 0 && dp < fs.l.ninodes
    modifies fs
    ensures DiskOk(fs.l, fs.d, fs.own)
    ensures var t := TreeOf(fs.l, old(fs.d));
            |t| == fs.l.ninodes && TreeOf(fs.l, fs.d) == PutTree(PutTree(SetLink(t, i, 0), i, busy), dp, busy)
    ensures Logs(fs.l, old(Now(fs)), Now(fs), {fs.l.bmapstart, IBlock(fs.l, i), IBlock(fs.l, dp)}, 0)
            && Calm(old(fs.d), fs.d)
  {
    hide Owned, Mapped, Bytes, Ents, TreeOf, NodeOf, Logs, Calm;
    ghost var s0, known := Now(fs), {fs.l.bmapstart, IBlock(fs.l, i), IBlock(fs.l, dp)};
    KindOf(fs.l, fs.d, i);
    SetNlink(fs, i, 0);
    LogsWider(fs.l, s0, Now(fs), {IBlock(fs.l, i)}, 0, known, 0);
    ghost var s1 := Now(fs);
    Iput(fs, i, busy);
    CalmTwice(s0.d, s1.d, fs.d);
    LogsMore(fs.l, s0, s1, Now(fs), known, 0, {fs.l.bmapstart, IBlock(fs.l, i)}, 0);
    s1 := Now(fs);
    Iput(fs, dp, busy);
    CalmTwice(s0.d, s1.d, fs.d);
    LogsMore(fs.l, s0, s1, Now(fs), known, 0, {fs.l.bmapstart, IBlock(fs.l, dp)}, 0);
  }

  // The blocks that create needs: one for the entries of a new directory, and what a place for the new
  // name costs if no entry is free and the last block of the parent is full.
  ghost function Wanted(n: Inode, ents: seq<Dirent>, kind: nat): nat
    requires |n.addrs| == NDIRECT + 1
  {
    (if kind == T_DIR then 1 else 0) + (if AllLive(ents) && |ents| % 64 == 0 then FullPrice(n, |ents| / 64) else 0)
  }

  // What create was short of: an inode, blocks, or a place in a directory of the greatest size.
  ghost predicate Shortage(l: Layout, d: Disk, dp: nat, ents: seq<Dirent>, kind: nat)
    requires Shape(l, d) && dp < l.ninodes
  {
    NoInode(d) || |FreeBlocks(l, d)| < Wanted(d.ino[dp], ents, kind) || (AllLive(ents) && |ents| == 64 * MAXFILE)
  }

  lemma ShortOfNew(l: Layout, d: Disk, dp: nat, ents: seq<Dirent>, kind: nat, none: bool)
    requires Shape(l, d) && dp < l.ninodes
    ensures if none then NoInode(d) ==> Shortage(l, d, dp, ents, kind)
            else kind == T_DIR && |FreeBlocks(l, d)| == 0 ==> Shortage(l, d, dp, ents, kind)
  {
    hide FreeBlocks, AllLive, NoInode;
  }

  // d is the disk before create, d1 the one in which dirlink failed.
  lemma ShortOfPlace(l: Layout, d: Disk, d1: Disk, own: Owners, own1: Owners, i: nat, dp: nat, ents: seq<Dirent>,
                     kind: nat)
    requires FilesOk(l, d, own) && FilesOk(l, d1, own1) && |own1| <= |own| + if kind == T_DIR then 1 else 0
    requires OtherInodes(d, d1, i) && i != dp && dp < l.ninodes
    ensures AllLive(ents) && NoBlockFor(l, d1, dp, ents) ==> Shortage(l, d, dp, ents, kind)
  {
    AllOwned(l, d, own);
    AllOwned(l, d1, own1);
    hide FreeBlocks, FullDisk, NoInode, AllLive, Owned, Mapped, FullPrice;
  }

  predicate NoInode(d: Disk) { forall i :: 0 < i < |d.ino| ==> d.ino[i].kind != 0 }

  // The second half of create: a new inode.
  method CreateNew(fs: FileSystem, dp: nat, name: Name, kind: nat, busy: set<nat>) returns (inum: nat, ghost k: nat)
    requires NsOk(fs.l, fs.d, fs.own, busy) && 0 < dp < fs.l.ninodes && fs.d.ino[dp].kind == T_DIR && NameOk(name)
    requires kind in {T_DIR, T_FILE, T_DEVICE}
    modifies fs
    ensures DiskOk(fs.l, fs.d, fs.own)
    ensures var t := TreeOf(fs.l, old(fs.d));
            if inum == 0 then LinkInv(TreeOf(fs.l, fs.d)) && Released(t, TreeOf(fs.l, fs.d), busy)
            else CanCreate(t, inum, kind, dp, k, name) && Made(t, TreeOf(fs.l, fs.d), inum, kind, dp, k, name, busy)
    ensures var ents := TreeOf(fs.l, old(fs.d))[dp].ents;
            inum == 0 ==> HasName(ents, name) || Shortage(fs.l, old(fs.d), dp, ents, kind)
    ensures inum == 0 ==> NotStranded(TreeOf(fs.l, fs.d), dp, busy)
    ensures Careful(fs.l, old(Now(fs)), Now(fs)) && (OneBitmap(fs.l) ==> LogsAtMost(old(fs.logged), fs.logged, 9))
  {
    hide Owned, Mapped, Bytes, Ents, HasName, TreeOf, NodeOf, LinkInv, Released, Made, PutTree, Free,
        LinkCounts.Create, NoInode, AllLive, Logs, LogsAtMost, Careful, Calm, FullDisk, NoRoom, Shortage,
        NoBlockFor, FreeBlocks, OtherInodes, Spent, NotStranded;
    k := 0;
    ghost var s0 := Now(fs);
    ghost var t := TreeOf(fs.l, fs.d);
    KindOf(fs.l, fs.d, dp);
    NothingReleased(t, busy);
    PutReleases(t, t, dp, busy);
    var ok;
    ghost var ents;
    inum, ok, ents := NewInode(fs, kind, dp);
    ghost var s1, bm, ib, db := Now(fs), fs.l.bmapstart, IBlock(fs.l, inum), IBlock(fs.l, dp);
    ghost var known, own1 := {bm, ib, db}, fs.own;
    LogsWider(fs.l, s0, s1, {bm, ib}, 4, known, 4);
    ShortOfNew(fs.l, old(fs.d), dp, t[dp].ents, kind, inum == 0);
    if inum == 0 {
      PutSettles(TreeOf(fs.l, fs.d), dp, busy);
      Iput(fs, dp, busy);
      LogsMore(fs.l, s0, s1, Now(fs), known, 4, {bm, db}, 0);
      NineLogged(fs.l, s0, Now(fs), bm, ib, db, 4);
      return 0, 0;
    }
    KindOf(fs.l, old(fs.d), inum);
    KindOf(fs.l, fs.d, dp);
    UndoTree(t, inum, kind, ents, busy);
    var r := -1;
    LogsWider(fs.l, s0, s1, known, 4, known, 6);
    if ok {
      r, k := Enter(fs, dp, name, inum);
      ShortOfPlace(fs.l, old(fs.d), s1.d, old(fs.own), own1, inum, dp, t[dp].ents, kind);
      LogsMore(fs.l, s0, s1, Now(fs), known, 4, {bm, db}, 2);
    }
    s1 := Now(fs);
    KindOf(fs.l, fs.d, dp);
    KindOf(fs.l, fs.d, inum);
    if r == 0 {
      CreateDone(t, inum, kind, dp, k, name, busy);
      CreateTree(t, inum, kind, ents, dp, k, name);
      CreateFinish(fs, dp, kind, busy);
      LogsMore(fs.l, s0, s1, Now(fs), known, 6, {bm, db}, 0);
      NineLogged(fs.l, s0, Now(fs), bm, ib, db, 6);
      return inum, k;
    }
    PutSettles(PutTree(SetLink(TreeOf(fs.l, fs.d), inum, 0), inum, busy), dp, busy);
    CreateFail(fs, inum, dp, busy);
    LogsMore(fs.l, s0, s1, Now(fs), known, 6, known, 0);
    NineLogged(fs.l, s0, Now(fs), bm, ib, db, 6);
    return 0, 0;
  }

  // A new inode was entered in dp; the invariant survives if and only if dp is still linked
  // and its count fits a short.
  ghost predicate Made(t: Tree, t': Tree, i: nat, kind: nat, dp: nat, k: nat, name: Name, busy: set<nat>)
    requires CanCreate(t, i, kind, dp, k, name)
  {
    && t' == PutTree(LinkCounts.Create(t, i, kind, dp, k, name), dp, busy)
    && (LinkInv(t') <==> t[dp].nlink > 0 && (kind == T_DIR ==> t[dp].nlink < MAXLINK))
  }

  lemma MadeIff(t: Tree, t': Tree, i: nat, kind: nat, dp: nat, k: nat, name: Name, busy: set<nat>)
    requires CanCreate(t, i, kind, dp, k, name) && Made(t, t', i, kind, dp, k, name, busy) && t[dp].nlink < MAXLINK
    ensures LinkInv(t') <==> t[dp].nlink > 0
  {
  }

  lemma FreeNode(l: Layout, d: Disk, own: Owners, i: nat)
    requires DiskOk(l, d, own) && LinkInv(TreeOf(l, d)) && 0 < i < l.ninodes && d.ino[i].kind == 0
    ensures TreeOf(l, d)[i] == Node(0, 0, [])
  {
    hide Owned, Mapped, Bytes, Ents;
    assert NodeOk(TreeOf(l, d), i);
  }

  lemma CreateDone(t: Tree, i: nat, kind: nat, dp: nat, k: nat, name: Name, busy: set<nat>)
    requires CanCreate(t, i, kind, dp, k, name)
    ensures Made(t, PutTree(LinkCounts.Create(t, i, kind, dp, k, name), dp, busy), i, kind, dp, k, name, busy)
  {
    hide HasName, Distinct, Shaped;
    CreateKeepsIff(t, i, kind, dp, k, name);
    assert NodeOk(t, dp) && NodeOk(t, i);
    var t0 := LinkCounts.Create(t, i, kind, dp, k, name);
    if t0[dp].nlink == 0 && dp !in busy {
      CreateUnseen(t, i, kind, dp, k, name);
      FreeRefs(t0, dp, i);
      assert !Counted(Free(t0, dp), i);
    }
  }

  lemma CreateUnseen(t: Tree, i: nat, kind: nat, dp: nat, k: nat, name: Name)
    requires CanCreate(t, i, kind, dp, k, name) && LinkCounts.Create(t, i, kind, dp, k, name)[dp].nlink == 0
    ensures kind != T_DIR && t[dp].nlink == 0 && Refs(LinkCounts.Create(t, i, kind, dp, k, name), i) == {}
  {
    hide HasName, Distinct, Shaped;
    assert NodeOk(t, dp) && NodeOk(t, i);
    var t' := LinkCounts.Create(t, i, kind, dp, k, name);
    forall d: nat, m: nat ensures !IsRef(t', d, m, i) { NoRefs(t, i, d, m); }
    assert forall p :: p !in Refs(t', i);
  }

  // The name leads to a freed inode.
  ghost predicate Stale(t: Tree, dp: nat, name: Name)
    requires dp < |t|
  {
    exists k :: 0 <= k < |t[dp].ents| && StaleAt(t, t[dp].ents[k], name)
  }

  predicate StaleAt(t: Tree, e: Dirent, name: Name) { Live(e) && e.name == name && e.inum < |t| && t[e.inum].kind == 0 }

  lemma StaleIff(t: Tree, dp: nat, at: nat, name: Name)
    requires LinkInv(t) && dp < |t| && t[dp].kind == T_DIR && at < |t[dp].ents| && Live(t[dp].ents[at])
             && t[dp].ents[at].name == name
    ensures t[dp].ents[at].inum < |t| && (Stale(t, dp, name) <==> t[t[dp].ents[at].inum].kind == 0)
  {
    assert NodeOk(t, dp);
    assert StaleAt(t, t[dp].ents[at], name) <==> t[t[dp].ents[at].inum].kind == 0;
  }

  lemma NotStale(t: Tree, dp: nat, name: Name)
    requires dp < |t| && !HasName(t[dp].ents, name)
    ensures !Stale(t, dp, name)
  {
  }

  // No directory is large enough for mkdir to exhaust its link count.
  lemma DirLinksFit(l: Layout, d: Disk, own: Owners, dp: nat)
    requires DiskOk(l, d, own) && LinkInv(TreeOf(l, d)) && dp < l.ninodes && d.ino[dp].kind == T_DIR
    ensures |TreeOf(l, d)[dp].ents| <= MAXENTS && TreeOf(l, d)[dp].nlink < MAXENTS < MAXLINK
  {
    hide Owned, LinkInv, Ents;
    KindOf(l, d, dp);
    DirLinksBounded(TreeOf(l, d), dp);
    assert Mapped(d, dp);
  }

  // The panic can happen: the calls that lead to Orphaned all keep the invariant.
  lemma PanicReached()
    ensures LinkInv(Orphaned()) && |Orphaned()| == 4 && Orphaned()[3].kind == T_DIR && Stale(Orphaned(), 3, DOTDOT)
  {
    hide LinkInv, Orphaned;
    OrphanReached();
    assert StaleAt(Orphaned(), Orphaned()[3].ents[1], DOTDOT);
  }

  // Entry k has the name; what it names is returned if it is a file or a device opened as a file.
  predicate Opened(t: Tree, dp: nat, k: nat, name: Name, kind: nat, inum: nat) {
    && dp < |t| && k < |t[dp].ents| && Live(t[dp].ents[k]) && t[dp].ents[k].name == name && t[dp].ents[k].inum < |t|
    && inum == if kind == T_FILE && t[t[dp].ents[k].inum].kind in {T_FILE, T_DEVICE} then t[dp].ents[k].inum else 0
  }

  // create.  inum is 0 on failure, an existing file, or a new inode entered in dp at place k.
  method Create(fs: FileSystem, dp: nat, name: Name, kind: nat, busy: set<nat>)
    returns (inum: nat, isnew: bool, panic: bool, ghost k: nat)
    requires NsOk(fs.l, fs.d, fs.own, busy) && Resolved(TreeOf(fs.l, fs.d), dp) && NameOk(name)
             && kind in {T_DIR, T_FILE, T_DEVICE}
    modifies fs
    ensures DiskOk(fs.l, fs.d, fs.own)
    ensures var t := TreeOf(fs.l, old(fs.d));
            && (isnew ==> dp != 0 && !HasName(t[dp].ents, name) && CanCreate(t, inum, kind, dp, k, name)
                          && Made(t, TreeOf(fs.l, fs.d), inum, kind, dp, k, name, busy)
                          && (LinkInv(TreeOf(fs.l, fs.d)) <==> t[dp].nlink > 0))
            && (!isnew ==> LinkInv(TreeOf(fs.l, fs.d)) && Released(t, TreeOf(fs.l, fs.d), busy))
            && (dp != 0 && HasName(t[dp].ents, name) ==> !isnew && exists k :: Opened(t, dp, k, name, kind, inum))
            && (!isnew && inum != 0 ==> dp != 0 && HasName(t[dp].ents, name))
            && (inum == 0 && dp != 0 && !HasName(t[dp].ents, name) ==> Shortage(fs.l, old(fs.d), dp, t[dp].ents, kind))
            && (panic <==> dp != 0 && Stale(t, dp, name))
            && (panic ==> t[dp].nlink == 0 && name == DOTDOT)
    ensures !isnew && dp != 0 ==> NotStranded(TreeOf(fs.l, fs.d), dp, busy)
    ensures Careful(fs.l, old(Now(fs)), Now(fs)) && (OneBitmap(fs.l) ==> LogsAtMost(old(fs.logged), fs.logged, 9))
  {
    hide Owned, Mapped, Bytes, Ents, HasName, TreeOf, NodeOf, LinkInv, Released, Made, Logs, LogsAtMost, Careful, Calm,
        Shortage;
    ghost var s0 := Now(fs);
    LogsNothing(fs.l, s0, {0, 0, 0});
    NineLogged(fs.l, s0, s0, 0, 0, 0, 0);
    k, isnew, inum, panic := 0, false, 0, false;
    ghost var t := TreeOf(fs.l, fs.d);
    NothingReleased(t, busy);
    if dp == 0 { return; }
    KindOf(fs.l, fs.d, dp);
    var found, at, ip := DirLookup(fs, dp, name);
    if found {
      StaleOnlyDotDot(t, dp, at);
      StaleIff(t, dp, at, name);
      assert at == 1 ==> t[dp].ents[1].name == DOTDOT by { SecondIsDotDot(t, dp); }
      inum, panic := OpenExisting(fs, dp, at, ip, kind, busy);
      assert Opened(t, dp, at, name, kind, inum);
      NineLogged(fs.l, s0, Now(fs), fs.l.bmapstart, IBlock(fs.l, ip), IBlock(fs.l, dp), 0);
      return;
    }
    NotStale(t, dp, name);
    DirLinksFit(fs.l, fs.d, fs.own, dp);
    inum, k := CreateNew(fs, dp, name, kind, busy);
    isnew := inum != 0;
    if isnew { MadeIff(t, TreeOf(fs.l, fs.d), inum, kind, dp, k, name, busy); }
  }

  lemma SecondIsDotDot(t: Tree, dp: nat)
    requires LinkInv(t) && dp < |t| && t[dp].kind == T_DIR
    ensures |t[dp].ents| >= 2 && t[dp].ents[1].name == DOTDOT
  {
    assert NodeOk(t, dp);
  }

  // ---------------------------------------------------------------- runs

  // A system call with its resolved inodes, made while the inodes in held have other users.
  datatype Syscall = Syscall(call: NameCall, name: Name, held: set<nat>)
  datatype NameCall = CallLink(ip: nat, dp: nat) | CallUnlink(dp: nat) | CallCreate(dp: nat, kind: nat)

  predicate SyscallOk(c: Syscall) {
    NameOk(c.name) && (c.call.CallCreate? ==> c.call.kind in {T_DIR, T_FILE, T_DEVICE})
  }

  // What namei and nameiparent can return: an inode in use, a directory, or nothing.
  function InodeAt(d: Disk, i: nat): nat { if i < |d.ino| && d.ino[i].kind != 0 then i else 0 }

  function DirAt(d: Disk, i: nat): nat { if i < |d.ino| && d.ino[i].kind == T_DIR then i else 0 }

  function Held(d: Disk, s: set<nat>): set<nat> { set i | i in s && 0 < i < |d.ino| && d.ino[i].kind != 0 }

  // The calls that may break the link counts: those that name something in a removed
  // directory, and a link that pushes a count past the largest short.
  predicate Hazard(d: Disk, c: Syscall) {
    var dp := DirAt(d, c.call.dp);
    !c.call.CallUnlink? && dp != 0 && dp < |d.ino|
    && (|| d.ino[dp].nlink == 0
        || (c.call.CallLink? && InodeAt(d, c.call.ip) < |d.ino| && d.ino[InodeAt(d, c.call.ip)].nlink == MAXLINK))
  }

  // ---------------------------------------------------------------- what a call does

  datatype Reply = LinkReply(r: int) | UnlinkReply(r: int, panic: bool)
      | CreateReply(inum: nat, isnew: bool, panic: bool)

  predicate Panicked(r: Reply) {
    match r
    case LinkReply(_) => false
    case UnlinkReply(_, panic) => panic
    case CreateReply(_, _, panic) => panic
  }

  ghost predicate LinkedAt(t: Tree, t': Tree, ip: nat, dp: nat, k: nat, name: Name, busy: set<nat>) {
    CanEnter(t, dp, k, name) && ip < |t| && t' == PutTree(LinkCounts.Link(t, ip, dp, k, name), dp, busy)
  }

  // sys_link added one name and one link, or changed nothing for a reason.
  ghost predicate LinkDid(l: Layout, t: Tree, t': Tree, d: Disk, d': Disk, ip: nat, dp: nat, name: Name,
                          busy: set<nat>, r: int)
    requires ip < |t| && dp < |t| == |d'.ino| && Shape(l, d) && |t| == l.ninodes
  {
    && r in {0, -1}
    && (r == 0 ==> ip != 0 && dp != 0 && t[ip].kind != T_DIR && exists k :: LinkedAt(t, t', ip, dp, k, name, busy))
    && (r == -1 ==>
          && Released(t, t', busy) && (ip != 0 ==> NotStranded(t', ip, busy))
          && (|| ip == 0 || dp == 0 || t[ip].kind == T_DIR || HasName(t[dp].ents, name)
              || (AllLive(t[dp].ents) && NoBlockFor(l, d, dp, t[dp].ents)
                  && (t[dp].nlink > 0 && t[ip].nlink > 0 ==> NoRoom(l, d', dp)))))
  }

  ghost predicate UnlinkedAt(t: Tree, t': Tree, dp: nat, k: nat, name: Name, busy: set<nat>) {
    && CanUnlink(t, dp, k) && t[dp].ents[k].name == name
    && t' == PutTree(LinkCounts.Unlink(t, dp, k), t[dp].ents[k].inum, busy)
  }

  // sys_unlink removed one name, or refused to.
  ghost predicate UnlinkDid(t: Tree, t': Tree, dp: nat, name: Name, busy: set<nat>, r: int)
    requires dp < |t|
  {
    && r in {0, -1} && (r == 0 ==> dp != 0 && exists k :: UnlinkedAt(t, t', dp, k, name, busy))
    && (r == -1 ==> Released(t, t', busy) && (dp != 0 ==> Refused(t, dp, name) && NotStranded(t', dp, busy)))
  }

  ghost predicate CreatedAt(t: Tree, t': Tree, i: nat, kind: nat, dp: nat, k: nat, name: Name, busy: set<nat>) {
    CanCreate(t, i, kind, dp, k, name) && t' == PutTree(LinkCounts.Create(t, i, kind, dp, k, name), dp, busy)
  }

  // create made an inode and its name, found the name, or was short of something.
  ghost predicate CreateDid(l: Layout, t: Tree, t': Tree, d: Disk, dp: nat, name: Name, kind: nat, busy: set<nat>,
                            inum: nat, isnew: bool, panic: bool)
    requires dp < |t| == l.ninodes && Shape(l, d)
  {
    && (isnew ==> dp != 0 && exists k :: CreatedAt(t, t', inum, kind, dp, k, name, busy))
    && (!isnew ==> Released(t, t', busy) && (dp != 0 ==> NotStranded(t', dp, busy)))
    && (dp != 0 && HasName(t[dp].ents, name) ==> !isnew && exists k :: Opened(t, dp, k, name, kind, inum))
    && (!isnew && dp != 0 && !HasName(t[dp].ents, name) ==> inum == 0 && Shortage(l, d, dp, t[dp].ents, kind))
    && (dp == 0 ==> inum == 0)
    && (panic <==> dp != 0 && Stale(t, dp, name))
  }

  // Call c took the disk from d to d' and was answered r.
  ghost predicate CallDid(l: Layout, d: Disk, c: Syscall, r: Reply, d': Disk) {
    && Shape(l, d) && Shape(l, d') && l.ninodes > 0
    && var t, t', dp, busy := TreeOf(l, d), TreeOf(l, d'), DirAt(d, c.call.dp), Held(d, c.held);
       match c.call
       case CallLink(i, _) => r.LinkReply? && LinkDid(l, t, t', d, d', InodeAt(d, i), dp, c.name, busy, r.r)
       case CallUnlink(_) => r.UnlinkReply? && !r.panic && UnlinkDid(t, t', dp, c.name, busy, r.r)
       case CallCreate(_, kind) =>
         r.CreateReply? && CreateDid(l, t, t', d, dp, c.name, kind, busy, r.inum, r.isnew, r.panic)
  }

  // Inodes that are in use are not freed.
  ghost predicate HeldStay(d: Disk, d': Disk, held: set<nat>) {
    forall j :: j in Held(d, held) ==> j < |d'.ino| && d'.ino[j].kind == d.ino[j].kind
  }

  // Everything that changed is in s, at most nine blocks; files keep their bytes or are freed, and
  // inodes in use are not freed.
  ghost predicate Settled(l: Layout, d: Disk, d': Disk, s: set<nat>, held: set<nat>) {
    Noted(l, d, d', {}, s, {}, {}) && (OneBitmap(l) ==> |s| <= 9) && FilesKept(l, d, d') && HeldStay(d, d', held)
  }

  lemma IsSettled(l: Layout, a: Snap, b: Snap, held: set<nat>, n: nat)
    requires Careful(l, a, b) && (OneBitmap(l) ==> LogsAtMost(a.s, b.s, n)) && n <= 9 && a.s == {}
    requires Shape(l, a.d) && Shape(l, b.d) && HeldKept(TreeOf(l, a.d), TreeOf(l, b.d), Held(a.d, held))
    ensures Settled(l, a.d, b.d, b.s, held)
  {
    hide Noted, FilesKept, TreeOf, HeldKept;
    assert b.s - {} == b.s;
    HeldOnDisk(l, a.d, b.d, Held(a.d, held));
  }

  // One call.  It panics only as a hazard, and otherwise keeps the link counts right.
  method Perform(fs: FileSystem, c: Syscall) returns (r: Reply)
    requires DiskOk(fs.l, fs.d, fs.own) && LinkInv(TreeOf(fs.l, fs.d)) && SyscallOk(c)
    modifies fs
    ensures DiskOk(fs.l, fs.d, fs.own) && CallDid(fs.l, old(fs.d), c, r, fs.d)
    ensures !Hazard(old(fs.d), c) ==> LinkInv(TreeOf(fs.l, fs.d)) && !Panicked(r)
    ensures Settled(fs.l, old(fs.d), fs.d, fs.logged, c.held)
  {
    hide Owned, TreeOf, LinkInv, LinkDid, UnlinkDid, CreateDid, Settled;
    RootThere(TreeOf(fs.l, fs.d));
    match c.call
    case CallLink(i, _) =>
      var res := PerformLink(fs, c, InodeAt(fs.d, i));
      r := LinkReply(res);
    case CallUnlink(_) =>
      var res, panic := PerformUnlink(fs, c);
      r := UnlinkReply(res, panic);
    case CallCreate(_, kind) =>
      var inum, isnew, panic := PerformCreate(fs, c, kind);
      r := CreateReply(inum, isnew, panic);
  }

  method PerformLink(fs: FileSystem, c: Syscall, ip: nat) returns (r: int)
    requires DiskOk(fs.l, fs.d, fs.own) && LinkInv(TreeOf(fs.l, fs.d)) && NameOk(c.name)
             && c.call.CallLink? && ip == InodeAt(fs.d, c.call.ip)
    modifies fs
    ensures DiskOk(fs.l, fs.d, fs.own)
    ensures ip < fs.l.ninodes && DirAt(old(fs.d), c.call.dp) < fs.l.ninodes
            && LinkDid(fs.l, TreeOf(fs.l, old(fs.d)), TreeOf(fs.l, fs.d), old(fs.d), fs.d, ip,
                       DirAt(old(fs.d), c.call.dp), c.name, Held(old(fs.d), c.held), r)
    ensures !Hazard(old(fs.d), c) ==> LinkInv(TreeOf(fs.l, fs.d))
    ensures Settled(fs.l, old(fs.d), fs.d, fs.logged, c.held)
  {
    hide Owned, Mapped, Bytes, Ents, HasName, TreeOf, NodeOf, LinkInv, Released, LinkCounts.Link, PutTree, HeldKept,
        Careful, LogsAtMost, NoRoom, NoBlockFor, AllLive, Settled, CanEnter;
    fs.logged := {};
    var dp, busy := DirAt(fs.d, c.call.dp), Held(fs.d, c.held);
    ghost var t, s0 := TreeOf(fs.l, fs.d), Now(fs);
    RootThere(t);
    KindOf(fs.l, fs.d, dp);
    KindOf(fs.l, fs.d, ip);
    BoundedLinks(t, ip);
    BoundedLinks(t, dp);
    ghost var k;
    r, k := Link(fs, ip, dp, c.name, busy);
    if r == 0 {
      LinkHolds(t, ip, dp, k, c.name, busy);
      assert LinkedAt(t, TreeOf(fs.l, fs.d), ip, dp, k, c.name, busy);
    } else {
      ReleaseHolds(t, TreeOf(fs.l, fs.d), busy);
    }
    IsSettled(fs.l, s0, Now(fs), c.held, 5);
  }

  method PerformUnlink(fs: FileSystem, c: Syscall) returns (r: int, panic: bool)
    requires DiskOk(fs.l, fs.d, fs.own) && LinkInv(TreeOf(fs.l, fs.d)) && NameOk(c.name)
    modifies fs
    ensures DiskOk(fs.l, fs.d, fs.own) && LinkInv(TreeOf(fs.l, fs.d)) && !panic
    ensures DirAt(old(fs.d), c.call.dp) < fs.l.ninodes
            && UnlinkDid(TreeOf(fs.l, old(fs.d)), TreeOf(fs.l, fs.d), DirAt(old(fs.d), c.call.dp), c.name,
                         Held(old(fs.d), c.held), r)
    ensures Settled(fs.l, old(fs.d), fs.d, fs.logged, c.held)
  {
    hide Owned, Mapped, Bytes, Ents, HasName, TreeOf, NodeOf, LinkInv, Released, LinkCounts.Unlink, PutTree, HeldKept,
        Careful, LogsAtMost, Settled, CanUnlink, Refused;
    fs.logged := {};
    var dp, busy := DirAt(fs.d, c.call.dp), Held(fs.d, c.held);
    ghost var t, s0 := TreeOf(fs.l, fs.d), Now(fs);
    RootThere(t);
    KindOf(fs.l, fs.d, dp);
    ghost var k;
    r, panic, k := Unlink(fs, dp, c.name, busy);
    if r == 0 {
      UnlinkHolds(t, dp, k, busy);
      assert UnlinkedAt(t, TreeOf(fs.l, fs.d), dp, k, c.name, busy);
    } else {
      ReleaseHolds(t, TreeOf(fs.l, fs.d), busy);
    }
    IsSettled(fs.l, s0, Now(fs), c.held, 5);
  }

  method PerformCreate(fs: FileSystem, c: Syscall, kind: nat) returns (inum: nat, isnew: bool, panic: bool)
    requires DiskOk(fs.l, fs.d, fs.own) && LinkInv(TreeOf(fs.l, fs.d)) && NameOk(c.name)
             && c.call.CallCreate? && kind in {T_DIR, T_FILE, T_DEVICE}
    modifies fs
    ensures DiskOk(fs.l, fs.d, fs.own)
    ensures DirAt(old(fs.d), c.call.dp) < fs.l.ninodes
            && CreateDid(fs.l, TreeOf(fs.l, old(fs.d)), TreeOf(fs.l, fs.d), old(fs.d), DirAt(old(fs.d), c.call.dp),
                         c.name, kind, Held(old(fs.d), c.held), inum, isnew, panic)
    ensures !Hazard(old(fs.d), c) ==> LinkInv(TreeOf(fs.l, fs.d)) && !panic
    ensures Settled(fs.l, old(fs.d), fs.d, fs.logged, c.held)
  {
    hide Owned, Mapped, Bytes, Ents, HasName, TreeOf, NodeOf, LinkInv, Released, LinkCounts.Create, PutTree, HeldKept,
        Careful, LogsAtMost, Settled, Shortage, Stale, Opened;
    fs.logged := {};
    var dp, busy := DirAt(fs.d, c.call.dp), Held(fs.d, c.held);
    ghost var t, s0 := TreeOf(fs.l, fs.d), Now(fs);
    RootThere(t);
    KindOf(fs.l, fs.d, dp);
    BoundedLinks(t, dp);
    ghost var k;
    inum, isnew, panic, k := Create(fs, dp, c.name, kind, busy);
    if isnew {
      KindOf(fs.l, old(fs.d), inum);
      CreateHolds(t, TreeOf(fs.l, fs.d), inum, kind, dp, k, c.name, busy);
      assert CreatedAt(t, TreeOf(fs.l, fs.d), inum, kind, dp, k, c.name, busy);
    } else {
      ReleaseHolds(t, TreeOf(fs.l, fs.d), busy);
    }
    IsSettled(fs.l, s0, Now(fs), c.held, 9);
  }

  // The inodes in busy are of the kind that they were.
  ghost predicate HeldKept(t: Tree, t': Tree, busy: set<nat>) {
    |t'| == |t| && forall j :: j in busy && j < |t| ==> t'[j].kind == t[j].kind
  }

  lemma HeldOnDisk(l: Layout, d: Disk, d': Disk, busy: set<nat>)
    requires Shape(l, d) && Shape(l, d') && HeldKept(TreeOf(l, d), TreeOf(l, d'), busy)
             && forall j :: j in busy ==> j < l.ninodes
    ensures forall j :: j in busy ==> d'.ino[j].kind == d.ino[j].kind
  {
    forall j | j in busy ensures d'.ino[j].kind == d.ino[j].kind { KindOf(l, d, j); KindOf(l, d', j); }
  }

  lemma ReleaseHolds(t: Tree, t': Tree, busy: set<nat>)
    requires Released(t, t', busy)
    ensures HeldKept(t, t', busy)
  {
  }

  lemma LinkHolds(t: Tree, ip: nat, dp: nat, k: nat, name: Name, busy: set<nat>)
    requires ip < |t| && CanEnter(t, dp, k, name)
    ensures HeldKept(t, PutTree(LinkCounts.Link(t, ip, dp, k, name), dp, busy), busy)
  {
    hide LinkInv, HasName;
  }

  lemma UnlinkHolds(t: Tree, dp: nat, k: nat, busy: set<nat>)
    requires CanUnlink(t, dp, k)
    ensures HeldKept(t, PutTree(LinkCounts.Unlink(t, dp, k), t[dp].ents[k].inum, busy), busy)
  {
    hide LinkInv, Empty;
  }

  lemma CreateHolds(t: Tree, t': Tree, i: nat, kind: nat, dp: nat, k: nat, name: Name, busy: set<nat>)
    requires CanCreate(t, i, kind, dp, k, name) && Made(t, t', i, kind, dp, k, name, busy) && i !in busy
    ensures HeldKept(t, t', busy)
  {
    hide LinkInv, HasName;
  }

  lemma RootThere(t: Tree)
    requires LinkInv(t)
    ensures ROOTINO < |t| && t[0].kind == 0
  {
  }

  lemma BoundedLinks(t: Tree, i: nat)
    requires LinkInv(t) && i < |t|
    ensures 0 <= t[i].nlink <= MAXLINK
  {
    assert NodeOk(t, i);
  }

  // Any number of calls: each is answered and takes the disk from disks[k] to disks[k + 1] as it
  // should, and the counts agree with the directories after each of them, up to the first hazard.
  method Run(fs: FileSystem, calls: seq<Syscall>) returns (done: nat, replies: seq<Reply>, ghost disks: seq<Disk>)
    requires DiskOk(fs.l, fs.d, fs.own) && LinkInv(TreeOf(fs.l, fs.d))
             && forall k :: 0 <= k < |calls| ==> SyscallOk(calls[k])
    modifies fs
    ensures DiskOk(fs.l, fs.d, fs.own)
    ensures done <= |calls| && (done < |calls| ==> Hazard(fs.d, calls[done]))
    ensures |replies| == done && |disks| == done + 1 && disks[0] == old(fs.d) && disks[done] == fs.d
    ensures forall k :: 0 <= k < done ==>
                          CallDid(fs.l, disks[k], calls[k], replies[k], disks[k + 1]) && !Panicked(replies[k])
    ensures forall k :: 0 <= k <= done ==> Shape(fs.l, disks[k]) && LinkInv(TreeOf(fs.l, disks[k]))
  {
    hide Owned, Mapped, Bytes, Ents, TreeOf, LinkInv, Hazard, CallDid, Settled;
    done, replies, disks := 0, [], [fs.d];
    while done < |calls| && !Hazard(fs.d, calls[done])
      invariant DiskOk(fs.l, fs.d, fs.own) && done <= |calls|
      invariant |replies| == done && |disks| == done + 1 && disks[0] == old(fs.d) && disks[done] == fs.d
      invariant forall k :: 0 <= k < done ==>
                              CallDid(fs.l, disks[k], calls[k], replies[k], disks[k + 1]) && !Panicked(replies[k])
      invariant forall k :: 0 <= k <= done ==> Shape(fs.l, disks[k]) && LinkInv(TreeOf(fs.l, disks[k]))
    {
      var r := Perform(fs, calls[done]);
      done, replies, disks := done + 1, replies + [r], disks + [fs.d];
    }
  }
}
