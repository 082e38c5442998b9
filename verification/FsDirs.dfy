/** Directories of kernel/fs.c: a file of 16-byte entries that stands for a finite map from
    names to inode numbers. */
module FsDirs {
  import opened FsBytes
  import opened FsDisk
  import opened FsFiles
  import opened FsReadWrite
  import opened Params

  const DIRSIZ: nat := 14
  const DESIZE: nat := 16

  type Name = seq<byte>

  datatype Dirent = Dirent(inum: nat, name: Name)

  // ---------------------------------------------------------------- names

  // A name field up to its first NUL; all of it if there is none.
  function Key(b: seq<byte>): (r: Name)
    ensures |r| <= |b|
  {
    if b == [] || b[0] == 0 then [] else [b[0]] + Key(b[1..])
  }

  // Names as skipelem leaves them: cut at DIRSIZ, no NUL inside.
  predicate NameOk(n: Name) { |n| <= DIRSIZ && 0 !in n }

  lemma SameHead(s: seq<byte>, t: seq<byte>)
    requires s != [] && t != []
    ensures Key(s) == Key(t) <==> s[0] == t[0] && (s[0] == 0 || Key(s[1..]) == Key(t[1..]))
  {
    assert s[0] != 0 ==> Key(s)[0] == s[0] && Key(s)[1..] == Key(s[1..]);
    assert t[0] != 0 ==> Key(t)[0] == t[0] && Key(t)[1..] == Key(t[1..]);
  }

  // strncmp(s, t, DIRSIZ) == 0, for fields of DIRSIZ bytes.
  method Namecmp(s: seq<byte>, t: seq<byte>) returns (same: bool)
    requires |s| == |t| == DIRSIZ
    ensures same <==> Key(s) == Key(t)
  {
    var i := 0;
    while i < DIRSIZ && s[i] == t[i]
      invariant 0 <= i <= DIRSIZ && (Key(s) == Key(t) <==> Key(s[i..]) == Key(t[i..]))
    {
      SameHead(s[i..], t[i..]);
      if s[i] == 0 { return true; }
      assert s[i..][1..] == s[i + 1..] && t[i..][1..] == t[i + 1..];
      i := i + 1;
    }
    if i < DIRSIZ { SameHead(s[i..], t[i..]); }
    same := i == DIRSIZ;
  }

  // The name field that strncpy writes.
  function Field(n: Name): (r: seq<byte>)
    requires NameOk(n)
    ensures |r| == DIRSIZ
  {
    n + seq(DIRSIZ - |n|, _ => 0)
  }

  lemma {:induction false} KeyOfPadded(n: Name, z: seq<byte>)
    requires 0 !in n && forall k :: 0 <= k < |z| ==> z[k] == 0
    ensures Key(n + z) == n
  {
    if n != [] {
      assert (n + z)[1..] == n[1..] + z;
      KeyOfPadded(n[1..], z);
    }
  }

  // ---------------------------------------------------------------- entries on disk

  // An entry as it lies on the disk.
  function Entry(inum: nat, name: Name): (r: seq<byte>)
    requires inum < 0x1_0000 && NameOk(name)
    ensures |r| == DESIZE
  {
    [inum % 256, inum / 256] + Field(name)
  }

  function Decode(b: seq<byte>): (r: Dirent)
    requires |b| == DESIZE
  {
    Dirent(b[0] as int + 256 * b[1] as int, Key(b[2..]))
  }

  lemma DecodeEntry(inum: nat, name: Name)
    requires inum < 0x1_0000 && NameOk(name)
    ensures Decode(Entry(inum, name)) == Dirent(inum, name)
  {
    assert Entry(inum, name)[2..] == Field(name);
    KeyOfPadded(name, seq(DIRSIZ - |name|, _ => 0));
  }

  // The entries of a directory file.
  ghost function Ents(f: seq<byte>): (r: seq<Dirent>)
    ensures |r| == |f| / DESIZE
    ensures forall k :: 0 <= k < |r| ==> r[k] == Decode(f[DESIZE * k..DESIZE * k + DESIZE])
  {
    seq(|f| / DESIZE, k requires 0 <= k < |f| / DESIZE => Decode(f[DESIZE * k..DESIZE * k + DESIZE]))
  }

  // Entry k of ents becomes e; k may be one past the end.
  function Put(ents: seq<Dirent>, k: nat, e: Dirent): (r: seq<Dirent>)
    requires k <= |ents|
    ensures |r| == if k == |ents| then k + 1 else |ents|
    ensures forall j :: 0 <= j < |r| ==> r[j] == if j == k then e else ents[j]
  {
    if k == |ents| then ents + [e] else ents[k := e]
  }

  // Writing one entry in place changes that entry alone.
  lemma EntsOfPatch(f: seq<byte>, k: nat, inum: nat, name: Name)
    requires |f| % DESIZE == 0 && DESIZE * k <= |f| && inum < 0x1_0000 && NameOk(name)
    ensures var g := Patch(f, DESIZE * k, Entry(inum, name));
            |g| % DESIZE == 0 && Ents(g) == Put(Ents(f), k, Dirent(inum, name))
  {
    hide Decode;
    var g := Patch(f, DESIZE * k, Entry(inum, name));
    forall j | 0 <= j < |Ents(g)| ensures Ents(g)[j] == Put(Ents(f), k, Dirent(inum, name))[j] {
      var x := g[DESIZE * j..DESIZE * j + DESIZE];
      if j == k {
        assert x == Entry(inum, name);
        DecodeEntry(inum, name);
      } else {
        assert x == f[DESIZE * j..DESIZE * j + DESIZE];
      }
    }
  }

  // ---------------------------------------------------------------- a directory as a map

  predicate Live(e: Dirent) { e.inum != 0 }

  // No two live entries have the same name.
  ghost predicate Distinct(ents: seq<Dirent>) {
    forall j, k :: 0 <= j < k < |ents| && Live(ents[j]) && Live(ents[k]) ==> ents[j].name != ents[k].name
  }

  ghost predicate HasName(ents: seq<Dirent>, name: Name) {
    exists k :: 0 <= k < |ents| && Live(ents[k]) && ents[k].name == name
  }

  // The map that a directory stands for.
  ghost function AsMap(ents: seq<Dirent>): (m: map<Name, nat>)
    ensures Distinct(ents) ==> forall k :: 0 <= k < |ents| && Live(ents[k]) ==>
                                             ents[k].name in m && m[ents[k].name] == ents[k].inum
    ensures forall n :: n in m <==> HasName(ents, n)
  {
    if ents == [] then map[]
    else
      var last := |ents| - 1;
      var m := AsMap(ents[..last]);
      assert ents == ents[..last] + [ents[last]];
      if Live(ents[last]) then m[ents[last].name := ents[last].inum] else m
  }

  // dirlink adds one binding.
  lemma LinkIsInsert(ents: seq<Dirent>, k: nat, inum: nat, name: Name)
    requires Distinct(ents) && !HasName(ents, name) && inum != 0 && k <= |ents| && (k < |ents| ==> !Live(ents[k]))
    ensures Distinct(Put(ents, k, Dirent(inum, name)))
    ensures AsMap(Put(ents, k, Dirent(inum, name))) == AsMap(ents)[name := inum]
  {
    hide AsMap;
    var r := Put(ents, k, Dirent(inum, name));
    assert Distinct(r);
    forall n ensures n in AsMap(ents)[name := inum] <==> HasName(r, n) { EnteredName(ents, k, inum, name, n); }
    SameMap(r, AsMap(ents)[name := inum]);
  }

  lemma EnteredName(ents: seq<Dirent>, k: nat, inum: nat, name: Name, n: Name)
    requires inum != 0 && k <= |ents| && (k < |ents| ==> !Live(ents[k]))
    ensures HasName(Put(ents, k, Dirent(inum, name)), n) <==> HasName(ents, n) || n == name
  {
    var r := Put(ents, k, Dirent(inum, name));
    assert Live(r[k]) && r[k].name == name;
    if HasName(ents, n) {
      var j :| 0 <= j < |ents| && Live(ents[j]) && ents[j].name == n;
      assert Live(r[j]) && r[j].name == n;
    }
  }

  lemma SameMap(r: seq<Dirent>, m: map<Name, nat>)
    requires Distinct(r) && (forall n :: n in m <==> HasName(r, n))
    requires forall k :: 0 <= k < |r| && Live(r[k]) && r[k].name in m ==> m[r[k].name] == r[k].inum
    ensures AsMap(r) == m
  {
    forall n | n in m ensures AsMap(r)[n] == m[n] {
      var k :| 0 <= k < |r| && Live(r[k]) && r[k].name == n;
    }
  }

  // unlink removes one binding.
  lemma ClearIsRemove(ents: seq<Dirent>, k: nat)
    requires Distinct(ents) && k < |ents| && Live(ents[k])
    ensures Distinct(Put(ents, k, Dirent(0, [])))
    ensures AsMap(Put(ents, k, Dirent(0, []))) == AsMap(ents) - {ents[k].name}
  {
    var r := Put(ents, k, Dirent(0, []));
    assert Distinct(r);
    var m := AsMap(ents) - {ents[k].name};
    forall n ensures n in m <==> HasName(r, n) { ClearedName(ents, k, n); }
    SameMap(r, m);
  }

  lemma ClearedName(ents: seq<Dirent>, k: nat, n: Name)
    requires Distinct(ents) && k < |ents| && Live(ents[k])
    ensures HasName(Put(ents, k, Dirent(0, [])), n) <==> n != ents[k].name && HasName(ents, n)
  {
    var r := Put(ents, k, Dirent(0, []));
    if HasName(ents, n) && n != ents[k].name {
      var j :| 0 <= j < |ents| && Live(ents[j]) && ents[j].name == n;
      assert Live(r[j]) && r[j].name == n;
    }
    if HasName(r, n) {
      var j :| 0 <= j < |r| && Live(r[j]) && r[j].name == n;
      assert j != k && Live(ents[j]);
    }
  }

  // ---------------------------------------------------------------- reading and writing entries

  // The entries of the directory in inode i.
  ghost function Dir(l: Layout, d: Disk, i: nat): (r: seq<Dirent>)
    requires Shape(l, d) && i < l.ninodes
  {
    Ents(Bytes(l, d, i))
  }

  // The file system is sound and inode i can be read as a directory.
  ghost predicate DirFile(l: Layout, d: Disk, own: Owners, i: nat) {
    FilesOk(l, d, own) && i < l.ninodes && d.ino[i].size % DESIZE == 0
  }

  lemma InDir(l: Layout, d: Disk, own: Owners, i: nat)
    requires DirFile(l, d, own, i)
    ensures |Dir(l, d, i)| == d.ino[i].size / DESIZE && d.ino[i].size <= MAXFILE * BSIZE
  {
    hide Owned;
    assert Mapped(d, i);
  }

  // One round of the loops below: read entry k.
  method ReadEntry(fs: FileSystem, dp: nat, k: nat) returns (b: seq<byte>)
    requires DirFile(fs.l, fs.d, fs.own, dp) && DESIZE * k < fs.d.ino[dp].size
    modifies fs
    ensures fs.d == old(fs.d) && fs.own == old(fs.own) && fs.logged == old(fs.logged)
    ensures |b| == DESIZE && k < |Dir(fs.l, fs.d, dp)| && Decode(b) == Dir(fs.l, fs.d, dp)[k]
  {
    hide Owned, Mapped, Bytes, Decode;
    InDir(fs.l, fs.d, fs.own, dp);
    var r;
    r, b := Readi(fs, dp, DESIZE * k, DESIZE, DESIZE);
  }

  method DirLookup(fs: FileSystem, dp: nat, name: Name) returns (found: bool, k: nat, inum: nat)
    requires DirFile(fs.l, fs.d, fs.own, dp) && NameOk(name)
    modifies fs
    ensures fs.d == old(fs.d) && fs.own == old(fs.own) && fs.logged == old(fs.logged)
    ensures found <==> HasName(Dir(fs.l, fs.d, dp), name)
    ensures found ==> k < |Dir(fs.l, fs.d, dp)| && Dir(fs.l, fs.d, dp)[k] == Dirent(inum, name) && inum != 0
    ensures found ==> forall j :: 0 <= j < k ==> !Live(Dir(fs.l, fs.d, dp)[j]) || Dir(fs.l, fs.d, dp)[j].name != name
  {
    hide Owned, Mapped, Bytes, Ents;
    InDir(fs.l, fs.d, fs.own, dp);
    KeyOfPadded(name, seq(DIRSIZ - |name|, _ => 0));
    k, inum := 0, 0;
    while DESIZE * k < fs.d.ino[dp].size
      invariant fs.d == old(fs.d) && fs.own == old(fs.own) && fs.logged == old(fs.logged) && k <= |Dir(fs.l, fs.d, dp)|
      invariant forall j :: 0 <= j < k ==> !Live(Dir(fs.l, fs.d, dp)[j]) || Dir(fs.l, fs.d, dp)[j].name != name
      decreases fs.d.ino[dp].size - DESIZE * k
    {
      var de := ReadEntry(fs, dp, k);
      inum := de[0] as int + 256 * de[1] as int;
      if inum != 0 {
        var same := Namecmp(Field(name), de[2..]);
        if same { return true, k, inum; }
      }
      k := k + 1;
    }
    found := false;
  }

  // The first free entry, or the end of the directory.
  method FreeEntry(fs: FileSystem, dp: nat) returns (k: nat)
    requires DirFile(fs.l, fs.d, fs.own, dp)
    modifies fs
    ensures fs.d == old(fs.d) && fs.own == old(fs.own) && fs.logged == old(fs.logged)
    ensures k <= |Dir(fs.l, fs.d, dp)| && (k < |Dir(fs.l, fs.d, dp)| ==> !Live(Dir(fs.l, fs.d, dp)[k]))
    ensures forall j :: 0 <= j < k ==> Live(Dir(fs.l, fs.d, dp)[j])
  {
    hide Owned, Mapped, Bytes, Ents;
    InDir(fs.l, fs.d, fs.own, dp);
    k := 0;
    while DESIZE * k < fs.d.ino[dp].size
      invariant fs.d == old(fs.d) && fs.own == old(fs.own) && fs.logged == old(fs.logged) && k <= |Dir(fs.l, fs.d, dp)|
      invariant forall j :: 0 <= j < k ==> Live(Dir(fs.l, fs.d, dp)[j])
      decreases fs.d.ino[dp].size - DESIZE * k
    {
      var de := ReadEntry(fs, dp, k);
      if de[0] as int + 256 * de[1] as int == 0 { return; }
      k := k + 1;
    }
  }

  // The effect of writing entry k of directory dp: only that entry changes.
  ghost predicate Entered(l: Layout, d: Disk, d': Disk, dp: nat, k: nat, e: Dirent)
    requires Shape(l, d) && Shape(l, d') && dp < l.ninodes && k <= |Dir(l, d, dp)|
  {
    && Dir(l, d', dp) == Put(Dir(l, d, dp), k, e) && OthersKept(l, d, d', dp)
    && d'.ino[dp].kind == d.ino[dp].kind && d'.ino[dp].nlink == d.ino[dp].nlink
  }

  // writei of one entry: an entry lies within one block, so it is written whole or not at all.
  method WriteEntry(fs: FileSystem, dp: nat, k: nat, inum: nat, name: Name) returns (ok: bool)
    requires DirFile(fs.l, fs.d, fs.own, dp) && k <= |Dir(fs.l, fs.d, dp)| && inum < 0x1_0000 && NameOk(name)
    modifies fs
    ensures DirFile(fs.l, fs.d, fs.own, dp)
    ensures ok ==> Entered(fs.l, old(fs.d), fs.d, dp, k, Dirent(inum, name))
    ensures !ok ==> Bytes(fs.l, fs.d, dp) == Bytes(fs.l, old(fs.d), dp) && OthersKept(fs.l, old(fs.d), fs.d, dp)
    ensures fs.d.ino[dp].kind == old(fs.d).ino[dp].kind && fs.d.ino[dp].nlink == old(fs.d).ino[dp].nlink
    ensures k < |Dir(fs.l, old(fs.d), dp)| ==> ok
    ensures !ok ==> FullDisk(fs.l, fs.d) || fs.d.ino[dp].size == MAXFILE * BSIZE
    ensures !ok ==> k == |Dir(fs.l, old(fs.d), dp)| && k % 64 == 0 && (k < 64 * NDIRECT ==> fs.d.blk == old(fs.d).blk)
    ensures !ok ==> k <= 64 * MAXFILE && (k < 64 * MAXFILE ==>
                                            |FreeBlocks(fs.l, old(fs.d))| < Price(old(fs.d), dp, k / 64))
    ensures ok ==> Spent(old(fs.d), old(fs.own), fs.own, dp, k / 64, false)
    ensures OneBitmap(fs.l) ==> LogsBut(old(fs.logged), fs.logged, {fs.l.bmapstart, IBlock(fs.l, dp)}, 2)
    ensures Noted(fs.l, old(fs.d), fs.d, old(fs.logged), fs.logged, {}, {})
  {
    hide Owned, Mapped, Bytes, FullDisk, EndBlock, BlockOf, OffsetOf, OthersKept, Ents, Patch, Entry, LogsBut, Noted,
        NoBlock, Tally, Whole, Interrupted, Missed, Spent, Price, FreeBlocks;
    InDir(fs.l, fs.d, fs.own, dp);
    EntryBlock(k);
    NothingLogged(fs.logged, {fs.l.bmapstart, IBlock(fs.l, dp)}, 2);
    OneEntryBlock(DESIZE * k);
    ghost var f := Bytes(fs.l, fs.d, dp);
    ghost var d0, own0 := fs.d, fs.own;
    var e := Entry(inum, name);
    var r;
    ghost var w;
    r, w := Writei(fs, dp, DESIZE * k, e, DESIZE);
    ok := r == DESIZE;
    if r != -1 { EntryTally(fs.l, fs.d, dp, d0.ino[dp].size, DESIZE * k, r, w); }
    if !ok {
      EntryBoundary(fs.l, fs.d, fs.own, dp, k, d0.ino[dp].size, r);
      if r == 0 { TooDear(fs.l, d0, fs.d, own0, fs.own, dp, k / 64); }
    }
    if r == -1 { OthersStay(fs.l, d0, dp); }
    else if ok {
      assert e[..w] == e;
      EntsOfPatch(f, k, inum, name);
    } else {
      EmptyEdit(f, DESIZE * k);
      assert w == 0 && e[..w] == [];
    }
  }

  lemma EntryBlock(k: nat)
    ensures BlockOf(DESIZE * k) == k / 64
  {
    assert DESIZE * k == BSIZE * (k / 64) + DESIZE * (k % 64);
  }

  lemma NothingLogged(s: set<nat>, known: set<nat>, n: nat)
    ensures LogsBut(s, s, known, n)
  {
    assert s - s - known == {};
  }

  // With nothing unreadable, writei writes the entry, or it finds no block.
  lemma EntryTally(l: Layout, d: Disk, dp: nat, size: nat, off: nat, r: nat, w: nat)
    requires off <= size && r <= w && Tally(l, d, dp, size, off, DESIZE, DESIZE, r, w)
             && (r in {0, DESIZE} || OffsetOf(off + r) == 0)
    requires off % DESIZE == 0
    ensures r == w && r in {0, DESIZE} && !Interrupted(d, dp, off, DESIZE, DESIZE, r)
    ensures r == 0 ==> NoBlock(d, dp, off) && FullDisk(l, d)
  {
    hide FullDisk, BlockAt;
    WholeAll(off, DESIZE, DESIZE);
    if r != 0 && r != DESIZE { WholeEntry(off, r); }
  }

  // Only an entry that would begin a block can find no block.
  lemma EntryBoundary(l: Layout, d: Disk, own: Owners, dp: nat, k: nat, size: nat, r: int)
    requires FilesOk(l, d, own) && dp < l.ninodes && DESIZE * k <= size && size % DESIZE == 0
    requires if r == -1 then DESIZE * k + DESIZE > MAXFILE * BSIZE && d.ino[dp].size == size
             else r == 0 && DESIZE * k == size == d.ino[dp].size && NoBlock(d, dp, DESIZE * k)
    ensures k % 64 == 0 && (k < 64 * NDIRECT ==> BlockOf(DESIZE * k) < NDIRECT && r != -1)
    ensures k <= 64 * MAXFILE && (r == -1 ==> k == 64 * MAXFILE)
  {
    hide Owned, Mapped, BlockOf, NoBlock;
    EntryPlace(k);
    MappedBound(l, d, own, dp);
    if r != -1 && k > 0 { LastBlockThere(d, dp, DESIZE * k); }
  }

  // Where entry k lies.
  lemma EntryPlace(k: nat)
    ensures (DESIZE * k) % BSIZE == 0 <==> k % 64 == 0
    ensures k < 64 * NDIRECT ==> BlockOf(DESIZE * k) < NDIRECT
    ensures DESIZE * k == MAXFILE * BSIZE ==> k % 64 == 0
  {
    assert DESIZE * k == BSIZE * (k / 64) + DESIZE * (k % 64);
  }

  lemma MappedBound(l: Layout, d: Disk, own: Owners, i: nat)
    requires FilesOk(l, d, own) && i < l.ninodes
    ensures |d.ino[i].addrs| == NDIRECT + 1 && Mapped(d, i) && d.ino[i].size <= MAXFILE * BSIZE
  {
    hide Owned;
    assert Mapped(d, i);
  }

  lemma LastBlockThere(d: Disk, i: nat, size: nat)
    requires i < |d.ino| && |d.ino[i].addrs| == NDIRECT + 1 && Mapped(d, i) && 0 < size == d.ino[i].size
    ensures size % BSIZE != 0 ==> !NoBlock(d, i, size)
  {
    InFile(d, i, size - 1);
    hide Mapped, Ref;
    assert size % BSIZE != 0 ==> (size - 1) / BSIZE == size / BSIZE;
  }

  // An entry does not cross a block boundary.
  lemma OneEntryBlock(off: nat)
    requires off % DESIZE == 0
    ensures EndBlock(off, DESIZE) - BlockOf(off) == 1
  {
  }

  lemma WholeEntry(off: nat, r: int)
    requires off % DESIZE == 0 && 0 <= r < DESIZE && (r == 0 || OffsetOf(off + r) == 0)
    ensures r == 0
  {
  }

  // Add (name, inum) to directory dp, unless the name is taken or there is no room.
  method DirLink(fs: FileSystem, dp: nat, name: Name, inum: nat) returns (r: int, ghost k: nat)
    requires DirFile(fs.l, fs.d, fs.own, dp) && NameOk(name) && inum < 0x1_0000
    modifies fs
    ensures DirFile(fs.l, fs.d, fs.own, dp) && r in {0, -1}
    ensures HasName(Dir(fs.l, old(fs.d), dp), name) ==> r == -1
    ensures r == 0 ==> k <= |Dir(fs.l, old(fs.d), dp)|
                       && (k < |Dir(fs.l, old(fs.d), dp)| ==> !Live(Dir(fs.l, old(fs.d), dp)[k]))
    ensures r == 0 ==> Entered(fs.l, old(fs.d), fs.d, dp, k, Dirent(inum, name))
    ensures r == -1 ==> Bytes(fs.l, fs.d, dp) == Bytes(fs.l, old(fs.d), dp) && OthersKept(fs.l, old(fs.d), fs.d, dp)
    ensures fs.d.ino[dp].kind == old(fs.d).ino[dp].kind && fs.d.ino[dp].nlink == old(fs.d).ino[dp].nlink
    ensures r == -1 && !HasName(Dir(fs.l, old(fs.d), dp), name) ==>
              && (FullDisk(fs.l, fs.d) || fs.d.ino[dp].size == MAXFILE * BSIZE)
              && (forall j :: 0 <= j < |Dir(fs.l, old(fs.d), dp)| ==> Live(Dir(fs.l, old(fs.d), dp)[j]))
              && |Dir(fs.l, old(fs.d), dp)| % 64 == 0
              && (|Dir(fs.l, old(fs.d), dp)| < 64 * NDIRECT ==> fs.d.blk == old(fs.d).blk)
              && |Dir(fs.l, old(fs.d), dp)| <= 64 * MAXFILE
              && (|Dir(fs.l, old(fs.d), dp)| < 64 * MAXFILE ==>
                    |FreeBlocks(fs.l, old(fs.d))| < Price(old(fs.d), dp, |Dir(fs.l, old(fs.d), dp)| / 64))
    ensures r == 0 ==> Spent(old(fs.d), old(fs.own), fs.own, dp, k / 64, false)
    ensures OneBitmap(fs.l) ==> LogsBut(old(fs.logged), fs.logged, {fs.l.bmapstart, IBlock(fs.l, dp)}, 2)
    ensures Noted(fs.l, old(fs.d), fs.d, old(fs.logged), fs.logged, {}, {})
  {
    hide Owned, Mapped, Bytes, FullDisk, OthersKept, Ents, HasName, Entered, LogsBut, Noted, Spent, Price, FreeBlocks;
    NotedSame(fs.l, fs.d, fs.logged, {}, {});
    OthersStay(fs.l, fs.d, dp);
    NothingLogged(fs.logged, {fs.l.bmapstart, IBlock(fs.l, dp)}, 2);
    k := 0;
    var found, at, old' := DirLookup(fs, dp, name);
    if found { return -1, 0; }
    var slot := FreeEntry(fs, dp);
    k := slot;
    var ok := WriteEntry(fs, dp, slot, inum, name);
    r := if ok then 0 else -1;
  }

  // unlink overwrites entry k with zeroes; there is always a block to write to.
  method ClearEntry(fs: FileSystem, dp: nat, k: nat) returns (panic: bool)
    requires DirFile(fs.l, fs.d, fs.own, dp) && k < |Dir(fs.l, fs.d, dp)|
    modifies fs
    ensures DirFile(fs.l, fs.d, fs.own, dp) && !panic
    ensures Entered(fs.l, old(fs.d), fs.d, dp, k, Dirent(0, []))
    ensures OneBitmap(fs.l) ==> LogsBut(old(fs.logged), fs.logged, {fs.l.bmapstart, IBlock(fs.l, dp)}, 2)
    ensures Noted(fs.l, old(fs.d), fs.d, old(fs.logged), fs.logged, {}, {})
  {
    var ok := WriteEntry(fs, dp, k, 0, []);
    panic := !ok;
  }

  // Is the directory empty except for its first two entries?
  method IsDirEmpty(fs: FileSystem, dp: nat) returns (empty: bool)
    requires DirFile(fs.l, fs.d, fs.own, dp)
    modifies fs
    ensures fs.d == old(fs.d) && fs.own == old(fs.own) && fs.logged == old(fs.logged)
    ensures empty <==> forall j :: 2 <= j < |Dir(fs.l, fs.d, dp)| ==> !Live(Dir(fs.l, fs.d, dp)[j])
  {
    hide Owned, Mapped, Bytes, Ents;
    InDir(fs.l, fs.d, fs.own, dp);
    var k := 2;
    while DESIZE * k < fs.d.ino[dp].size
      invariant fs.d == old(fs.d) && fs.own == old(fs.own) && fs.logged == old(fs.logged)
      invariant 2 <= k && (k == 2 || k <= |Dir(fs.l, fs.d, dp)|)
      invariant forall j :: 2 <= j < k ==> !Live(Dir(fs.l, fs.d, dp)[j])
      decreases fs.d.ino[dp].size - DESIZE * k
    {
      var de := ReadEntry(fs, dp, k);
      if de[0] as int + 256 * de[1] as int != 0 { return false; }
      k := k + 1;
    }
    empty := true;
  }
}
