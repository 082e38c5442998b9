/** The name space of the image that mkfs makes (mkfs/mkfs.c): its link counts are right exactly when
    no file is called ".", and its root directory is a finite map exactly when all names differ. */
module MkfsNames {
  import opened FsBytes
  import opened FsDisk
  import opened FsFiles
  import opened FsReadWrite
  import opened FsDirs
  import opened LinkCounts
  import opened SysFile
  import opened Params
  import Mkfs

  // The entries of the root directory.
  function RootEnts(files: seq<Mkfs.File>): (r: seq<Dirent>)
    ensures |r| == |files| + 2 && r[0] == Dirent(1, DOT) && r[1] == Dirent(1, DOTDOT)
    ensures forall k :: 0 <= k < |files| ==> r[2 + k] == Dirent(2 + k, files[k].name)
  {
    [Dirent(1, DOT), Dirent(1, DOTDOT)] + seq(|files|, k requires 0 <= k < |files| => Dirent(2 + k, files[k].name))
  }

  lemma EntsAppend(f: seq<byte>, g: seq<byte>)
    requires |f| % DESIZE == 0 && |g| % DESIZE == 0
    ensures Ents(f + g) == Ents(f) + Ents(g)
  {
    hide Decode;
    var n := |f| / DESIZE;
    forall k | 0 <= k < |Ents(f + g)| ensures Ents(f + g)[k] == (Ents(f) + Ents(g))[k] {
      if k < n { assert (f + g)[DESIZE * k..DESIZE * k + DESIZE] == f[DESIZE * k..DESIZE * k + DESIZE]; }
      else {
        var j := k - n;
        assert DESIZE * k == |f| + DESIZE * j;
        assert (f + g)[DESIZE * k..DESIZE * k + DESIZE] == g[DESIZE * j..DESIZE * j + DESIZE];
      }
    }
  }

  lemma EntsOfEntry(inum: nat, name: Name)
    requires inum < 0x1_0000 && NameOk(name)
    ensures Ents(Entry(inum, name)) == [Dirent(inum, name)]
  {
    DecodeEntry(inum, name);
    assert Entry(inum, name)[0..DESIZE] == Entry(inum, name);
  }

  lemma {:induction false} EntsOfRoot(files: seq<Mkfs.File>)
    requires Mkfs.NamesOk(files)
    ensures Ents(Mkfs.RootBytes(files)) == RootEnts(files)
  {
    hide Ents, Entry;
    if files == [] {
      EntsOfEntry(1, DOT);
      EntsOfEntry(1, DOTDOT);
      EntsAppend(Entry(1, DOT), Entry(1, DOTDOT));
      assert Mkfs.RootBytes(files) == Entry(1, DOT) + Entry(1, DOTDOT);
    } else {
      var n := |files| - 1;
      EntsOfRoot(files[..n]);
      EntsOfEntry(1 + |files|, files[n].name);
      EntsAppend(Mkfs.RootBytes(files[..n]), Entry(1 + |files|, files[n].name));
      assert RootEnts(files[..n]) + [Dirent(1 + |files|, files[n].name)] == RootEnts(files);
    }
  }

  lemma EntsOfZeroes(f: seq<byte>)
    requires |f| % DESIZE == 0 && forall k :: 0 <= k < |f| ==> f[k] == 0
    ensures forall k :: 0 <= k < |Ents(f)| ==> Ents(f)[k] == NONE
  {
  }

  // Different names, and none of the two that every directory has.
  ghost predicate NamesDiffer(files: seq<Mkfs.File>) {
    && (forall k :: 0 <= k < |files| ==> files[k].name != DOT && files[k].name != DOTDOT)
    && (forall j, k :: 0 <= j < k < |files| ==> files[j].name != files[k].name)
  }

  lemma DistinctIff(files: seq<Mkfs.File>, ents: seq<Dirent>)
    requires |ents| >= |files| + 2 && ents[..|files| + 2] == RootEnts(files)
    requires forall k :: |files| + 2 <= k < |ents| ==> ents[k] == NONE
    ensures Distinct(ents) <==> NamesDiffer(files)
  {
    var r := RootEnts(files);
    forall k | 0 <= k < |r| ensures ents[k] == r[k] && Live(ents[k]) { assert ents[..|files| + 2][k] == ents[k]; }
    if Distinct(ents) {
      forall k | 0 <= k < |files| ensures files[k].name != DOT && files[k].name != DOTDOT {
        assert ents[0].name != ents[2 + k].name && ents[1].name != ents[2 + k].name;
      }
      forall j, k | 0 <= j < k < |files| ensures files[j].name != files[k].name {
        assert ents[2 + j].name != ents[2 + k].name;
      }
    }
  }

  // The tree of the image: the root directory names each file once.
  ghost predicate ImageTree(t: Tree, files: seq<Mkfs.File>) {
    && 2 + |files| <= |t| <= 0x1_0000 && (forall i :: 0 <= i < |t| ==> ImageNode(t[i], i, |files|))
    && t[ROOTINO].kind == T_DIR && |t[ROOTINO].ents| >= |files| + 2 && t[ROOTINO].ents[..|files| + 2] == RootEnts(files)
    && forall k :: |files| + 2 <= k < |t[ROOTINO].ents| ==> t[ROOTINO].ents[k] == NONE
  }

  predicate ImageNode(n: Node, i: nat, files: nat) {
    if i == ROOTINO then n.kind == T_DIR && n.nlink == 1
    else if 2 <= i < 2 + files then n.kind == T_FILE && n.nlink == 1 && n.ents == []
    else n == Node(0, 0, [])
  }

  // Inode i has the entry that mkfs made for it, and that entry counts as a link.
  predicate HasLink(files: seq<Mkfs.File>, i: nat) { i < 2 + |files| && (i >= 2 ==> files[i - 2].name != DOT) }

  lemma ImageRefs(t: Tree, files: seq<Mkfs.File>, i: nat)
    requires ImageTree(t, files) && 0 < i < |t|
    ensures Refs(t, i) == if HasLink(files, i) then {(ROOTINO, i)} else {}
  {
    var r, ents := RootEnts(files), t[ROOTINO].ents;
    forall k | 0 <= k < |r| ensures ents[k] == r[k] { assert ents[..|files| + 2][k] == ents[k]; }
    forall d: nat, k: nat ensures IsRef(t, d, k, i) <==> d == ROOTINO && k == i && HasLink(files, i) {
      if d < |t| { assert ImageNode(t[d], d, |files|); }
      if d == ROOTINO && 2 <= k < |r| { assert ents[k] == Dirent(k, files[k - 2].name); }
    }
  }

  // Every count is right but those of the files called ".".
  lemma ImageCounted(t: Tree, files: seq<Mkfs.File>, i: nat)
    requires ImageTree(t, files) && 0 < i < |t|
    ensures Counted(t, i) <==> !(2 <= i < 2 + |files| && files[i - 2].name == DOT)
  {
    ImageRefs(t, files, i);
    assert ImageNode(t[i], i, |files|);
  }

  lemma ImageCounts(t: Tree, files: seq<Mkfs.File>)
    requires ImageTree(t, files)
    ensures (forall i :: 0 < i < |t| ==> Counted(t, i)) <==> forall k :: 0 <= k < |files| ==> files[k].name != DOT
  {
    hide Counted;
    forall i | 0 < i < |t| ensures Counted(t, i) <==> !(2 <= i < 2 + |files| && files[i - 2].name == DOT) {
      ImageCounted(t, files, i);
    }
    if forall i :: 0 < i < |t| ==> Counted(t, i) {
      forall k | 0 <= k < |files| ensures files[k].name != DOT { assert Counted(t, 2 + k); }
    }
  }

  lemma ImageLinks(t: Tree, files: seq<Mkfs.File>)
    requires ImageTree(t, files)
    ensures Distinct(t[ROOTINO].ents) <==> NamesDiffer(files)
    ensures LinkInv(t) <==> NamesDiffer(files)
  {
    DistinctIff(files, t[ROOTINO].ents);
    assert ImageNode(t[ROOTINO], ROOTINO, |files|);
    if NamesDiffer(files) {
      ImageInv(t, files);
    } else {
      assert !NodeOk(t, ROOTINO);
    }
  }

  lemma ImageInv(t: Tree, files: seq<Mkfs.File>)
    requires ImageTree(t, files) && NamesDiffer(files) && Distinct(t[ROOTINO].ents)
    ensures LinkInv(t)
  {
    hide Distinct;
    var r, ents := RootEnts(files), t[ROOTINO].ents;
    forall k | 0 <= k < |r| ensures ents[k] == r[k] { assert ents[..|files| + 2][k] == ents[k]; }
    forall i | 0 <= i < |t| ensures NodeOk(t, i) {
      assert ImageNode(t[i], i, |files|);
      if i == ROOTINO { RootIsOk(t, files); }
    }
    ImageCounts(t, files);
    forall d: nat, k: nat | Named(t, d, k) ensures d == ROOTINO && k < |r| && t[d].ents[k].inum == k
        && t[k].kind == T_FILE {
      assert ImageNode(t[d], d, |files|);
      assert ents[k] == Dirent(k, files[k - 2].name) && ImageNode(t[k], k, |files|);
    }
    forall c | 0 <= c < |t| ensures ParentOk(t, c) { assert ImageNode(t[c], c, |files|); }
    assert ImageNode(t[0], 0, |files|) && ImageNode(t[ROOTINO], ROOTINO, |files|);
  }

  lemma RootIsOk(t: Tree, files: seq<Mkfs.File>)
    requires ImageTree(t, files) && Distinct(t[ROOTINO].ents)
    ensures DirOk(t, ROOTINO)
  {
    hide Distinct;
    var r, ents := RootEnts(files), t[ROOTINO].ents;
    forall k | 0 <= k < |ents| ensures ents[k].inum < |t| {
      if k < |r| { assert ents[..|files| + 2][k] == ents[k]; }
      if 2 <= k < |r| { assert ents[k] == Dirent(k, files[k - 2].name); }
    }
    assert ents[..|files| + 2][0] == ents[0] && ents[..|files| + 2][1] == ents[1];
    assert ImageNode(t[ROOTINO], ROOTINO, |files|);
  }

  lemma ImageKinds(d: Disk, own: Owners, files: seq<Mkfs.File>)
    requires Mkfs.Finished(Mkfs.IMAGE, d, own, files)
    ensures forall i :: 0 <= i < |d.ino| ==> InodeOk(d.ino[i])
    ensures forall i :: 0 <= i < |d.ino| ==> ImageNode(TreeOf(Mkfs.IMAGE, d)[i], i, |files|)
  {
    hide Owned, Mapped, Bytes, Ents, Mkfs.RootBytes, LinkInv, NamesDiffer, FilesOk;
    var l := Mkfs.IMAGE;
    var t := TreeOf(l, d);
    assert |Bytes(l, d, ROOTINO)| == Mkfs.RoundUp(16 * (|files| + 2));
    forall i | 0 <= i < l.ninodes ensures InodeOk(d.ino[i]) && ImageNode(t[i], i, |files|) {
      assert Mkfs.KindAt(d.ino[i], i, |files|);
      assert t[i] == NodeOf(l, d, i);
    }
  }

  // What the finished image holds, read as a name space.
  lemma ImageIsTree(d: Disk, own: Owners, files: seq<Mkfs.File>)
    requires Mkfs.Finished(Mkfs.IMAGE, d, own, files)
    ensures ImageTree(TreeOf(Mkfs.IMAGE, d), files)
  {
    hide Owned, Mapped, Bytes, Ents, Mkfs.RootBytes, FilesOk;
    var l := Mkfs.IMAGE;
    var t := TreeOf(l, d);
    ImageKinds(d, own, files);
    var zeroes := Bytes(l, d, ROOTINO)[16 * (|files| + 2)..];
    assert Bytes(l, d, ROOTINO) == Mkfs.RootBytes(files) + zeroes;
    EntsOfRoot(files);
    EntsAppend(Mkfs.RootBytes(files), zeroes);
    EntsOfZeroes(zeroes);
    assert t[ROOTINO].ents == RootEnts(files) + Ents(zeroes) by {
      assert Mkfs.KindAt(d.ino[ROOTINO], ROOTINO, |files|);
    }
  }

  // A finished image whose root directory does not fill its last block is a sound disk.  Its link
  // counts are right exactly when no file is called ".", and its root directory has no name twice
  // exactly when the names differ; so the whole invariant holds exactly when they do.
  lemma ImageNames(d: Disk, own: Owners, files: seq<Mkfs.File>)
    requires Mkfs.Finished(Mkfs.IMAGE, d, own, files) && (|files| + 2) % 64 != 0
    ensures DiskOk(Mkfs.IMAGE, d, own)
    ensures var t := TreeOf(Mkfs.IMAGE, d);
            && ((forall i :: 0 < i < |t| ==> Counted(t, i)) <==> forall k :: 0 <= k < |files| ==> files[k].name != DOT)
            && (Distinct(t[ROOTINO].ents) <==> NamesDiffer(files))
            && (LinkInv(t) <==> NamesDiffer(files))
  {
    hide Owned, Mapped, Bytes, Ents, Mkfs.RootBytes, LinkInv, NamesDiffer, Counted;
    ImageKinds(d, own, files);
    ImageIsTree(d, own, files);
    ImageCounts(TreeOf(Mkfs.IMAGE, d), files);
    ImageLinks(TreeOf(Mkfs.IMAGE, d), files);
  }
}
