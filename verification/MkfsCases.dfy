/** Images on which the conditions of the other modules matter: mkfs makes each of them. */
module MkfsCases {
  import opened Collections
  import opened FsBytes
  import opened FsDirs
  import opened FsDisk
  import opened FsFiles
  import opened FsReadWrite
  import opened LinkCounts
  import opened Mkfs
  import opened MkfsNames
  import opened Params
  import opened SysFile

  // n files without contents, with different names.
  function EmptyFiles(n: nat): (r: seq<File>)
    requires n <= 100
    ensures |r| == n && forall k :: 0 <= k < n ==> FileOk(r[k]) && r[k].data == []
  {
    seq(n, k requires 0 <= k < n => File(Numbered(k), []))
  }

  lemma {:induction false} EmptyFilesFit(files: seq<File>)
    requires |files| <= 100 && forall k :: 0 <= k < |files| ==> FileOk(files[k]) && files[k].data == []
    ensures Needed(files) == 8 * (|files| + 1) && Fits(files)
  {
    if files != [] { EmptyFilesFit(files[..|files| - 1]); }
  }

  // With 62 files the root directory ends on a block boundary, and mkfs gives it a size for which
  // it has no block.
  method RootTooLarge() returns (d: Disk, ghost own: Owners)
    ensures Finished(IMAGE, d, own, EmptyFiles(62)) && !FilesOk(IMAGE, d, own)
  {
    hide Owned, Mapped, Bytes, Kinds, RootBytes;
    EmptyFilesFit(EmptyFiles(62));
    var ok, img := MakeImage(EmptyFiles(62));
    d, own := img.d, img.own;
  }

  // Two files of one name: every link count is right, but the name leads to the first file only,
  // and file 3, which has a link, cannot be found by any name.
  method SameName(name: Name) returns (d: Disk, found: bool, inum: nat, ghost own: Owners)
    requires NameOk(name)
    ensures DiskOk(IMAGE, d, own) && var t := TreeOf(IMAGE, d);
            && (forall i :: 0 < i < |t| ==> Counted(t, i)) && t[3] == Node(T_FILE, 1, []) && !LinkInv(t)
    ensures (found <==> name in {DOT, DOTDOT, [97]}) && (found ==> inum == if name == [97] then 2 else ROOTINO)
  {
    hide Owned, Mapped, Bytes, Kinds, RootBytes, LinkInv, Finished, TreeOf, Counted, ImageTree, DiskOk,
        HasName;
    var f := File([97], []);
    EmptyFilesFit([f, f]);
    var ok, img := MakeImage([f, f]);
    d, own := img.d, img.own;
    ImageNames(d, own, [f, f]);
    ImageIsTree(d, own, [f, f]);
    assert !NamesDiffer([f, f]) by { assert [f, f][0].name == [f, f][1].name; }
    TwinEnts(d, own, f);
    TwinNames(Dir(IMAGE, d, ROOTINO), name);
    var fs := new FileSystem(IMAGE, d, own);
    var k;
    found, k, inum := DirLookup(fs, ROOTINO, name);
    if found { FirstTwin(Dir(IMAGE, d, ROOTINO), name, k); }
  }

  // The entries of a root directory with two files of one name.
  ghost predicate Twins(ents: seq<Dirent>) {
    && |ents| >= 4 && ents[0] == Dirent(ROOTINO, DOT) && ents[1] == Dirent(ROOTINO, DOTDOT)
    && ents[2] == Dirent(2, [97]) && ents[3] == Dirent(3, [97])
    && forall k :: 4 <= k < |ents| ==> !Live(ents[k])
  }

  lemma TwinNames(ents: seq<Dirent>, name: Name)
    requires Twins(ents)
    ensures HasName(ents, name) <==> name in {DOT, DOTDOT, [97]}
  {
    assert Live(ents[0]) && Live(ents[1]) && Live(ents[2]);
  }

  lemma FirstTwin(ents: seq<Dirent>, name: Name, k: nat)
    requires Twins(ents) && k < |ents| && Live(ents[k]) && ents[k].name == name
    requires forall j :: 0 <= j < k ==> !Live(ents[j]) || ents[j].name != name
    ensures ents[k].inum == if name == [97] then 2 else ROOTINO
  {
    if k == 3 { assert Live(ents[2]) && ents[2].name == name; }
  }

  // The root directory of an image with the file f twice.
  lemma TwinEnts(d: Disk, own: Owners, f: File)
    requires DiskOk(IMAGE, d, own) && ImageTree(TreeOf(IMAGE, d), [f, f]) && f.name == [97]
    ensures Inv(IMAGE, d, own) && DirFile(IMAGE, d, own, ROOTINO) && TreeOf(IMAGE, d)[3] == Node(T_FILE, 1, [])
    ensures Twins(Dir(IMAGE, d, ROOTINO))
  {
    hide Owned, Mapped, Bytes, Ents;
    var t := TreeOf(IMAGE, d);
    KindOf(IMAGE, d, ROOTINO);
    var ents, r := t[ROOTINO].ents, RootEnts([f, f]);
    assert r[2] == Dirent(2, [f, f][0].name) && r[3] == Dirent(3, [f, f][1].name);
    forall k | 0 <= k < 4 ensures ents[k] == r[k] { assert ents[..4][k] == ents[k]; }
    assert ImageNode(t[3], 3, 2) && ImageNode(t[ROOTINO], ROOTINO, 2);
  }

  // A file called ".": its entry is no link, so its count of one is wrong.
  method DotName() returns (d: Disk, ghost own: Owners)
    ensures DiskOk(IMAGE, d, own) && TreeOf(IMAGE, d)[2].nlink == 1 && !Counted(TreeOf(IMAGE, d), 2)
  {
    hide Owned, Mapped, Bytes, Kinds, RootBytes, LinkInv, Finished, TreeOf;
    var f := File(DOT, []);
    EmptyFilesFit([f]);
    var ok, img := MakeImage([f]);
    d, own := img.d, img.own;
    ImageNames(d, own, [f]);
    ImageIsTree(d, own, [f]);
    ImageCounted(TreeOf(IMAGE, d), [f], 2);
    assert ImageNode(TreeOf(IMAGE, d)[2], 2, 1);
  }

  lemma OneFileFits()
    ensures Fits([File([97], seq(10, _ => 0))])
  {
    var f := [File([97], seq(10, _ => 0))];
    assert f[..0] == [] && Needed([]) == 8;
    assert Needed(f) == Needed(f[..0]) + Cost(16) + Cost(|f[0].data|);
  }

  lemma FirstBlock(d: Disk, own: Owners)
    requires FilesOk(IMAGE, d, own) && d.ino[2].size == 10
    ensures var b := BlockAt(d, 2, 0); IMAGE.nmeta <= b < |d.blk| && |d.blk[b]| == BSIZE
                                       && Bytes(IMAGE, d, 2)[0] == d.blk[b][0]
  {
    hide Owned, Ref;
    assert Mapped(d, 2);
    AddrOwned(IMAGE, d, own, 2, 0);
  }

  lemma Unlogged(d: Disk, d': Disk, logged: set<nat>, b: nat)
    requires Noted(IMAGE, d, d', {}, logged, {b}, {}) && b >= IMAGE.nmeta && b !in logged - {IBlock(IMAGE, 2)}
    ensures b !in logged && forall c :: 0 <= c < |d.blk| && c !in logged && c != b ==>
                                          c < |d'.blk| && d'.blk[c] == d.blk[c]
  {
  }

  // A write of ten ones over ten zeroes, of which five can be read, returns 0; five bytes have
  // changed all the same, in a block b that was not logged.
  method LostWrite() returns (r: int, d: Disk, d': Disk, ghost own: Owners, ghost logged: set<nat>, ghost b: nat)
    ensures FilesOk(IMAGE, d, own) && Bytes(IMAGE, d, 2) == seq(10, _ => 0)
    ensures r == 0 && Shape(IMAGE, d') && Bytes(IMAGE, d', 2) == seq(5, _ => 1) + seq(5, _ => 0)
    ensures b < |d.blk| && d'.blk[b] != d.blk[b] && b !in logged
    ensures forall c :: 0 <= c < |d.blk| && c !in logged && c != b ==> d'.blk[c] == d.blk[c]
  {
    hide Owned, Mapped, Bytes, Kinds, RootBytes, Noted, BlockAt;
    var files := [File([97], seq(10, _ => 0))];
    OneFileFits();
    var ok, img := MakeImage(files);
    assert Bytes(IMAGE, img.d, 2 + 0) == files[0].data;
    d, own := img.d, img.own;
    var fs := new FileSystem(IMAGE, d, own);
    var src: seq<byte> := seq(10, _ => 1);
    ghost var w;
    r, w := Writei(fs, 2, 0, src, 5);
    d', logged := fs.d, fs.logged;
    b := BlockAt(d, 2, 0);
    assert src[..5] == seq(5, _ => 1);
    FirstBlock(d, own);
    FirstBlock(d', fs.own);
    assert Patch(seq(10, _ => 0), 0, src[..5]) == seq(5, _ => 1) + seq(5, _ => 0);
    Unlogged(d, d', logged, b);
  }
}
