/** Inodes on the disk (kernel/fs.h, kernel/fs.c): sixteen to a block, each of 64 bytes, as iupdate
    writes them and ilock reads them. */
module FsInodes {
  import opened FsBytes
  import opened FsDisk
  import opened FsFiles
  import opened LinkCounts
  import opened Params

  // The fields fit the types of struct dinode.
  ghost predicate DinodeOk(n: Inode) {
    && n.kind < 0x8000 && -0x8000 <= n.nlink < 0x8000 && n.size < 0x1_0000_0000 && |n.addrs| == NDIRECT + 1
    && forall k :: 0 <= k <= NDIRECT ==> n.addrs[k] < 0x1_0000_0000
  }

  // Word k of an inode: type and major number, minor number and link count, size, addresses.  The
  // device numbers are 0 here.
  function InodeWord(n: Inode, k: nat): (w: nat)
    requires |n.addrs| == NDIRECT + 1 && k < 16
    ensures w < 0x1_0000_0000
  {
    if k == 0 then n.kind % 0x1_0000
    else if k == 1 then 0x1_0000 * (n.nlink % 0x1_0000)
    else if k == 2 then n.size % 0x1_0000_0000
    else n.addrs[k - 3] % 0x1_0000_0000
  }

  // Byte k of a word, the low one first.
  function ByteOf(w: nat, k: nat): (r: byte)
    requires w < 0x1_0000_0000 && k < 4
  {
    if k == 0 then w % 256 else if k == 1 then w / 256 % 256 else if k == 2 then w / 65536 % 256 else w / 16777216
  }

  lemma Bytewise(w: nat)
    requires w < 0x1_0000_0000
    ensures ByteOf(w, 0) + 256 * ByteOf(w, 1) + 65536 * ByteOf(w, 2) + 16777216 * ByteOf(w, 3) == w
  {
  }

  // Word j of the block that holds inodes 16 * q .. 16 * q + 15.
  function BlockWord(ino: seq<Inode>, q: nat, j: nat): (w: nat)
    requires forall i :: 0 <= i < |ino| ==> |ino[i].addrs| == NDIRECT + 1
    ensures w < 0x1_0000_0000
  {
    var i := IPB * q + j / 16;
    if i < |ino| then InodeWord(ino[i], j % 16) else 0
  }

  function InodeBlock(ino: seq<Inode>, q: nat): (b: Block)
    requires forall i :: 0 <= i < |ino| ==> |ino[i].addrs| == NDIRECT + 1
    ensures |b| == BSIZE
  {
    seq(BSIZE, p requires 0 <= p < BSIZE => ByteOf(BlockWord(ino, q, p / 4), p % 4))
  }

  lemma WordOfBlock(ino: seq<Inode>, q: nat, j: nat)
    requires (forall i :: 0 <= i < |ino| ==> |ino[i].addrs| == NDIRECT + 1) && j < NINDIRECT
    ensures Word(InodeBlock(ino, q), j) == BlockWord(ino, q, j)
  {
    hide BlockWord, ByteOf;
    Bytewise(BlockWord(ino, q, j));
    forall k | 0 <= k < 4 ensures InodeBlock(ino, q)[4 * j + k] == ByteOf(BlockWord(ino, q, j), k) {
      assert (4 * j + k) / 4 == j && (4 * j + k) % 4 == k;
    }
    assert InodeBlock(ino, q)[4 * j + 0] == InodeBlock(ino, q)[4 * j];
  }

  // Two and four bytes of a block, the low one first.
  function Half(b: Block, p: nat): nat
    requires p + 2 <= |b|
  {
    b[p] as int + 256 * (b[p + 1] as int)
  }

  function Little(b: Block, p: nat): nat
    requires p + 4 <= |b|
  {
    b[p] as int + 256 * (b[p + 1] as int) + 65536 * (b[p + 2] as int) + 16777216 * (b[p + 3] as int)
  }

  // Where struct dinode has its fields: type at byte 0, major and minor at 2 and 4, nlink at 6, size at
  // 8 and the addresses from 12 on; inode 16 * q + j is at byte 64 * j of its block.
  lemma InodeLayout(ino: seq<Inode>, q: nat, j: nat)
    requires (forall k :: 0 <= k < |ino| ==> |ino[k].addrs| == NDIRECT + 1) && j < 16 && 16 * q + j < |ino|
             && DinodeOk(ino[16 * q + j])
    ensures var b, o, n := InodeBlock(ino, q), 64 * j, ino[16 * q + j];
            && Half(b, o) == n.kind && Half(b, o + 2) == Half(b, o + 4) == 0 && Short(Half(b, o + 6)) == n.nlink
            && Little(b, o + 8) == n.size && forall k :: 0 <= k <= NDIRECT ==> Little(b, o + 12 + 4 * k) == n.addrs[k]
  {
    hide InodeBlock, BlockWord, InodeWord, ByteOf, DinodeOk, Short;
    var b, o, n := InodeBlock(ino, q), 64 * j, ino[16 * q + j];
    WordBytes(ino, q, j, 0);
    WordBytes(ino, q, j, 1);
    WordBytes(ino, q, j, 2);
    Halves(n);
    forall k | 0 <= k <= NDIRECT ensures Little(b, o + 12 + 4 * k) == n.addrs[k] {
      WordBytes(ino, q, j, 3 + k);
      Bytewise(InodeWord(n, 3 + k));
      AddrWord(n, k);
    }
    Bytewise(InodeWord(n, 2));
    ShortRead(n.nlink);
  }

  lemma WordBytes(ino: seq<Inode>, q: nat, j: nat, k: nat)
    requires (forall i :: 0 <= i < |ino| ==> |ino[i].addrs| == NDIRECT + 1) && j < 16 && 16 * q + j < |ino| && k < 16
    ensures var b, o, w := InodeBlock(ino, q), 64 * j + 4 * k, InodeWord(ino[16 * q + j], k);
            b[o] == ByteOf(w, 0) && b[o + 1] == ByteOf(w, 1) && b[o + 2] == ByteOf(w, 2) && b[o + 3] == ByteOf(w, 3)
  {
    hide ByteOf, InodeWord;
    var m := 16 * j + k;
    assert m / 16 == j && m % 16 == k;
    forall p | 0 <= p < 4 ensures InodeBlock(ino, q)[4 * m + p] == ByteOf(BlockWord(ino, q, m), p) {
      assert (4 * m + p) / 4 == m && (4 * m + p) % 4 == p;
    }
    assert InodeBlock(ino, q)[4 * m + 0] == InodeBlock(ino, q)[4 * m];
  }

  lemma Halves(n: Inode)
    requires DinodeOk(n)
    ensures var w := InodeWord(n, 0);
            ByteOf(w, 0) as int + 256 * (ByteOf(w, 1) as int) == n.kind && ByteOf(w, 2) == ByteOf(w, 3) == 0
    ensures var w := InodeWord(n, 1);
            ByteOf(w, 0) == ByteOf(w, 1) == 0
            && ByteOf(w, 2) as int + 256 * (ByteOf(w, 3) as int) == n.nlink % 0x1_0000
    ensures InodeWord(n, 2) == n.size && -0x8000 <= n.nlink < 0x8000
  {
    LowHalf(n.kind);
    HighHalf(n.nlink % 0x1_0000);
  }

  lemma LowHalf(x: nat)
    requires x < 0x1_0000
    ensures ByteOf(x, 0) as int + 256 * (ByteOf(x, 1) as int) == x && ByteOf(x, 2) == ByteOf(x, 3) == 0
  {
  }

  lemma HighHalf(x: nat)
    requires x < 0x1_0000
    ensures var w := 0x1_0000 * x;
            ByteOf(w, 0) == ByteOf(w, 1) == 0 && ByteOf(w, 2) as int + 256 * (ByteOf(w, 3) as int) == x
  {
    var w := 0x1_0000 * x;
    assert w / 65536 == x && w / 256 == 256 * x;
    assert w / 16777216 == x / 256;
  }

  lemma AddrWord(n: Inode, k: nat)
    requires DinodeOk(n) && k <= NDIRECT
    ensures InodeWord(n, 3 + k) == n.addrs[k]
  {
  }

  // What ilock makes of place j of a block.
  function ReadInode(b: Block, j: nat): (n: Inode)
    requires |b| == BSIZE && j < IPB
  {
    Inode(Word(b, 16 * j) % 0x1_0000, Short(Word(b, 16 * j + 1) / 0x1_0000), Word(b, 16 * j + 2),
          seq<nat>(NDIRECT + 1, k requires 0 <= k <= NDIRECT => Word(b, 16 * j + 3 + k)))
  }

  // ilock reads what iupdate wrote.
  lemma InodeRoundTrip(ino: seq<Inode>, i: nat)
    requires (forall k :: 0 <= k < |ino| ==> |ino[k].addrs| == NDIRECT + 1) && i < |ino| && DinodeOk(ino[i])
    ensures ReadInode(InodeBlock(ino, i / IPB), i % IPB) == ino[i]
  {
    hide InodeBlock, Word, InodeWord;
    var b, j := InodeBlock(ino, i / IPB), i % IPB;
    forall k | 0 <= k < 16 ensures Word(b, 16 * j + k) == InodeWord(ino[i], k) {
      WordOfBlock(ino, i / IPB, 16 * j + k);
      assert (16 * j + k) / 16 == j && (16 * j + k) % 16 == k;
    }
    FieldsRead(ino[i], b, j);
  }

  lemma ShortRead(x: int)
    requires -0x8000 <= x < 0x8000
    ensures Short(x % 0x1_0000) == x
  {
    assert x % 0x1_0000 == if x < 0 then x + 0x1_0000 else x;
  }

  lemma FieldsRead(n: Inode, b: Block, j: nat)
    requires |b| == BSIZE && j < IPB && DinodeOk(n)
             && forall k :: 0 <= k < 16 ==> Word(b, 16 * j + k) == InodeWord(n, k)
    ensures ReadInode(b, j) == n
  {
    hide Word;
    assert InodeWord(n, 0) == n.kind && InodeWord(n, 2) == n.size;
    ShortRead(n.nlink);
    assert InodeWord(n, 1) / 0x1_0000 == n.nlink % 0x1_0000;
    forall k | 0 <= k <= NDIRECT ensures Word(b, 16 * j + 3 + k) == n.addrs[k] {
      assert 16 * j + 3 + k == 16 * j + (3 + k);
      assert InodeWord(n, 3 + k) == n.addrs[k];
    }
    assert ReadInode(b, j).addrs == n.addrs;
  }
}
