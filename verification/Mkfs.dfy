/** mkfs/mkfs.c: the image that the kernel first mounts satisfies the file system invariant. */
module Mkfs {
  import opened Params
  import opened FsBytes
  import opened FsDisk
  import opened FsFiles
  import opened FsReadWrite
  import opened FsDirs

  const NINODES: nat := 200

  // The layout that mkfs computes: boot block, superblock, log, inodes, bitmap, data.
  const IMAGE: Layout := Layout(FSSIZE, 2 + NLOG + (NINODES / IPB + 1), 2 + NLOG,
                                2 + NLOG + (NINODES / IPB + 1) + (FSSIZE / BPB + 1), NINODES)

  // The bitmap block with the first n bits set.
  function BitsBelow(n: nat): (r: Block)
    requires n <= BPB
    ensures |r| == BSIZE
  {
    if n == 0 then Zeroes() else Mark(BitsBelow(n - 1), n - 1)
  }

  lemma {:induction false} MarkedBelow(n: nat, k: nat)
    requires n <= BPB && k < BPB
    ensures Marked(BitsBelow(n), k) == (k < n)
  {
    if n == 0 {
      ZeroBit(0, k % 8);
    } else {
      MarkedBelow(n - 1, k);
      MarkedOfMark(BitsBelow(n - 1), n - 1, k);
    }
  }

  lemma {:induction false} ZeroBit(x: nat, k: nat)
    requires x == 0
    ensures !TestBit(x, k)
  {
    if k > 0 { ZeroBit(x / 2, k - 1); }
  }

  // One bitmap block covers the disk, as for IMAGE.
  ghost predicate Small(l: Layout) { LayoutOk(l) && l.size < BPB && l.bmapstart < l.nmeta }

  // The image as it will be once the bitmap is written, with free the first unused block.
  ghost function View(l: Layout, d: Disk, free: nat): (r: Disk)
    requires l.bmapstart < |d.blk| && free <= BPB
  {
    d.(blk := d.blk[l.bmapstart := BitsBelow(free)])
  }

  function FreeInode(): Inode { Inode(0, 0, 0, seq(NDIRECT + 1, _ => 0)) }

  // Between two calls of iappend or ialloc.
  ghost predicate Built(l: Layout, d: Disk, own: Owners, free: nat) {
    && Small(l) && Shape(l, d) && l.nmeta <= free <= l.size && Inv(l, View(l, d, free), own)
    && (forall b :: free <= b < l.size ==> d.blk[b] == Zeroes()) && LogEmpty(l, d)
  }

  // The blocks of the log, between the superblock and the inodes, are zero.
  ghost predicate LogEmpty(l: Layout, d: Disk) {
    l.inodestart <= |d.blk| && forall b :: LOGSTART <= b < l.inodestart ==> d.blk[b] == Zeroes()
  }

  lemma BelowInUse(l: Layout, d: Disk, free: nat, b: nat)
    requires Small(l) && Shape(l, d) && free <= l.size && b < l.size
    ensures BBlock(l, b) == l.bmapstart && Shape(l, View(l, d, free)) && InUse(l, View(l, d, free).blk, b) == (b < free)
  {
    hide BitsBelow, Marked;
    MarkedBelow(free, b);
  }

  lemma ViewLog(l: Layout, d: Disk, free: nat)
    requires Small(l) && Shape(l, d) && free <= l.size && LogEmpty(l, d)
    ensures LogEmpty(l, View(l, d, free))
  {
    hide BitsBelow;
  }

  lemma EmptyImage(l: Layout, d: Disk)
    requires Small(l) && |d.blk| == l.size && (forall b :: 0 <= b < l.size ==> d.blk[b] == Zeroes())
    requires |d.ino| == l.ninodes && (forall i :: 0 <= i < l.ninodes ==> d.ino[i] == FreeInode())
    ensures Built(l, d, map[], l.nmeta) && FilesOk(l, View(l, d, l.nmeta), map[])
  {
    hide BitsBelow, Marked, InUse;
    var v := View(l, d, l.nmeta);
    assert Shape(l, d) && Shape(l, v);
    forall i, s | 0 <= i < l.ninodes && 0 <= s < SLOTS ensures RefOk(v, map[], NoCut, i, s) {
      assert Ref(v, i, s) == 0;
    }
    forall b | 0 <= b < l.size ensures Accounted(l, v, map[], {}, b) { BelowInUse(l, d, l.nmeta, b); }
    assert Owned(l, v, map[], {}, NoCut);
  }

  lemma NextBits(l: Layout, d: Disk, free: nat)
    requires Small(l) && Shape(l, d) && l.nmeta <= free < l.size && d.blk[free] == Zeroes()
    ensures BBlock(l, free) == l.bmapstart
    ensures var v := View(l, d, free); Shape(l, v) && !InUse(l, v.blk, free)
    ensures var v := View(l, d, free); v.(blk := MarkBlk(l, v.blk, free)[free := Zeroes()]) == View(l, d, free + 1)
  {
    hide Marked, Mark, InUse;
    BelowInUse(l, d, free, free);
    var v := View(l, d, free);
    assert Mark(BitsBelow(free), free) == BitsBelow(free + 1);
    assert MarkBlk(l, v.blk, free)[free := Zeroes()] == View(l, d, free + 1).blk;
  }

  // ---------------------------------------------------------------- iappend takes the next block

  // Inode i gained the zeroed block b at place s; nothing else changed.
  ghost predicate Took(l: Layout, v: Disk, v': Disk, own: Owners, own': Owners, i: nat, s: nat, b: nat)
    requires Shape(l, v) && Shape(l, v') && i < l.ninodes && s < SLOTS
  {
    && OnlyAddrs(v, v', i) && DataKept(v, v', own, own') && b < l.size && v'.blk[b] == Zeroes() && b != 0
    && (forall j, t :: 0 <= j < l.ninodes && 0 <= t < SLOTS ==>
                         Ref(v', j, t) == if (j, t) == (i, s) then b else Ref(v, j, t))
  }

  lemma TookAddr(l: Layout, d: Disk, own: Owners, free: nat, i: nat, s: nat)
    requires Built(l, d, own, free) && i < l.ninodes && s <= IND && d.ino[i].addrs[s] == 0 && free < l.size
    ensures var d', own' := SetAddr(d, i, s, free), own[free := (i, s)];
            Built(l, d', own', free + 1) && Took(l, View(l, d, free), View(l, d', free + 1), own, own', i, s, free)
  {
    hide BitsBelow, InUse;
    NextBits(l, d, free);
    var v, v1 := View(l, d, free), View(l, d, free + 1);
    Allocated(l, v, own, {}, NoCut, free);
    LinkedAddr(l, v1, own, {} + {free}, i, s, free);
    assert {} + {free} - {free} == {};
    forall b | b in own ensures b < l.size && v1.blk[b] == v.blk[b] { assert OwnerOk(l, v, own, NoCut, b); }
  }

  lemma OwnedBelow(l: Layout, d: Disk, own: Owners, free: nat, b: nat)
    requires Built(l, d, own, free) && b in own
    ensures l.nmeta <= b < free && View(l, d, free).blk[b] == d.blk[b]
  {
    hide BitsBelow, InUse;
    var v := View(l, d, free);
    assert OwnerOk(l, v, own, NoCut, b);
    assert Accounted(l, v, own, {}, b);
    BelowInUse(l, d, free, b);
  }

  lemma TookEntry(l: Layout, d: Disk, own: Owners, free: nat, i: nat, j: nat)
    requires Built(l, d, own, free) && i < l.ninodes && j < NINDIRECT && d.ino[i].addrs[IND] != 0
    requires Ref(View(l, d, free), i, IND + 1 + j) == 0 && free < l.size
    ensures var a := d.ino[i].addrs[IND];
            && l.nmeta <= a < free && free < 0x1_0000_0000
            && var d', own' := d.(blk := d.blk[a := PutWord(d.blk[a], j, free)]), own[free := (i, IND + 1 + j)];
            Built(l, d', own', free + 1) && Took(l, View(l, d, free), View(l, d', free + 1), own, own', i,
                                                 IND + 1 + j, free)
  {
    hide BitsBelow, InUse;
    NextBits(l, d, free);
    var v, v1 := View(l, d, free), View(l, d, free + 1);
    Allocated(l, v, own, {}, NoCut, free);
    IndirectOwned(l, v, own, {}, NoCut, i);
    var a := d.ino[i].addrs[IND];
    OwnedBelow(l, d, own, free, a);
    LinkedEntry(l, v1, own, {} + {free}, i, j, free);
    assert {} + {free} - {free} == {};
    var d' := d.(blk := d.blk[a := PutWord(d.blk[a], j, free)]);
    assert View(l, d', free + 1).blk == v1.blk[a := PutWord(v1.blk[a], j, free)];
    hide Owned;
    forall b | b in own ensures b < l.size && v1.blk[b] == v.blk[b] { assert OwnerOk(l, v, own, NoCut, b); }
  }

  // File block bn of inode i may have gained a block, with its indirect block; no byte changed.
  ghost predicate Extended(l: Layout, v: Disk, v': Disk, i: nat, bn: nat)
    requires Shape(l, v) && Shape(l, v') && i < l.ninodes
  {
    && Grown(l, v, v', i) && Replaced(l, v, v', i, 0, [])
    && (forall t :: 0 <= t < SLOTS && t != SlotOf(bn) && t != IND ==> Ref(v', i, t) == Ref(v, i, t))
  }

  lemma TookExtends(l: Layout, v: Disk, v': Disk, own: Owners, own': Owners, i: nat, s: nat, b: nat, bn: nat)
    requires Inv(l, v, own) && Inv(l, v', own') && i < l.ninodes && s < SLOTS && bn < MAXFILE
    requires Took(l, v, v', own, own', i, s, b) && Ref(v, i, s) == 0 && (s == SlotOf(bn) || s == IND)
    ensures Extended(l, v, v', i, bn)
  {
    hide Owned, ByteAt;
    forall j, k | 0 <= j < l.ninodes && 0 <= k ensures ByteAt(v', j, k) == ByteAt(v, j, k) {
      MapKeepsByte(l, v, v', own, own', i, bn, j, k);
    }
  }

  lemma ExtendedTwice(l: Layout, v: Disk, v1: Disk, v2: Disk, i: nat, bn: nat)
    requires Shape(l, v) && Shape(l, v1) && Shape(l, v2) && i < l.ninodes
    requires Extended(l, v, v1, i, bn) && Extended(l, v1, v2, i, bn)
    ensures Extended(l, v, v2, i, bn)
  {
    hide Ref, ByteAt;
    GrownTwice(l, v, v1, v2, i);
  }

  lemma ExtendedNot(l: Layout, v: Disk, i: nat, bn: nat)
    requires Shape(l, v) && i < l.ninodes
    ensures Extended(l, v, v, i, bn)
  {
    hide Ref, ByteAt;
  }

  lemma BuiltShape(l: Layout, d: Disk, own: Owners, free: nat)
    requires Built(l, d, own, free)
    ensures Shape(l, d) && l.bmapstart < |d.blk| && free <= l.size < BPB < 0x1_0000_0000 && Shape(l, View(l, d, free))
  {
  }

  lemma EntryThere(l: Layout, d: Disk, own: Owners, free: nat, i: nat, j: nat)
    requires Built(l, d, own, free) && i < l.ninodes && j < NINDIRECT && d.ino[i].addrs[IND] != 0
    ensures var a := d.ino[i].addrs[IND];
            a < |d.blk| && |d.blk[a]| == BSIZE && Ref(View(l, d, free), i, IND + 1 + j) == Word(d.blk[a], j)
  {
    hide Owned, BitsBelow, Word;
    IndirectOwned(l, View(l, d, free), own, {}, NoCut, i);
    OwnedBelow(l, d, own, free, d.ino[i].addrs[IND]);
  }

  // Entry j of the indirect block of inode i gets the next free block.
  lemma EntryTaken(l: Layout, d: Disk, own: Owners, free: nat, i: nat, j: nat)
    requires Built(l, d, own, free) && i < l.ninodes && j < NINDIRECT && d.ino[i].addrs[IND] != 0
    requires Ref(View(l, d, free), i, IND + 1 + j) == 0 && free < l.size
    ensures var a := d.ino[i].addrs[IND];
            && a < |d.blk| && |d.blk[a]| == BSIZE && free < 0x1_0000_0000
            && var d', own' := d.(blk := d.blk[a := PutWord(d.blk[a], j, free)]), own[free := (i, IND + 1 + j)];
               && Built(l, d', own', free + 1) && Extended(l, View(l, d, free), View(l, d', free + 1), i, NDIRECT + j)
               && Ref(View(l, d', free + 1), i, IND + 1 + j) != 0
  {
    hide Owned, BitsBelow, Extended, View, Ref, PutWord, DataKept, OnlyAddrs;
    BuiltShape(l, d, own, free);
    EntryThere(l, d, own, free, i, j);
    TookEntry(l, d, own, free, i, j);
    var a := d.ino[i].addrs[IND];
    var d', own' := d.(blk := d.blk[a := PutWord(d.blk[a], j, free)]), own[free := (i, IND + 1 + j)];
    TookExtends(l, View(l, d, free), View(l, d', free + 1), own, own', i, IND + 1 + j, free, NDIRECT + j);
  }

  class Image {
    const l: Layout
    var d: Disk
    var freeblock: nat
    var freeinode: nat
    ghost var own: Owners

    // The address at place s of inode i, taken from the free blocks if there is none.
    method TakeAddr(i: nat, s: nat, ghost bn: nat) returns (ok: bool)
      requires Built(l, d, own, freeblock) && i < l.ninodes && s <= IND && (s == SlotOf(bn) || s == IND) && bn < MAXFILE
      modifies this`d, this`freeblock, this`own
      ensures Built(l, d, own, freeblock) && Extended(l, old(View(l, d, freeblock)), View(l, d, freeblock), i, bn)
      ensures if ok then d.ino[i].addrs[s] != 0 else freeblock == l.size
      ensures freeblock <= old(freeblock) + 1
    {
      hide Owned, BitsBelow, Extended, Grown, Took;
      ExtendedNot(l, View(l, d, freeblock), i, bn);
      if d.ino[i].addrs[s] == 0 {
        if freeblock == l.size { return false; }
        TookAddr(l, d, own, freeblock, i, s);
        TookExtends(l, View(l, d, freeblock), View(l, SetAddr(d, i, s, freeblock), freeblock + 1), own,
                    own[freeblock := (i, s)], i, s, freeblock, bn);
        d := SetAddr(d, i, s, freeblock);
        own := own[freeblock := (i, s)];
        freeblock := freeblock + 1;
      }
      ok := true;
    }

    // Entry j of the indirect block of inode i, taken from the free blocks if it is 0.
    method TakeEntry(i: nat, j: nat) returns (ok: bool)
      requires Built(l, d, own, freeblock) && i < l.ninodes && j < NINDIRECT && d.ino[i].addrs[IND] != 0
      modifies this`d, this`freeblock, this`own
      ensures Built(l, d, own, freeblock) && Extended(l, old(View(l, d, freeblock)), View(l, d, freeblock), i,
                                                      NDIRECT + j)
      ensures if ok then Ref(View(l, d, freeblock), i, IND + 1 + j) != 0 else freeblock == l.size
      ensures freeblock <= old(freeblock) + 1
    {
      hide Built, View, Extended, Ref, Word, PutWord;
      BuiltShape(l, d, own, freeblock);
      ExtendedNot(l, View(l, d, freeblock), i, NDIRECT + j);
      EntryThere(l, d, own, freeblock, i, j);
      var a := d.ino[i].addrs[IND];
      if Word(d.blk[a], j) == 0 {
        if freeblock == l.size { return false; }
        EntryTaken(l, d, own, freeblock, i, j);
        d := d.(blk := d.blk[a := PutWord(d.blk[a], j, freeblock)]);
        own := own[freeblock := (i, IND + 1 + j)];
        freeblock := freeblock + 1;
      }
      ok := true;
    }

    // The block behind file block bn.
    method TakeBlock(i: nat, bn: nat) returns (ok: bool, addr: nat)
      requires Built(l, d, own, freeblock) && i < l.ninodes && bn < MAXFILE
      modifies this`d, this`freeblock, this`own
      ensures Built(l, d, own, freeblock) && Extended(l, old(View(l, d, freeblock)), View(l, d, freeblock), i, bn)
      ensures if ok then addr == Addr(View(l, d, freeblock), i, bn) != 0 else freeblock == l.size
      ensures freeblock <= old(freeblock) + 2
    {
      hide Owned, BitsBelow, Extended, Grown;
      addr := 0;
      if bn < NDIRECT {
        ok := TakeAddr(i, bn, bn);
        addr := d.ino[i].addrs[bn];
      } else {
        ghost var v := View(l, d, freeblock);
        ok := TakeAddr(i, IND, bn);
        if ok {
          ghost var v1 := View(l, d, freeblock);
          ok := TakeEntry(i, bn - NDIRECT);
          ExtendedTwice(l, v, v1, View(l, d, freeblock), i, bn);
          if ok { addr := EntryOf(i, bn - NDIRECT); }
        }
      }
    }

    function EntryOf(i: nat, j: nat): (a: nat)
      requires Built(l, d, own, freeblock) && i < l.ninodes && j < NINDIRECT
               && Ref(View(l, d, freeblock), i, IND + 1 + j) != 0
      reads this
      ensures a == Ref(View(l, d, freeblock), i, IND + 1 + j)
    {
      IndirectOwned(l, View(l, d, freeblock), own, {}, NoCut, i);
      OwnedBelow(l, d, own, freeblock, d.ino[i].addrs[IND]);
      Word(d.blk[d.ino[i].addrs[IND]], j)
    }

    // The inodes not yet allocated.
    ghost predicate Fresh()
      reads this
    {
      1 <= freeinode <= |d.ino| && forall i :: freeinode <= i < |d.ino| ==> d.ino[i] == FreeInode()
    }

    // An image of zeroes, before the first ialloc.
    constructor (l: Layout)
      requires Small(l) && l.ninodes > 1
      ensures this.l == l && Ready(l, d, own, freeblock) && Fresh() && freeinode == 1 && d.ino[0] == FreeInode()
              && freeblock == l.nmeta
    {
      var d0 := Disk(seq(l.size, _ => Zeroes()), seq(l.ninodes, _ => FreeInode()));
      this.l := l;
      d := d0;
      freeblock := l.nmeta;
      freeinode := 1;
      own := map[];
      new;
      EmptyImage(l, d0);
      EmptyTidy(l, d0);
    }

    // A new inode of the given type, with one link and no blocks.
    method IAlloc(kind: nat) returns (ok: bool, inum: nat)
      requires Ready(l, d, own, freeblock) && Fresh()
      modifies this`d, this`freeinode
      ensures Ready(l, d, own, freeblock) && Fresh()
      ensures ok <==> old(freeinode) < l.ninodes
      ensures ok ==> forall i :: 0 <= i < l.ninodes && i != inum ==> d.ino[i] == old(d).ino[i]
      ensures ok ==> inum == old(freeinode) && freeinode == inum + 1 && d.ino[inum].kind == kind
                     && d.ino[inum].nlink == 1
      ensures ok ==> Bytes(l, View(l, d, freeblock), inum) == []
                     && OthersKept(l, old(View(l, d, freeblock)), View(l, d, freeblock), inum)
    {
      hide Owned, Mapped, Tidy, OthersKept, BitsBelow;
      if freeinode == l.ninodes { return false, 0; }
      inum := freeinode;
      ghost var v := View(l, d, freeblock);
      InodeTaken(l, v, own, inum, kind);
      d := d.(ino := d.ino[inum := FreeInode().(kind := kind, nlink := 1)]);
      assert View(l, d, freeblock) == v.(ino := v.ino[inum := FreeInode().(kind := kind, nlink := 1)]);
      freeinode := freeinode + 1;
      ok := true;
    }

    // One round of iappend's loop: x goes to position pos, within one block.
    method AppendChunk(i: nat, pos: nat, x: seq<byte>) returns (ok: bool)
      requires Built(l, d, own, freeblock) && i < l.ninodes && BlockOf(pos) < MAXFILE && OffsetOf(pos) + |x| <= BSIZE
      modifies this`d, this`freeblock, this`own
      ensures Built(l, d, own, freeblock)
      ensures (!ok ==> freeblock == l.size) && freeblock <= old(freeblock) + 2
      ensures ok ==> ChunkAdded(l, old(View(l, d, freeblock)), View(l, d, freeblock), i, pos, x)
    {
      hide Owned, BitsBelow, Extended, ChunkAdded;
      ghost var v := View(l, d, freeblock);
      var addr;
      ok, addr := TakeBlock(i, BlockOf(pos));
      if ok {
        ghost var v1 := View(l, d, freeblock);
        AddrOwned(l, v1, own, i, BlockOf(pos));
        OwnedBelow(l, d, own, freeblock, addr);
        ChunkPut(l, d, own, freeblock, i, pos, x);
        ChunkJoins(l, v, v1, View(l, d.(blk := d.blk[addr := Splice(d.blk[addr], OffsetOf(pos), x)]), freeblock), i,
                   pos, x);
        d := d.(blk := d.blk[addr := Splice(d.blk[addr], OffsetOf(pos), x)]);
      }
    }

    // Append p to inode i.  Refused when the file or the disk has no room for it.
    method IAppend(i: nat, p: seq<byte>) returns (ok: bool)
      requires Ready(l, d, own, freeblock) && i < l.ninodes
      modifies this`d, this`freeblock, this`own
      ensures ok ==> Ready(l, d, own, freeblock) && Appended(l, old(View(l, d, freeblock)), View(l, d, freeblock), i, p)
      ensures !ok ==> freeblock == l.size || old(d).ino[i].size + |p| > MAXFILE * BSIZE
      ensures freeblock <= old(freeblock) + Cost(|p|)
    {
      hide Owned, Mapped, Tidy, Bytes, OthersKept, Written, BitsBelow, NoMore, ChunkAdded, ChunkLen, Appended,
          EndBlock, Ceil, OffsetOf, Cost;
      NoCost(d.ino[i].size, |p|);
      ghost var v0, own0 := View(l, d, freeblock), own;
      var off := d.ino[i].size;
      if off + |p| > MAXFILE * BSIZE { return false; }
      if p == [] {
        AppendNothing(l, v0, i);
        return true;
      }
      WrittenNothing(l, v0, own, i, off, {});
      assert p[..0] == [];
      assert NoMore(v0, i, Ceil(off)) by { TidyNoMore(v0, i); }
      var tot := 0;
      while tot < |p|
        invariant tot <= |p| && Built(l, d, own, freeblock) && d.ino[i].size == off
        invariant Written(l, v0, View(l, d, freeblock), own, i, off, p[..tot], tot, EndBlock(off, tot), {}, {})
        invariant NoMore(View(l, d, freeblock), i, Ceil(off + tot))
        invariant freeblock <= old(freeblock) + 2 * (EndBlock(off, tot) - BlockOf(off))
        invariant tot == 0 || tot == |p| || OffsetOf(off + tot) == 0
      {
        var m := ChunkLen(off, |p|, tot);
        RoundBlocks(off, tot, m);
        RoundCost(off, tot, m, |p|);
        ghost var v1, own1 := View(l, d, freeblock), own;
        ok := AppendChunk(i, off + tot, p[tot..tot + m]);
        if !ok { return false; }
        NextChunk(l, v0, v1, View(l, d, freeblock), own1, own, i, off, p, tot, m);
        ChunkKeepsSize(l, v1, View(l, d, freeblock), i, off + tot, p[tot..tot + m]);
        tot := tot + m;
      }
      assert p[..tot] == p;
      AppendDone(l, v0, d, own0, own, freeblock, i, p, EndBlock(off, tot));
      d := Resize(d, i, off + tot);
      ok := true;
    }

    // Write the bitmap for the blocks taken so far.
    method Balloc()
      requires Small(l) && |d.blk| == l.size && freeblock <= l.size
      modifies this`d
      ensures d == View(l, old(d), freeblock)
    {
      var buf := Zeroes();
      for i := 0 to freeblock
        invariant buf == BitsBelow(i)
      {
        buf := Mark(buf, i);
      }
      d := d.(blk := d.blk[l.bmapstart := buf]);
    }

    // Put one file into the image: its inode, its entry in the root directory, its contents.
    method AddFile(f: File, ghost files: seq<File>) returns (ok: bool)
      requires Ready(l, d, own, freeblock) && Fresh() && freeinode == 2 + |files| && l.ninodes <= 0x4000
      requires Holds(l, View(l, d, freeblock), files)
      modifies this
      ensures ok ==> Ready(l, d, own, freeblock) && Fresh() && freeinode == 2 + |files| + 1
                     && Holds(l, View(l, d, freeblock), files + [f])
      ensures !ok ==> !NameOk(f.name) || |f.data| > MAXFILE * BSIZE || 2 + |files| >= l.ninodes || freeblock == l.size
      ensures freeblock <= old(freeblock) + Cost(16) + Cost(|f.data|)
    {
      hide Owned, Mapped, Tidy, BitsBelow, Holds, OthersKept, Appended, Bytes, Cost;
      ghost var v0 := View(l, d, freeblock);
      RootHasRoom(l, v0, files);
      if !NameOk(f.name) { return false; }
      var inum;
      ok, inum := IAlloc(T_FILE);
      if !ok { return false; }
      ghost var v1 := View(l, d, freeblock);
      ok := IAppend(ROOTINO, Entry(inum, f.name));
      if !ok { return false; }
      ghost var v2 := View(l, d, freeblock);
      FreshAfter(l, v1, v2, ROOTINO, Entry(inum, f.name), freeinode);
      StillEmpty(l, v1, v2, inum, Entry(inum, f.name));
      ok := IAppend(inum, f.data);
      if !ok { return false; }
      FreshAfter(l, v2, View(l, d, freeblock), inum, f.data, freeinode);
      HoldsMore(l, v0, v1, v2, View(l, d, freeblock), files, f);
    }
  }

  // The most blocks that appending n bytes can take.
  function Cost(n: nat): nat { 2 * (n / BSIZE + 2) }

  lemma NoCost(off: nat, n: nat)
    ensures EndBlock(off, 0) == BlockOf(off) && 2 * (EndBlock(off, n) - BlockOf(off)) <= Cost(n)
  {
  }

  lemma RoundCost(off: nat, t: nat, m: nat, n: nat)
    requires 0 < m && t + m <= n && OffsetOf(off + t) + m <= BSIZE && (t == 0 || OffsetOf(off + t) == 0)
    ensures EndBlock(off, t) + 1 == EndBlock(off, t + m) && 2 * (EndBlock(off, t + m) - BlockOf(off)) <= Cost(n)
  {
    SameBlock(off + t, off + t + m - 1, m);
  }

  // The root directory has room for an entry of every inode.
  lemma RootHasRoom(l: Layout, v: Disk, files: seq<File>)
    requires Shape(l, v) && l.ninodes <= 0x4000 && Holds(l, v, files)
    ensures v.ino[ROOTINO].size + 16 <= MAXFILE * BSIZE
  {
    hide RootBytes, ByteAt;
    assert |Bytes(l, v, ROOTINO)| == v.ino[ROOTINO].size;
  }

  lemma AppendedSize(l: Layout, v: Disk, v': Disk, i: nat, p: seq<byte>)
    requires Shape(l, v) && Shape(l, v') && i < l.ninodes && Appended(l, v, v', i, p)
    ensures v'.ino[i].size == v.ino[i].size + |p|
  {
    hide ByteAt;
    assert |Bytes(l, v', i)| == |Bytes(l, v, i)| + |p|;
  }

  lemma StillEmpty(l: Layout, v: Disk, v': Disk, i: nat, p: seq<byte>)
    requires Shape(l, v) && Shape(l, v') && ROOTINO < l.ninodes && i < l.ninodes && i != ROOTINO
             && Bytes(l, v, i) == [] && Appended(l, v, v', ROOTINO, p)
    ensures v'.ino[i].size == 0
  {
    hide ByteAt;
    assert |Bytes(l, v, i)| == v.ino[i].size;
  }

  lemma ChunkKeepsSize(l: Layout, v: Disk, v': Disk, i: nat, pos: nat, x: seq<byte>)
    requires Shape(l, v) && Shape(l, v') && i < l.ninodes && BlockOf(pos) < MAXFILE && ChunkAdded(l, v, v', i, pos, x)
    ensures v'.ino[i].size == v.ino[i].size
  {
  }

  lemma TidyNoMore(v: Disk, i: nat)
    requires i < |v.ino| && |v.ino[i].addrs| == NDIRECT + 1 && Tidy(v, i)
    ensures NoMore(v, i, Ceil(v.ino[i].size))
  {
  }

  lemma AppendNothing(l: Layout, v: Disk, i: nat)
    requires Shape(l, v) && i < l.ninodes
    ensures Appended(l, v, v, i, [])
  {
    assert Bytes(l, v, i) + [] == Bytes(l, v, i);
  }

  // x was written at pos in inode i, whose block there now exists.
  ghost predicate ChunkAdded(l: Layout, v: Disk, v': Disk, i: nat, pos: nat, x: seq<byte>)
    requires Shape(l, v) && Shape(l, v') && i < l.ninodes && BlockOf(pos) < MAXFILE
  {
    && Grown(l, v, v', i) && Replaced(l, v, v', i, pos, x) && Addr(v', i, BlockOf(pos)) != 0
    && (forall t :: 0 <= t < SLOTS && t != SlotOf(BlockOf(pos)) && t != IND ==> Ref(v', i, t) == Ref(v, i, t))
  }

  lemma ChunkPut(l: Layout, d: Disk, own: Owners, free: nat, i: nat, pos: nat, x: seq<byte>)
    requires Built(l, d, own, free) && i < l.ninodes && BlockOf(pos) < MAXFILE && OffsetOf(pos) + |x| <= BSIZE
    requires Addr(View(l, d, free), i, BlockOf(pos)) != 0
    ensures var a := Addr(View(l, d, free), i, BlockOf(pos));
            && l.nmeta <= a < free && |d.blk[a]| == BSIZE
            && var d' := d.(blk := d.blk[a := Splice(d.blk[a], OffsetOf(pos), x)]);
            && Built(l, d', own, free) && ChunkAdded(l, View(l, d, free), View(l, d', free), i, pos, x)
  {
    hide BitsBelow, Splice;
    var v := View(l, d, free);
    var a := Addr(v, i, BlockOf(pos));
    AddrOwned(l, v, own, i, BlockOf(pos));
    OwnedBelow(l, d, own, free, a);
    var block := Splice(d.blk[a], OffsetOf(pos), x);
    DataWritten(l, v, own, {}, NoCut, a, block);
    ChunkReplaced(l, v, own, i, pos, x);
    hide Owned;
    var d' := d.(blk := d.blk[a := block]);
    assert View(l, d', free).blk == v.blk[a := block];
  }

  lemma ChunkJoins(l: Layout, v: Disk, v1: Disk, v2: Disk, i: nat, pos: nat, x: seq<byte>)
    requires Shape(l, v) && Shape(l, v1) && Shape(l, v2) && i < l.ninodes && BlockOf(pos) < MAXFILE
    requires Extended(l, v, v1, i, BlockOf(pos)) && ChunkAdded(l, v1, v2, i, pos, x)
    ensures ChunkAdded(l, v, v2, i, pos, x)
  {
    hide Ref, ByteAt;
    GrownTwice(l, v, v1, v2, i);
  }

  // ---------------------------------------------------------------- iappend

  function Ceil(n: nat): nat { (n + BSIZE - 1) / BSIZE }

  // Inode i has no block from file block n on.
  ghost predicate NoMore(v: Disk, i: nat, n: nat)
    requires i < |v.ino| && |v.ino[i].addrs| == NDIRECT + 1
  {
    forall bn :: n <= bn < MAXFILE ==> Addr(v, i, bn) == 0
  }

  // Inode i has the blocks its size calls for and no more, and zeroes fill up the last one.
  ghost predicate Tidy(v: Disk, i: nat)
    requires i < |v.ino| && |v.ino[i].addrs| == NDIRECT + 1
  {
    NoMore(v, i, Ceil(v.ino[i].size)) && forall k :: v.ino[i].size <= k ==> ByteAt(v, i, k) == 0
  }

  ghost predicate AllTidy(l: Layout, v: Disk)
    requires Shape(l, v)
  {
    forall i :: 0 <= i < l.ninodes ==> Tidy(v, i)
  }

  ghost predicate Ready(l: Layout, d: Disk, own: Owners, free: nat) {
    Built(l, d, own, free) && FilesOk(l, View(l, d, free), own) && AllTidy(l, View(l, d, free))
  }

  lemma NextChunk(l: Layout, v0: Disk, v1: Disk, v2: Disk, own1: Owners, own2: Owners, i: nat, off: nat, p: seq<byte>,
                  tot: nat, m: nat)
    requires tot < |p| && Written(l, v0, v1, own1, i, off, p[..tot], tot, EndBlock(off, tot), {}, {})
             && NoMore(v1, i, Ceil(off + tot))
    requires m == ChunkLen(off, |p|, tot) && off + |p| <= MAXFILE * BSIZE && BlockOf(off + tot) < MAXFILE
    requires Inv(l, v2, own2) && ChunkAdded(l, v1, v2, i, off + tot, p[tot..tot + m])
    ensures Written(l, v0, v2, own2, i, off, p[..tot + m], tot + m, EndBlock(off, tot + m), {}, {})
            && NoMore(v2, i, Ceil(off + tot + m))
  {
    hide Owned, Grown, Replaced, EndBlock, Ref, Backed, LogsOnly, Uses;
    assert p[tot..tot + m][..m] == p[tot..tot + m];
    RoundWritten(l, v0, v1, v2, own1, own2, i, off, p, tot, m, m, Done, {}, {}, {});
    forall bn | Ceil(off + tot + m) <= bn < MAXFILE ensures Addr(v2, i, bn) == 0 {
      assert BlockOf(off + tot) < Ceil(off + tot + m) && Ceil(off + tot) <= bn;
      assert Addr(v1, i, bn) == 0;
      assert Ref(v2, i, SlotOf(bn)) == Ref(v1, i, SlotOf(bn));
    }
  }

  lemma TidyAfter(l: Layout, v0: Disk, v: Disk, own: Owners, i: nat, p: seq<byte>, hi: nat)
    requires Shape(l, v0) && i < l.ninodes && AllTidy(l, v0)
    requires Written(l, v0, v, own, i, v0.ino[i].size, p, |p|, hi, {}, {}) && NoMore(v, i, Ceil(v0.ino[i].size + |p|))
    ensures Shape(l, Resize(v, i, v0.ino[i].size + |p|)) && AllTidy(l, Resize(v, i, v0.ino[i].size + |p|))
  {
    hide Owned, Backed, LogsOnly, Ref;
    var v' := Resize(v, i, v0.ino[i].size + |p|);
    assert Shape(l, v');
    forall j | 0 <= j < l.ninodes ensures Tidy(v', j) {
      assert Tidy(v0, j);
      forall s | 0 <= s < SLOTS ensures Ref(v', j, s) == Ref(v, j, s) { SameRef(v, v', j, s); }
      forall k | v'.ino[j].size <= k ensures ByteAt(v', j, k) == 0 {
        assert ByteAt(v', j, k) == ByteAt(v, j, k);
        assert ByteAt(v, j, k) == ByteAt(v0, j, k);
      }
      forall bn | Ceil(v'.ino[j].size) <= bn < MAXFILE ensures Addr(v', j, bn) == 0 {
        assert Addr(v', j, bn) == Addr(v, j, bn);
        if j != i { assert Addr(v, j, bn) == Addr(v0, j, bn); }
      }
    }
  }

  lemma SameRef(v: Disk, v': Disk, j: nat, s: nat)
    requires j < |v.ino| == |v'.ino| && v'.blk == v.blk && v'.ino[j].addrs == v.ino[j].addrs
             && |v.ino[j].addrs| == NDIRECT + 1 && s < SLOTS
    ensures Ref(v', j, s) == Ref(v, j, s)
  {
  }

  // What iappend does to the image as a whole.
  ghost predicate Appended(l: Layout, v: Disk, v': Disk, i: nat, p: seq<byte>)
    requires Shape(l, v) && Shape(l, v') && i < l.ninodes
  {
    && Bytes(l, v', i) == Bytes(l, v, i) + p && OthersKept(l, v, v', i)
    && v'.ino[i].kind == v.ino[i].kind && v'.ino[i].nlink == v.ino[i].nlink
  }

  lemma AppendDone(l: Layout, v0: Disk, d: Disk, own0: Owners, own: Owners, free: nat, i: nat, p: seq<byte>, hi: nat)
    requires FilesOk(l, v0, own0) && i < l.ninodes && AllTidy(l, v0) && Built(l, d, own, free)
    requires Written(l, v0, View(l, d, free), own, i, v0.ino[i].size, p, |p|, hi, {}, {})
    requires NoMore(View(l, d, free), i, Ceil(v0.ino[i].size + |p|))
    ensures var d' := Resize(d, i, v0.ino[i].size + |p|);
            Ready(l, d', own, free) && Appended(l, v0, View(l, d', free), i, p)
  {
    hide Owned, Mapped, Tidy, Bytes, OthersKept, Replaced, Backed, LogsOnly, BitsBelow, NoMore, Grown;
    var off := v0.ino[i].size;
    var v, d' := View(l, d, free), Resize(d, i, off + |p|);
    WriteBytes(l, v0, v, own0, own, i, off, p, |p|, hi, {}, {});
    TidyAfter(l, v0, v, own, i, p, hi);
    assert View(l, d', free) == Resize(v, i, off + |p|);
    GrownKeeps(l, v0, v, i);
    assert p[..|p|] == p;
    PatchAtEnd(Bytes(l, v0, i), p);
  }

  lemma GrownKeeps(l: Layout, v: Disk, v': Disk, i: nat)
    requires Shape(l, v) && Shape(l, v') && i < l.ninodes && Grown(l, v, v', i)
    ensures v'.ino[i].kind == v.ino[i].kind && v'.ino[i].nlink == v.ino[i].nlink
  {
  }

  lemma PatchAtEnd(f: seq<byte>, x: seq<byte>)
    ensures Patch(f, |f|, x) == f + x
  {
  }

  lemma EmptyTidy(l: Layout, d: Disk)
    requires Built(l, d, map[], l.nmeta) && (forall i :: 0 <= i < l.ninodes ==> d.ino[i] == FreeInode())
    ensures AllTidy(l, View(l, d, l.nmeta))
  {
    hide Owned, BitsBelow;
  }

  lemma InodeTaken(l: Layout, v: Disk, own: Owners, i: nat, kind: nat)
    requires FilesOk(l, v, own) && AllTidy(l, v) && i < l.ninodes && v.ino[i] == FreeInode()
    ensures var v' := v.(ino := v.ino[i := FreeInode().(kind := kind, nlink := 1)]);
            && FilesOk(l, v', own) && AllTidy(l, v') && Bytes(l, v', i) == [] && OthersKept(l, v, v', i)
  {
    hide Owned, Ref;
    var v' := v.(ino := v.ino[i := FreeInode().(kind := kind, nlink := 1)]);
    SizeIsNoRef(l, v, v', own);
    forall j | 0 <= j < l.ninodes ensures Tidy(v', j) && Mapped(v', j) {
      assert Tidy(v, j) && Mapped(v, j);
      forall k: nat ensures ByteAt(v', j, k) == ByteAt(v, j, k) {}
      forall bn | 0 <= bn < MAXFILE ensures Addr(v', j, bn) == Addr(v, j, bn) {}
    }
    forall j | 0 <= j < l.ninodes && j != i ensures v'.ino[j] == v.ino[j] && Bytes(l, v', j) == Bytes(l, v, j) {}
  }

  // ---------------------------------------------------------------- the size of the root directory

  function RoundUp(n: nat): nat { (n / BSIZE + 1) * BSIZE }

  lemma RoundedMapped(v: Disk, v': Disk, i: nat)
    requires i < |v.ino| && |v.ino[i].addrs| == NDIRECT + 1 && v' == Resize(v, i, RoundUp(v.ino[i].size))
    requires Mapped(v, i) && NoMore(v, i, Ceil(v.ino[i].size))
    ensures Mapped(v', i) <==> v.ino[i].size % BSIZE != 0
  {
    hide Ref;
    var n := v.ino[i].size;
    forall bn | 0 <= bn < MAXFILE ensures Addr(v', i, bn) == Addr(v, i, bn) { SameRef(v, v', i, SlotOf(bn)); }
    if n % BSIZE != 0 {
      forall bn | 0 <= bn < MAXFILE && bn * BSIZE < RoundUp(n) ensures Addr(v', i, bn) != 0 { assert bn * BSIZE < n; }
    } else if n < MAXFILE * BSIZE {
      assert Ceil(n) == n / BSIZE && Addr(v, i, n / BSIZE) == 0;
    }
  }

  lemma RoundedBytes(l: Layout, v: Disk, v': Disk, i: nat)
    requires Shape(l, v) && Shape(l, v') && i < l.ninodes && v' == Resize(v, i, RoundUp(v.ino[i].size)) && Tidy(v, i)
    ensures Bytes(l, v', i) == Bytes(l, v, i) + seq(RoundUp(v.ino[i].size) - v.ino[i].size, _ => 0)
            && OthersKept(l, v, v', i)
  {
    hide Ref;
    forall j, s | 0 <= j < l.ninodes && 0 <= s < SLOTS ensures Ref(v', j, s) == Ref(v, j, s) { SameRef(v, v', j, s); }
    forall j, k | 0 <= j < l.ninodes && 0 <= k ensures ByteAt(v', j, k) == ByteAt(v, j, k) {}
  }

  // Rounding up the size of a file keeps every block below it allocated exactly when the file
  // does not end on a block boundary.
  lemma RoundedOk(l: Layout, v: Disk, own: Owners, i: nat)
    requires FilesOk(l, v, own) && AllTidy(l, v) && i < l.ninodes
    ensures var n := v.ino[i].size;
            var v' := Resize(v, i, RoundUp(n));
            && Inv(l, v', own) && OthersKept(l, v, v', i)
            && (FilesOk(l, v', own) <==> n % BSIZE != 0)
            && Bytes(l, v', i) == Bytes(l, v, i) + seq(RoundUp(n) - n, _ => 0)
  {
    hide Owned, Ref, Bytes, ByteAt, NoMore, RoundUp;
    var v' := Resize(v, i, RoundUp(v.ino[i].size));
    SizeIsNoRef(l, v, v', own);
    assert Tidy(v, i) && Mapped(v, i);
    RoundedMapped(v, v', i);
    RoundedBytes(l, v, v', i);
    forall j | 0 <= j < l.ninodes && j != i ensures Mapped(v', j) {
      assert Mapped(v, j);
      forall bn | 0 <= bn < MAXFILE ensures Addr(v', j, bn) == Addr(v, j, bn) {}
    }
  }

  // ---------------------------------------------------------------- the whole image

  datatype File = File(name: seq<byte>, data: seq<byte>)

  predicate NamesOk(files: seq<File>) {
    |files| + 2 <= 0x1_0000 && forall k :: 0 <= k < |files| ==> NameOk(files[k].name)
  }

  // More than enough blocks for the files, with their entries in the root directory.
  function Needed(files: seq<File>): nat {
    if files == [] then 2 * Cost(16) else Needed(files[..|files| - 1]) + Cost(16) + Cost(|files[|files| - 1].data|)
  }

  // A file that an image can hold at all.
  predicate FileOk(f: File) { NameOk(f.name) && |f.data| <= MAXFILE * BSIZE }

  // The root directory: itself twice, as "." and "..", then one entry for each file.
  function RootBytes(files: seq<File>): (r: seq<byte>)
    requires NamesOk(files)
    ensures |r| == 16 * (|files| + 2)
  {
    if files == [] then Entry(ROOTINO, [46]) + Entry(ROOTINO, [46, 46])
    else RootBytes(files[..|files| - 1]) + Entry(1 + |files|, files[|files| - 1].name)
  }

  // The root directory and n files have one link each; no other inode is in use.
  ghost predicate Kinds(l: Layout, v: Disk, n: nat)
    requires Shape(l, v)
  {
    forall i :: 0 <= i < l.ninodes ==> KindAt(v.ino[i], i, n)
  }

  predicate KindAt(ino: Inode, i: nat, n: nat) {
    if i == ROOTINO then ino.kind == T_DIR && ino.nlink == 1
    else if 2 <= i < 2 + n then ino.kind == T_FILE && ino.nlink == 1
    else ino == FreeInode()
  }

  // v holds exactly these files, in inodes 2, 3, ...
  ghost predicate Holds(l: Layout, v: Disk, files: seq<File>)
    requires Shape(l, v)
  {
    && NamesOk(files) && 1 + |files| < l.ninodes && Bytes(l, v, ROOTINO) == RootBytes(files)
    && Kinds(l, v, |files|)
    && forall k :: 0 <= k < |files| ==> Bytes(l, v, 2 + k) == files[k].data
  }

  lemma FreshAfter(l: Layout, v: Disk, v': Disk, i: nat, p: seq<byte>, freeinode: nat)
    requires Shape(l, v) && Shape(l, v') && i < freeinode <= l.ninodes && Appended(l, v, v', i, p)
    requires forall j :: freeinode <= j < l.ninodes ==> v.ino[j] == FreeInode()
    ensures forall j :: freeinode <= j < l.ninodes ==> v'.ino[j] == FreeInode()
  {
    hide Bytes;
  }

  lemma KindsMore(l: Layout, v0: Disk, v1: Disk, v2: Disk, v3: Disk, n: nat)
    requires Shape(l, v0) && Shape(l, v1) && Shape(l, v2) && Shape(l, v3) && 2 + n < l.ninodes && Kinds(l, v0, n)
    requires OthersKept(l, v0, v1, 2 + n) && v1.ino[2 + n].kind == T_FILE && v1.ino[2 + n].nlink == 1
    requires OthersKept(l, v1, v2, ROOTINO) && v2.ino[ROOTINO].kind == v1.ino[ROOTINO].kind
             && v2.ino[ROOTINO].nlink == v1.ino[ROOTINO].nlink
    requires OthersKept(l, v2, v3, 2 + n) && v3.ino[2 + n].kind == v2.ino[2 + n].kind
             && v3.ino[2 + n].nlink == v2.ino[2 + n].nlink
    ensures Kinds(l, v3, n + 1)
  {
    hide Bytes;
    forall i | 0 <= i < l.ninodes && i != 2 + n ensures v3.ino[i] == v2.ino[i] && v1.ino[i] == v0.ino[i] {}
    forall i | 0 <= i < l.ninodes && i != ROOTINO ensures v2.ino[i] == v1.ino[i] {}
  }

  lemma HoldsMore(l: Layout, v0: Disk, v1: Disk, v2: Disk, v3: Disk, files: seq<File>, f: File)
    requires Shape(l, v0) && Shape(l, v1) && Shape(l, v2) && Shape(l, v3) && Holds(l, v0, files)
    requires 2 + |files| < l.ninodes <= 0x1_0000 && NameOk(f.name)
    requires OthersKept(l, v0, v1, 2 + |files|) && Bytes(l, v1, 2 + |files|) == []
    requires v1.ino[2 + |files|].kind == T_FILE && v1.ino[2 + |files|].nlink == 1
    requires Appended(l, v1, v2, ROOTINO, Entry(2 + |files|, f.name)) && Appended(l, v2, v3, 2 + |files|, f.data)
    ensures Holds(l, v3, files + [f])
  {
    hide Bytes, Entry;
    var all := files + [f];
    assert all[..|all| - 1] == files;
    assert Bytes(l, v1, ROOTINO) == Bytes(l, v0, ROOTINO);
    KindsMore(l, v0, v1, v2, v3, |files|);
    assert Bytes(l, v3, ROOTINO) == Bytes(l, v2, ROOTINO);
    forall k | 0 <= k < |all| ensures Bytes(l, v3, 2 + k) == all[k].data {
      assert Bytes(l, v2, 2 + k) == Bytes(l, v1, 2 + k);
      if k < |files| {
        assert Bytes(l, v3, 2 + k) == Bytes(l, v2, 2 + k) && Bytes(l, v1, 2 + k) == Bytes(l, v0, 2 + k);
      }
    }
  }

  lemma ImageIsSmall()
    ensures Small(IMAGE)
  {
  }

  // The finished image: every file is there, the bitmap marks exactly the blocks in use, and
  // the sizes agree with the blocks unless the root directory fills its last block.
  ghost predicate Finished(l: Layout, d: Disk, own: Owners, files: seq<File>) {
    && Inv(l, d, own) && NamesOk(files) && 1 + |files| < l.ninodes && Kinds(l, d, |files|) && LogEmpty(l, d)
    && (FilesOk(l, d, own) <==> (|files| + 2) % 64 != 0)
    && Bytes(l, d, ROOTINO) == RootBytes(files) + seq(RoundUp(16 * (|files| + 2)) - 16 * (|files| + 2), _ => 0)
    && forall k :: 0 <= k < |files| ==> Bytes(l, d, 2 + k) == files[k].data
  }

  lemma RootFixed(l: Layout, v: Disk, own: Owners, files: seq<File>)
    requires FilesOk(l, v, own) && AllTidy(l, v) && Holds(l, v, files) && LogEmpty(l, v)
    ensures Finished(l, Resize(v, ROOTINO, RoundUp(v.ino[ROOTINO].size)), own, files)
  {
    hide Owned, Mapped, Bytes, RoundUp, Tidy, RootBytes;
    RoundedOk(l, v, own, ROOTINO);
    assert |Bytes(l, v, ROOTINO)| == 16 * (|files| + 2);
    SixtyFourEntries(|files| + 2);
  }

  lemma SixtyFourEntries(n: nat)
    ensures 16 * n % BSIZE == 0 <==> n % 64 == 0
  {
    assert 16 * n == 1024 * (n / 64) + 16 * (n % 64);
  }

  // An image that holds the root directory and nothing else.
  method MakeRoot() returns (ok: bool, img: Image)
    ensures fresh(img) && img.l == IMAGE && img.freeblock <= IMAGE.nmeta + Needed([])
    ensures ok ==> Ready(IMAGE, img.d, img.own, img.freeblock) && img.Fresh() && img.freeinode == 2
    ensures ok ==> Holds(IMAGE, View(IMAGE, img.d, img.freeblock), [])
    ensures !ok ==> img.freeblock == FSSIZE
  {
    hide Owned, Mapped, Tidy, BitsBelow, Holds, OthersKept, Appended, Bytes, RootBytes, Small, Finished, Cost;
    ImageIsSmall();
    img := new Image(IMAGE);
    var root;
    ok, root := img.IAlloc(T_DIR);
    if !ok { return false, img; }
    ghost var v0 := View(IMAGE, img.d, img.freeblock);
    ok := img.IAppend(root, Entry(root, [46]));
    if !ok { return false, img; }
    ghost var v1 := View(IMAGE, img.d, img.freeblock);
    FreshAfter(IMAGE, v0, v1, root, Entry(root, [46]), img.freeinode);
    AppendedSize(IMAGE, v0, v1, root, Entry(root, [46]));
    ok := img.IAppend(root, Entry(root, [46, 46]));
    if !ok { return false, img; }
    FreshAfter(IMAGE, v1, View(IMAGE, img.d, img.freeblock), root, Entry(root, [46, 46]), img.freeinode);
    HoldsRoot(IMAGE, v0, v1, View(IMAGE, img.d, img.freeblock));
  }

  // Every input of this kind gives an image: the files are acceptable and there is room.
  ghost predicate Fits(files: seq<File>) {
    (forall k :: 0 <= k < |files| ==> FileOk(files[k])) && 1 + |files| < NINODES && IMAGE.nmeta + Needed(files) < FSSIZE
  }

  // The main program of mkfs.
  method MakeImage(files: seq<File>) returns (ok: bool, img: Image)
    ensures img.l == IMAGE && fresh(img)
    ensures ok ==> Finished(IMAGE, img.d, img.own, files)
    ensures !ok ==> (exists k :: 0 <= k < |files| && !FileOk(files[k])) || 1 + |files| >= NINODES
                    || img.freeblock == FSSIZE
    ensures Fits(files) ==> ok
  {
    hide Owned, Mapped, Tidy, BitsBelow, Holds, OthersKept, Appended, Bytes, RootBytes, Small, Finished, Needed;
    NeededMost(files, 0);
    assert files[..0] == [];
    ok, img := MakeRoot();
    if !ok { return false, img; }
    for i := 0 to |files|
      invariant img.l == IMAGE && Ready(IMAGE, img.d, img.own, img.freeblock) && img.Fresh() && img.freeinode == 2 + i
      invariant Holds(IMAGE, View(IMAGE, img.d, img.freeblock), files[..i])
      invariant img.freeblock <= IMAGE.nmeta + Needed(files[..i])
    {
      NeededMore(files, i);
      ok := img.AddFile(files[i], files[..i]);
      if !ok { return false, img; }
      assert files[..i] + [files[i]] == files[..i + 1];
    }
    assert files[..|files|] == files;
    ghost var v := View(IMAGE, img.d, img.freeblock);
    ViewLog(IMAGE, img.d, img.freeblock);
    RootFixed(IMAGE, v, img.own, files);
    img.d := Resize(img.d, ROOTINO, RoundUp(img.d.ino[ROOTINO].size));
    assert View(IMAGE, img.d, img.freeblock) == Resize(v, ROOTINO, RoundUp(v.ino[ROOTINO].size));
    img.Balloc();
    ok := true;
  }

  lemma NeededMore(files: seq<File>, i: nat)
    requires i < |files|
    ensures Needed(files[..i + 1]) == Needed(files[..i]) + Cost(16) + Cost(|files[i].data|)
    ensures Needed(files[..i + 1]) <= Needed(files)
  {
    hide Cost;
    assert files[..i + 1][..i] == files[..i];
    NeededMost(files, i + 1);
  }

  lemma {:induction false} NeededMost(files: seq<File>, i: nat)
    requires i <= |files|
    ensures Needed(files[..i]) <= Needed(files)
    decreases |files|
  {
    hide Cost;
    if i < |files| {
      NeededMost(files[..|files| - 1], i);
      assert files[..|files| - 1][..i] == files[..i];
    } else { assert files[..i] == files; }
  }

  lemma HoldsRoot(l: Layout, v0: Disk, v1: Disk, v2: Disk)
    requires Shape(l, v0) && Shape(l, v1) && Shape(l, v2) && 1 < l.ninodes && Bytes(l, v0, ROOTINO) == []
             && Kinds(l, v0, 0)
    requires Appended(l, v0, v1, ROOTINO, Entry(ROOTINO, [46]))
             && Appended(l, v1, v2, ROOTINO, Entry(ROOTINO, [46, 46]))
    ensures Holds(l, v2, [])
  {
    hide Bytes;
    forall i | 0 <= i < l.ninodes && i != ROOTINO ensures v2.ino[i] == v1.ino[i] && v1.ino[i] == v0.ino[i] {}
  }
}
