/** Who owns which disk block: the bitmap, the inodes' block lists and the indirect blocks
    of kernel/fs.c, seen as one structure. */
module FsDisk {
  import opened FsBytes

  // Where the metadata lies (struct superblock); data blocks start at nmeta.
  datatype Layout = Layout(size: nat, bmapstart: nat, inodestart: nat, nmeta: nat, ninodes: nat)

  ghost predicate LayoutOk(l: Layout) {
    && 0 < l.nmeta <= l.size < 0x1_0000_0000
    && l.bmapstart + (l.size - 1) / BPB < l.nmeta
    && l.inodestart <= l.bmapstart && l.ninodes < 16 * (l.nmeta - l.inodestart)
  }

  // An inode's kind (0 is free), link count, size in bytes and block addresses.
  datatype Inode = Inode(kind: nat, nlink: int, size: nat, addrs: seq<nat>)

  datatype Disk = Disk(blk: seq<Block>, ino: seq<Inode>)

  ghost predicate Shape(l: Layout, d: Disk) {
    && LayoutOk(l)
    && |d.blk| == l.size && (forall b :: 0 <= b < |d.blk| ==> |d.blk[b]| == BSIZE)
    && |d.ino| == l.ninodes && (forall i :: 0 <= i < |d.ino| ==> |d.ino[i].addrs| == NDIRECT + 1)
  }

  // ---------------------------------------------------------------- the bitmap

  function BBlock(l: Layout, b: nat): nat { b / BPB + l.bmapstart }

  predicate InUse(l: Layout, blk: seq<Block>, b: nat)
    requires BBlock(l, b) < |blk| && |blk[BBlock(l, b)]| == BSIZE
  {
    Marked(blk[BBlock(l, b)], b % BPB)
  }

  function MarkBlk(l: Layout, blk: seq<Block>, b: nat): (r: seq<Block>)
    requires BBlock(l, b) < |blk| && |blk[BBlock(l, b)]| == BSIZE
  {
    blk[BBlock(l, b) := Mark(blk[BBlock(l, b)], b % BPB)]
  }

  function UnmarkBlk(l: Layout, blk: seq<Block>, b: nat): (r: seq<Block>)
    requires BBlock(l, b) < |blk| && |blk[BBlock(l, b)]| == BSIZE
  {
    blk[BBlock(l, b) := Unmark(blk[BBlock(l, b)], b % BPB)]
  }

  lemma BBlockInMeta(l: Layout, b: nat)
    requires LayoutOk(l) && b < l.size
    ensures BBlock(l, b) < l.nmeta
  {
  }

  lemma SameBit(b: nat, c: nat)
    requires b / BPB == c / BPB && b % BPB == c % BPB
    ensures b == c
  {
  }

  lemma InUseOfMark(l: Layout, d: Disk, b: nat, c: nat)
    requires Shape(l, d) && b < l.size && c < l.size
    ensures BBlock(l, b) < l.nmeta && BBlock(l, c) < l.nmeta
    ensures InUse(l, MarkBlk(l, d.blk, b), c) == (c == b || InUse(l, d.blk, c))
  {
    MarkedOfMark(d.blk[BBlock(l, b)], b % BPB, c % BPB);
    hide Marked, Mark, TestBit;
    if BBlock(l, b) == BBlock(l, c) && b % BPB == c % BPB { SameBit(b, c); }
  }

  lemma InUseOfUnmark(l: Layout, d: Disk, b: nat, c: nat)
    requires Shape(l, d) && b < l.size && c < l.size
    ensures BBlock(l, b) < l.nmeta && BBlock(l, c) < l.nmeta
    ensures InUse(l, UnmarkBlk(l, d.blk, b), c) == (c != b && InUse(l, d.blk, c))
  {
    MarkedOfUnmark(d.blk[BBlock(l, b)], b % BPB, c % BPB);
    hide Marked, Unmark, TestBit;
    if BBlock(l, b) == BBlock(l, c) && b % BPB == c % BPB { SameBit(b, c); }
  }

  // ---------------------------------------------------------------- references

  // An inode refers to blocks from numbered places: 0 .. 11 are the direct addresses, 12 is
  // the indirect block, 13 + j is entry j of the indirect block.
  const SLOTS: nat := NDIRECT + 1 + NINDIRECT
  const IND: nat := NDIRECT

  function Ref(d: Disk, i: nat, s: nat): (r: nat)
    requires i < |d.ino| && |d.ino[i].addrs| == NDIRECT + 1 && s < SLOTS
  {
    var a := d.ino[i].addrs;
    if s <= IND then a[s]
    else if a[IND] == 0 || a[IND] >= |d.blk| || |d.blk[a[IND]]| != BSIZE then 0
    else Word(d.blk[a[IND]], s - IND - 1)
  }

  // The place of file block bn.
  function SlotOf(bn: nat): nat { if bn < NDIRECT then bn else bn + 1 }

  function Addr(d: Disk, i: nat, bn: nat): (r: nat)
    requires i < |d.ino| && |d.ino[i].addrs| == NDIRECT + 1 && bn < MAXFILE
  {
    Ref(d, i, SlotOf(bn))
  }

  lemma AddrIs(d: Disk, i: nat, bn: nat)
    requires i < |d.ino| && |d.ino[i].addrs| == NDIRECT + 1 && bn < MAXFILE
    ensures bn < NDIRECT ==> Addr(d, i, bn) == d.ino[i].addrs[bn] == Ref(d, i, bn)
    ensures bn >= NDIRECT ==> Addr(d, i, bn) == Ref(d, i, IND + 1 + (bn - NDIRECT)) && SlotOf(bn) == bn + 1
    ensures bn >= NDIRECT && d.ino[i].addrs[IND] == 0 ==> Addr(d, i, bn) == 0
    ensures Ref(d, i, IND) == d.ino[i].addrs[IND]
  {
  }

  type Owners = map<nat, (nat, nat)>

  // The entries 0 .. n of inode i's indirect block, which itrunc has freed but not cleared.
  datatype Cut = Cut(i: nat, n: nat)

  predicate Freed(h: Cut, i: nat, s: nat) { i == h.i && IND < s <= IND + h.n }

  // own is the inverse of Ref, so no block is referred to from two places; the bitmap marks
  // exactly the metadata, the owned blocks and the loose ones (allocated, not yet linked).
  ghost predicate Owned(l: Layout, d: Disk, own: Owners, loose: set<nat>, h: Cut) {
    && Shape(l, d)
    && (forall i, s :: 0 <= i < l.ninodes && 0 <= s < SLOTS ==> RefOk(d, own, h, i, s))
    && (forall b :: b in own ==> OwnerOk(l, d, own, h, b))
    && (forall b :: b in loose ==> l.nmeta <= b < l.size && b !in own)
    && (forall b :: 0 <= b < l.size ==> Accounted(l, d, own, loose, b))
  }

  ghost predicate RefOk(d: Disk, own: Owners, h: Cut, i: nat, s: nat)
    requires i < |d.ino| && |d.ino[i].addrs| == NDIRECT + 1 && s < SLOTS
  {
    Ref(d, i, s) != 0 && !Freed(h, i, s) ==> Ref(d, i, s) in own && own[Ref(d, i, s)] == (i, s)
  }

  ghost predicate OwnerOk(l: Layout, d: Disk, own: Owners, h: Cut, b: nat)
    requires b in own && Shape(l, d)
  {
    var (i, s) := own[b];
    l.nmeta <= b < l.size && i < l.ninodes && s < SLOTS && !Freed(h, i, s) && Ref(d, i, s) == b
  }

  ghost predicate Accounted(l: Layout, d: Disk, own: Owners, loose: set<nat>, b: nat)
    requires Shape(l, d) && b < l.size
  {
    BBlockInMeta(l, b);
    InUse(l, d.blk, b) <==> b < l.nmeta || b in own || b in loose
  }

  const NoCut: Cut := Cut(0, 0)

  // The blocks that are free to be allocated.
  ghost function FreeBlocks(l: Layout, d: Disk): set<nat>
    requires Shape(l, d)
  {
    set b | 0 <= b < l.size && BBlock(l, b) < |d.blk| && !InUse(l, d.blk, b)
  }

  // How many blocks a file block costs: none if it is there, one, or two if its list is missing too.
  function Price(d: Disk, i: nat, bn: nat): (n: nat)
    requires i < |d.ino| && |d.ino[i].addrs| == NDIRECT + 1 && bn < MAXFILE
    ensures n <= FullPrice(d.ino[i], bn)
  {
    if Addr(d, i, bn) != 0 then 0 else FullPrice(d.ino[i], bn)
  }

  lemma PriceIs(d: Disk, i: nat, bn: nat)
    requires i < |d.ino| && |d.ino[i].addrs| == NDIRECT + 1 && bn < MAXFILE
    ensures bn < NDIRECT ==> Price(d, i, bn) == (if d.ino[i].addrs[bn] != 0 then 0 else 1)
    ensures bn >= NDIRECT && d.ino[i].addrs[IND] == 0 ==> Price(d, i, bn) == 2
    ensures bn >= NDIRECT && d.ino[i].addrs[IND] != 0 ==>
              Price(d, i, bn) == (if Ref(d, i, SlotOf(bn)) != 0 then 0 else 1)
  {
  }

  // The same if it is not there.
  function FullPrice(n: Inode, bn: nat): nat
    requires |n.addrs| == NDIRECT + 1
  {
    if bn < NDIRECT || n.addrs[IND] != 0 then 1 else 2
  }

  // The invariant between two calls.
  ghost predicate Inv(l: Layout, d: Disk, own: Owners) { Shape(l, d) && Owned(l, d, own, {}, NoCut) }

  // ---------------------------------------------------------------- what changes references

  // Blocks that hold indirect blocks are all that Ref reads of the disk.
  lemma RefsKept(d: Disk, blk: seq<Block>, i: nat, s: nat)
    requires i < |d.ino| && |d.ino[i].addrs| == NDIRECT + 1 && s < SLOTS && |blk| == |d.blk|
    requires var a := d.ino[i].addrs[IND]; a != 0 && a < |d.blk| ==> blk[a] == d.blk[a]
    ensures Ref(d.(blk := blk), i, s) == Ref(d, i, s)
  {
  }

  // An inode's indirect block is owned, hence in use and not metadata.
  lemma IndirectOwned(l: Layout, d: Disk, own: Owners, loose: set<nat>, h: Cut, i: nat)
    requires Owned(l, d, own, loose, h) && i < l.ninodes && d.ino[i].addrs[IND] != 0
    ensures var a := d.ino[i].addrs[IND]; a in own && own[a] == (i, IND) && l.nmeta <= a < l.size && a !in loose
  {
    assert Ref(d, i, IND) == d.ino[i].addrs[IND];
    assert RefOk(d, own, h, i, IND);
    assert OwnerOk(l, d, own, h, d.ino[i].addrs[IND]);
  }

  // Changing metadata blocks, loose blocks or data blocks leaves every reference alone.
  lemma AllRefsKept(l: Layout, d: Disk, own: Owners, loose: set<nat>, h: Cut, blk: seq<Block>)
    requires Owned(l, d, own, loose, h) && |blk| == |d.blk|
    requires forall a :: a in own && own[a].1 == IND ==> a >= |blk| || blk[a] == d.blk[a]
    ensures forall i, s :: 0 <= i < l.ninodes && 0 <= s < SLOTS ==> Ref(d.(blk := blk), i, s) == Ref(d, i, s)
  {
    forall i, s | 0 <= i < l.ninodes && 0 <= s < SLOTS ensures Ref(d.(blk := blk), i, s) == Ref(d, i, s) {
      if d.ino[i].addrs[IND] != 0 { IndirectOwned(l, d, own, loose, h, i); }
      RefsKept(d, blk, i, s);
    }
  }

  // If the references are the same, ownership is a matter of the bitmap.
  lemma OwnedByBits(l: Layout, d: Disk, d': Disk, own: Owners, loose: set<nat>, loose': set<nat>, h: Cut)
    requires Owned(l, d, own, loose, h) && Shape(l, d')
    requires forall i, s :: 0 <= i < l.ninodes && 0 <= s < SLOTS ==> Ref(d', i, s) == Ref(d, i, s)
    requires forall b :: b in loose' ==> l.nmeta <= b < l.size && b !in own
    requires forall b :: 0 <= b < l.size ==> Accounted(l, d', own, loose', b)
    ensures Owned(l, d', own, loose', h)
  {
    forall i, s | 0 <= i < l.ninodes && 0 <= s < SLOTS ensures RefOk(d', own, h, i, s) {
      assert RefOk(d, own, h, i, s);
    }
    forall b | b in own ensures OwnerOk(l, d', own, h, b) {
      assert OwnerOk(l, d, own, h, b);
      var (i, s) := own[b];
      assert Ref(d', i, s) == Ref(d, i, s);
    }
  }

  // balloc marks and zeroes a free block: it becomes loose.
  lemma Allocated(l: Layout, d: Disk, own: Owners, loose: set<nat>, h: Cut, b: nat)
    requires Owned(l, d, own, loose, h) && b < l.size && BBlock(l, b) < |d.blk| && !InUse(l, d.blk, b)
    ensures l.nmeta <= b && b !in own && b !in loose
    ensures Owned(l, d.(blk := MarkBlk(l, d.blk, b)[b := Zeroes()]), own, loose + {b}, h)
    ensures forall i, s :: 0 <= i < l.ninodes && 0 <= s < SLOTS ==>
              Ref(d.(blk := MarkBlk(l, d.blk, b)[b := Zeroes()]), i, s) == Ref(d, i, s)
  {
    var blk := MarkBlk(l, d.blk, b)[b := Zeroes()];
    var d' := d.(blk := blk);
    assert Accounted(l, d, own, loose, b);
    BBlockInMeta(l, b);
    forall a | a in own ensures a < |blk| && blk[a] == d.blk[a] {
      assert OwnerOk(l, d, own, h, a);
      assert a != b && a != BBlock(l, b);
    }
    AllRefsKept(l, d, own, loose, h, blk);
    assert Shape(l, d');
    forall c | 0 <= c < l.size ensures Accounted(l, d', own, loose + {b}, c) {
      assert Accounted(l, d, own, loose, c);
      BBlockInMeta(l, c);
      InUseOfMark(l, d, b, c);
      assert blk[BBlock(l, c)] == MarkBlk(l, d.blk, b)[BBlock(l, c)];
    }
    OwnedByBits(l, d, d', own, loose, loose + {b}, h);
  }

  // A write to a data block or a loose block.
  lemma DataWritten(l: Layout, d: Disk, own: Owners, loose: set<nat>, h: Cut, b: nat, data: Block)
    requires Owned(l, d, own, loose, h) && b < l.size && |data| == BSIZE
    requires b in loose || (b in own && own[b].1 != IND)
    ensures Owned(l, d.(blk := d.blk[b := data]), own, loose, h)
    ensures forall i, s :: 0 <= i < l.ninodes && 0 <= s < SLOTS ==>
                             Ref(d.(blk := d.blk[b := data]), i, s) == Ref(d, i, s)
  {
    var blk := d.blk[b := data];
    var d' := d.(blk := blk);
    assert b in own ==> OwnerOk(l, d, own, h, b);
    AllRefsKept(l, d, own, loose, h, blk);
    assert Shape(l, d');
    forall c | 0 <= c < l.size ensures Accounted(l, d', own, loose, c) {
      assert Accounted(l, d, own, loose, c);
      BBlockInMeta(l, c);
    }
    OwnedByBits(l, d, d', own, loose, loose, h);
  }

  // ---------------------------------------------------------------- linking and unlinking

  function SetAddr(d: Disk, i: nat, s: nat, b: nat): (r: Disk)
    requires i < |d.ino| && s < |d.ino[i].addrs|
  {
    d.(ino := d.ino[i := d.ino[i].(addrs := d.ino[i].addrs[s := b])])
  }

  // bmap stores a loose block as a direct address, or a zeroed one as the indirect block.
  lemma LinkedAddr(l: Layout, d: Disk, own: Owners, loose: set<nat>, i: nat, s: nat, b: nat)
    requires Owned(l, d, own, loose, NoCut) && i < l.ninodes && s <= IND && Ref(d, i, s) == 0
    requires b in loose && (s == IND ==> d.blk[b] == Zeroes())
    ensures Owned(l, SetAddr(d, i, s, b), own[b := (i, s)], loose - {b}, NoCut)
    ensures forall j, t :: 0 <= j < l.ninodes && 0 <= t < SLOTS ==>
                             Ref(SetAddr(d, i, s, b), j, t) == if (j, t) == (i, s) then b else Ref(d, j, t)
  {
    var d', own', loose' := SetAddr(d, i, s, b), own[b := (i, s)], loose - {b};
    assert Shape(l, d');
    forall j, t | 0 <= j < l.ninodes && 0 <= t < SLOTS
      ensures Ref(d', j, t) == if (j, t) == (i, s) then b else Ref(d, j, t) {}
    forall j, t | 0 <= j < l.ninodes && 0 <= t < SLOTS ensures RefOk(d', own', NoCut, j, t) {
      assert RefOk(d, own, NoCut, j, t);
    }
    forall c | c in own' ensures OwnerOk(l, d', own', NoCut, c) {
      if c != b { assert OwnerOk(l, d, own, NoCut, c); var (j, t) := own[c]; assert Ref(d', j, t) == c; }
    }
    forall c | 0 <= c < l.size ensures Accounted(l, d', own', loose', c) { assert Accounted(l, d, own, loose, c); }
  }

  // bmap stores a loose block in entry j of the indirect block.
  lemma LinkedEntry(l: Layout, d: Disk, own: Owners, loose: set<nat>, i: nat, j: nat, b: nat)
    requires Owned(l, d, own, loose, NoCut) && i < l.ninodes && j < NINDIRECT && b in loose
    requires d.ino[i].addrs[IND] != 0 && Ref(d, i, IND + 1 + j) == 0
    ensures var a := d.ino[i].addrs[IND];
            && a < |d.blk| && |d.blk[a]| == BSIZE && b < 0x1_0000_0000
            && var d' := d.(blk := d.blk[a := PutWord(d.blk[a], j, b)]);
            && Owned(l, d', own[b := (i, IND + 1 + j)], loose - {b}, NoCut)
            && (forall k, t :: 0 <= k < l.ninodes && 0 <= t < SLOTS ==>
                                 Ref(d', k, t) == if (k, t) == (i, IND + 1 + j) then b else Ref(d, k, t))
  {
    IndirectOwned(l, d, own, loose, NoCut, i);
    var a := d.ino[i].addrs[IND];
    var d' := d.(blk := d.blk[a := PutWord(d.blk[a], j, b)]);
    var own', loose' := own[b := (i, IND + 1 + j)], loose - {b};
    assert Shape(l, d');
    forall k, t | 0 <= k < l.ninodes && 0 <= t < SLOTS
      ensures Ref(d', k, t) == if (k, t) == (i, IND + 1 + j) then b else Ref(d, k, t) {
      if k == i {
        if t > IND { WordOfPut(d.blk[a], j, b, t - IND - 1); }
      } else if d.ino[k].addrs[IND] != 0 {
        IndirectOwned(l, d, own, loose, NoCut, k);
      }
    }
    LinkedEntryOwned(l, d, d', own, loose, i, j, b);
  }

  lemma LinkedEntryOwned(l: Layout, d: Disk, d': Disk, own: Owners, loose: set<nat>, i: nat, j: nat, b: nat)
    requires Owned(l, d, own, loose, NoCut) && i < l.ninodes && j < NINDIRECT && b in loose && Shape(l, d')
    requires d.ino[i].addrs[IND] in own && d' == d.(blk := d.blk[d.ino[i].addrs[IND] := d'.blk[d.ino[i].addrs[IND]]])
    requires forall k, t :: 0 <= k < l.ninodes && 0 <= t < SLOTS ==>
                              Ref(d', k, t) == if (k, t) == (i, IND + 1 + j) then b else Ref(d, k, t)
    requires Ref(d, i, IND + 1 + j) == 0
    ensures Owned(l, d', own[b := (i, IND + 1 + j)], loose - {b}, NoCut)
  {
    var own', loose' := own[b := (i, IND + 1 + j)], loose - {b};
    assert OwnerOk(l, d, own, NoCut, d.ino[i].addrs[IND]);
    forall k, t | 0 <= k < l.ninodes && 0 <= t < SLOTS ensures RefOk(d', own', NoCut, k, t) {
      assert RefOk(d, own, NoCut, k, t);
    }
    forall c | c in own' ensures OwnerOk(l, d', own', NoCut, c) {
      if c != b { assert OwnerOk(l, d, own, NoCut, c); var (k, t) := own[c]; assert Ref(d', k, t) == c; }
      else { assert Ref(d', i, IND + 1 + j) == b; }
    }
    forall c | 0 <= c < l.size ensures Accounted(l, d', own', loose', c) {
      assert Accounted(l, d, own, loose, c);
      BBlockInMeta(l, c);
    }
  }

  // ---------------------------------------------------------------- freeing

  // bfree clears the bit of an owned block: with the block gone from own, all is accounted for.
  lemma BitCleared(l: Layout, d: Disk, own: Owners, loose: set<nat>, h: Cut, b: nat)
    requires Owned(l, d, own, loose, h) && b in own
    ensures b < l.size && BBlock(l, b) < |d.blk| && InUse(l, d.blk, b)
    ensures Shape(l, d.(blk := UnmarkBlk(l, d.blk, b)))
    ensures forall c :: 0 <= c < l.size ==> Accounted(l, d.(blk := UnmarkBlk(l, d.blk, b)), own - {b}, loose, c)
    ensures forall i, s :: 0 <= i < l.ninodes && 0 <= s < SLOTS ==>
                             Ref(d.(blk := UnmarkBlk(l, d.blk, b)), i, s) == Ref(d, i, s)
  {
    assert OwnerOk(l, d, own, h, b);
    assert Accounted(l, d, own, loose, b);
    BBlockInMeta(l, b);
    var blk := UnmarkBlk(l, d.blk, b);
    var d' := d.(blk := blk);
    assert Shape(l, d');
    forall c | 0 <= c < l.size ensures Accounted(l, d', own - {b}, loose, c) {
      assert Accounted(l, d, own, loose, c);
      InUseOfUnmark(l, d, b, c);
    }
    forall a | a in own ensures a < |blk| && blk[a] == d.blk[a] { assert OwnerOk(l, d, own, h, a); }
    AllRefsKept(l, d, own, loose, h, blk);
  }

  // itrunc frees a direct block and clears its address.
  lemma FreedDirect(l: Layout, d: Disk, own: Owners, i: nat, s: nat)
    requires Owned(l, d, own, {}, NoCut) && i < l.ninodes && s < IND && Ref(d, i, s) != 0
    ensures var b := Ref(d, i, s);
            && b in own && b < l.size && BBlock(l, b) < |d.blk| && InUse(l, d.blk, b)
            && var d' := SetAddr(d.(blk := UnmarkBlk(l, d.blk, b)), i, s, 0);
            && Owned(l, d', own - {b}, {}, NoCut)
            && (forall j, t :: 0 <= j < l.ninodes && 0 <= t < SLOTS ==>
                                 Ref(d', j, t) == if (j, t) == (i, s) then 0 else Ref(d, j, t))
  {
    var b := Ref(d, i, s);
    assert RefOk(d, own, NoCut, i, s);
    BitCleared(l, d, own, {}, NoCut, b);
    var d1 := d.(blk := UnmarkBlk(l, d.blk, b));
    var d' := SetAddr(d1, i, s, 0);
    assert Shape(l, d');
    forall j, t | 0 <= j < l.ninodes && 0 <= t < SLOTS
      ensures Ref(d', j, t) == if (j, t) == (i, s) then 0 else Ref(d, j, t) {
      assert Ref(d1, j, t) == Ref(d, j, t);
    }
    forall c | 0 <= c < l.size ensures Accounted(l, d', own - {b}, {}, c) { assert Accounted(l, d1, own - {b}, {}, c); }
    FreedOwned(l, d, d', own, NoCut, NoCut, i, s);
  }

  // One reference disappears, and its block with it.
  lemma FreedOwned(l: Layout, d: Disk, d': Disk, own: Owners, h: Cut, h': Cut, i: nat, s: nat)
    requires Owned(l, d, own, {}, h) && Shape(l, d') && i < l.ninodes && s < SLOTS && Ref(d, i, s) in own
             && own[Ref(d, i, s)] == (i, s)
    requires forall j, t :: 0 <= j < l.ninodes && 0 <= t < SLOTS && !Freed(h', j, t) && Ref(d', j, t) != 0
               ==> (j, t) != (i, s) && !Freed(h, j, t) && Ref(d', j, t) == Ref(d, j, t)
    requires forall j, t :: 0 <= j < l.ninodes && 0 <= t < SLOTS && !Freed(h, j, t) && (j, t) != (i, s) ==>
                              !Freed(h', j, t) && Ref(d', j, t) == Ref(d, j, t)
    requires forall c :: 0 <= c < l.size ==> Accounted(l, d', own - {Ref(d, i, s)}, {}, c)
    ensures Owned(l, d', own - {Ref(d, i, s)}, {}, h')
  {
    var b := Ref(d, i, s);
    var own' := own - {b};
    forall j, t | 0 <= j < l.ninodes && 0 <= t < SLOTS ensures RefOk(d', own', h', j, t) {
      assert RefOk(d, own, h, j, t);
    }
    forall c | c in own' ensures OwnerOk(l, d', own', h', c) {
      assert OwnerOk(l, d, own, h, c);
      var (j, t) := own[c];
      assert Ref(d, j, t) == c;
    }
  }

  // itrunc frees entry j of the indirect block; the entry itself stays in the block.
  lemma FreedEntry(l: Layout, d: Disk, own: Owners, i: nat, j: nat)
    requires Owned(l, d, own, {}, Cut(i, j)) && i < l.ninodes && j < NINDIRECT
    ensures var b := Ref(d, i, IND + 1 + j);
            if b == 0 then Owned(l, d, own, {}, Cut(i, j + 1))
            else
              && b in own && b < l.size && BBlock(l, b) < |d.blk| && InUse(l, d.blk, b)
              && Owned(l, d.(blk := UnmarkBlk(l, d.blk, b)), own - {b}, {}, Cut(i, j + 1))
              && (forall k, t :: 0 <= k < l.ninodes && 0 <= t < SLOTS ==>
                                   Ref(d.(blk := UnmarkBlk(l, d.blk, b)), k, t) == Ref(d, k, t))
  {
    var b := Ref(d, i, IND + 1 + j);
    assert RefOk(d, own, Cut(i, j), i, IND + 1 + j);
    if b != 0 {
      BitCleared(l, d, own, {}, Cut(i, j), b);
      FreedOwned(l, d, d.(blk := UnmarkBlk(l, d.blk, b)), own, Cut(i, j), Cut(i, j + 1), i, IND + 1 + j);
    } else {
      var h' := Cut(i, j + 1);
      forall k, t | 0 <= k < l.ninodes && 0 <= t < SLOTS ensures RefOk(d, own, h', k, t) {
        assert RefOk(d, own, Cut(i, j), k, t);
      }
      forall c | c in own ensures OwnerOk(l, d, own, h', c) { assert OwnerOk(l, d, own, Cut(i, j), c); }
    }
  }

  // itrunc frees the indirect block once all its entries are freed.
  lemma FreedIndirect(l: Layout, d: Disk, own: Owners, i: nat)
    requires Owned(l, d, own, {}, Cut(i, NINDIRECT)) && i < l.ninodes && d.ino[i].addrs[IND] != 0
    ensures var a := d.ino[i].addrs[IND];
            && a in own && a < l.size && BBlock(l, a) < |d.blk| && InUse(l, d.blk, a)
            && var d' := SetAddr(d.(blk := UnmarkBlk(l, d.blk, a)), i, IND, 0);
            && Owned(l, d', own - {a}, {}, NoCut)
            && (forall j, t :: 0 <= j < l.ninodes && 0 <= t < SLOTS ==>
                                 Ref(d', j, t) == if j == i && t >= IND then 0 else Ref(d, j, t))
  {
    var h := Cut(i, NINDIRECT);
    var a := d.ino[i].addrs[IND];
    IndirectOwned(l, d, own, {}, h, i);
    BitCleared(l, d, own, {}, h, a);
    var d1 := d.(blk := UnmarkBlk(l, d.blk, a));
    var d' := SetAddr(d1, i, IND, 0);
    assert Shape(l, d');
    forall j, t | 0 <= j < l.ninodes && 0 <= t < SLOTS
      ensures Ref(d', j, t) == if j == i && t >= IND then 0 else Ref(d, j, t) {
      assert Ref(d1, j, t) == Ref(d, j, t);
    }
    forall c | 0 <= c < l.size ensures Accounted(l, d', own - {a}, {}, c) { assert Accounted(l, d1, own - {a}, {}, c); }
    FreedOwned(l, d, d', own, h, NoCut, i, IND);
  }
}
