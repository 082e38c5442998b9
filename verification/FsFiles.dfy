/** kernel/fs.c: the block allocator and the contents of files, on the logical block map that
    the log and the buffer cache provide. */
module FsFiles {
  import opened FsBytes
  import opened FsDisk

  // What allocating block a gives to log_write: its bitmap block and, to zero it, itself.
  function Uses(l: Layout, a: nat): (r: set<nat>) { if a == 0 then {} else {a, BBlock(l, a)} }

  // A disk whose bitmap is one block, as mkfs makes it.
  ghost predicate OneBitmap(l: Layout) { l.size <= BPB }

  lemma OneBit(l: Layout, a: nat)
    requires OneBitmap(l) && a < l.size
    ensures BBlock(l, a) == l.bmapstart
  {
  }

  // Every block of d keeps its owner in d', and every data block its contents.
  ghost predicate DataKept(d: Disk, d': Disk, own: Owners, own': Owners) {
    && |d'.blk| == |d.blk|
    && (forall b :: b in own ==> b in own' && own'[b] == own[b])
    && (forall b :: b in own && own[b].1 != IND && b < |d.blk| ==> d'.blk[b] == d.blk[b])
  }

  // Inodes other than i are untouched, and i keeps all but its addresses.
  ghost predicate OnlyAddrs(d: Disk, d': Disk, i: nat) {
    && |d'.ino| == |d.ino| && i < |d.ino|
    && d'.ino == d.ino[i := d.ino[i].(addrs := d'.ino[i].addrs)]
  }

  // ---------------------------------------------------------------- what changed was logged

  // The blocks behind the log: inodes, bitmap and data.
  predicate FsBlock(l: Layout, b: nat) { l.inodestart <= b < l.size }

  // Every block and every inode that changed from d to d' has its block in s', except the blocks in
  // xb and the inodes in xi; and s' is s with blocks of the file system.
  ghost predicate Noted(l: Layout, d: Disk, d': Disk, s: set<nat>, s': set<nat>, xb: set<nat>, xi: set<nat>) {
    && s <= s' && (forall b :: b in s' ==> b in s || FsBlock(l, b)) && |d'.blk| == |d.blk| && |d'.ino| == |d.ino|
    && (forall b: nat :: b < |d.blk| && b !in s' && b !in xb ==> d'.blk[b] == d.blk[b])
    && (forall i: nat :: i < |d.ino| && IBlock(l, i) !in s' && i !in xi ==> d'.ino[i] == d.ino[i])
  }

  lemma NotedSame(l: Layout, d: Disk, s: set<nat>, xb: set<nat>, xi: set<nat>)
    ensures Noted(l, d, d, s, s, xb, xi)
  {
  }

  lemma NotedTwice(l: Layout, d: Disk, d1: Disk, d2: Disk, s: set<nat>, s1: set<nat>, s2: set<nat>, xb: set<nat>,
                   xi: set<nat>)
    requires Noted(l, d, d1, s, s1, xb, xi) && Noted(l, d1, d2, s1, s2, xb, xi)
    ensures Noted(l, d, d2, s, s2, xb, xi)
  {
  }

  lemma NotedWider(l: Layout, d: Disk, d': Disk, s: set<nat>, s': set<nat>, xb: set<nat>, xi: set<nat>, yb: set<nat>,
                   yi: set<nat>)
    requires Noted(l, d, d', s, s', xb, xi) && xb <= yb && xi <= yi
    ensures Noted(l, d, d', s, s', yb, yi)
  {
  }

  // log_write after a block was changed.
  lemma NotedBlock(l: Layout, d: Disk, s: set<nat>, b: nat, data: Block)
    requires b < |d.blk| && FsBlock(l, b)
    ensures Noted(l, d, d.(blk := d.blk[b := data]), s, s + {b}, {}, {})
  {
  }

  // An inode that is changed in memory only, and iupdate.
  lemma NotedLater(l: Layout, d: Disk, s: set<nat>, i: nat, n: Inode)
    requires i < |d.ino|
    ensures Noted(l, d, d.(ino := d.ino[i := n]), s, s, {}, {i})
  {
  }

  lemma NotedInode(l: Layout, d: Disk, d': Disk, s: set<nat>, s': set<nat>, xb: set<nat>, i: nat)
    requires Noted(l, d, d', s, s', xb, {i}) && LayoutOk(l) && i < l.ninodes
    ensures Noted(l, d, d', s, s' + {IBlock(l, i)}, xb, {})
  {
  }

  // An address of inode i is cleared in memory.
  lemma ClearedNoted(l: Layout, d: Disk, d': Disk, s: set<nat>, s': set<nat>, i: nat, t: nat)
    requires Noted(l, d, d', s, s', {}, {}) && i < |d'.ino| && t < |d'.ino[i].addrs|
    ensures Noted(l, d, SetAddr(d', i, t, 0), s, s', {}, {i})
  {
  }

  // b is the first block of a bitmap block.
  predicate Aligned(b: nat) { b % BPB == 0 }

  lemma FirstAligned()
    ensures Aligned(0)
  {
  }

  lemma NextAligned(b: nat)
    requires Aligned(b)
    ensures Aligned(b + BPB)
  {
  }

  // Bit bi of the bitmap block for b is that of block b + bi.
  lemma BitOf(l: Layout, d: Disk, b: nat, bi: nat)
    requires Shape(l, d) && Aligned(b) && bi < BPB && b + bi < l.size
    ensures BBlock(l, b + bi) == BBlock(l, b) < |d.blk| && |d.blk[BBlock(l, b)]| == BSIZE
    ensures InUse(l, d.blk, b + bi) <==> Marked(d.blk[BBlock(l, b)], bi)
  {
    hide Marked;
    SplitBit(b, bi);
    BBlockInMeta(l, b);
  }

  // Block 0 is metadata.
  lemma BootInUse(l: Layout, d: Disk, own: Owners, loose: set<nat>, h: Cut)
    requires Owned(l, d, own, loose, h)
    ensures Shape(l, d) && BBlock(l, 0) < |d.blk| && InUse(l, d.blk, 0)
  {
    BBlockInMeta(l, 0);
    assert Accounted(l, d, own, loose, 0);
  }

  lemma KeptTwice(d: Disk, d1: Disk, d2: Disk, own: Owners, own1: Owners, own2: Owners)
    requires DataKept(d, d1, own, own1) && DataKept(d1, d2, own1, own2)
    ensures DataKept(d, d2, own, own2)
  {
  }

  lemma StillOwned(d: Disk, d': Disk, own: Owners, own': Owners, b: nat)
    requires DataKept(d, d', own, own')
    ensures b in own ==> b in own'
  {
  }

  lemma KeptAll(d: Disk, own: Owners)
    ensures DataKept(d, d, own, own)
  {
  }

  lemma EntryIs(d: Disk, i: nat, j: nat)
    requires i < |d.ino| && |d.ino[i].addrs| == NDIRECT + 1 && j < NINDIRECT
    requires var a := d.ino[i].addrs[IND]; a != 0 && a < |d.blk| && |d.blk[a]| == BSIZE
    ensures Ref(d, i, IND + 1 + j) == Word(d.blk[d.ino[i].addrs[IND]], j)
  {
  }

  // The block that balloc took, d1, becomes address s of inode i.
  lemma AddrMade(l: Layout, d: Disk, d1: Disk, own: Owners, i: nat, s: nat, b: nat)
    requires Inv(l, d, own) && i < l.ninodes && s <= IND && d.ino[i].addrs[s] == 0 && b !in own
    requires l.nmeta <= b < l.size && BBlock(l, b) < |d.blk| && d1 == d.(blk := MarkBlk(l, d.blk, b)[b := Zeroes()])
    requires Owned(l, d1, own, {} + {b}, NoCut)
    requires forall k, t :: 0 <= k < l.ninodes && 0 <= t < SLOTS ==> Ref(d1, k, t) == Ref(d, k, t)
    ensures var d2, own2 := SetAddr(d1, i, s, b), own[b := (i, s)];
            && Inv(l, d2, own2) && OnlyAddrs(d, d2, i) && DataKept(d, d2, own, own2) && d2.blk[b] == Zeroes()
            && d2.ino[i].addrs[s] == b
            && forall j, t :: 0 <= j < l.ninodes && 0 <= t < SLOTS && (j, t) != (i, s) ==> Ref(d2, j, t) == Ref(d, j, t)
  {
    hide Mark;
    assert Ref(d1, i, s) == 0 && b in {} + {b};
    LinkedAddr(l, d1, own, {} + {b}, i, s, b);
    assert {} + {b} - {b} == {};
    BBlockInMeta(l, b);
    forall c | c in own ensures l.nmeta <= c < l.size { assert OwnerOk(l, d, own, NoCut, c); }
    hide Owned, Ref;
  }

  lemma OneMore(own: Owners, b: nat, v: (nat, nat))
    requires b !in own
    ensures |own[b := v]| == |own| + 1
  {
    assert own[b := v].Keys == own.Keys + {b};
  }

  // The block that balloc took, d1, becomes entry j of the indirect block of inode i.
  lemma EntryMade(l: Layout, d: Disk, d1: Disk, own: Owners, i: nat, j: nat, b: nat)
    requires Inv(l, d, own) && i < l.ninodes && j < NINDIRECT && d.ino[i].addrs[IND] != 0 && b !in own
    requires l.nmeta <= b < l.size && BBlock(l, b) < |d.blk| && d1 == d.(blk := MarkBlk(l, d.blk, b)[b := Zeroes()])
    requires Owned(l, d1, own, {} + {b}, NoCut) && Ref(d, i, IND + 1 + j) == 0
    requires forall k, t :: 0 <= k < l.ninodes && 0 <= t < SLOTS ==> Ref(d1, k, t) == Ref(d, k, t)
    ensures var a := d.ino[i].addrs[IND];
            && a < |d1.blk| && a != b && |d1.blk[a]| == BSIZE && b < 0x1_0000_0000 && FsBlock(l, a)
            && var d2, own2 := d1.(blk := d1.blk[a := PutWord(d1.blk[a], j, b)]), own[b := (i, IND + 1 + j)];
               && Inv(l, d2, own2) && DataKept(d, d2, own, own2) && d2.blk[b] == Zeroes()
               && forall k, t :: 0 <= k < l.ninodes && 0 <= t < SLOTS ==>
                                   Ref(d2, k, t) == if (k, t) == (i, IND + 1 + j) then b else Ref(d, k, t)
  {
    hide Ref, Word, PutWord, Mark;
    IndirectOwned(l, d, own, {}, NoCut, i);
    LinkedEntry(l, d1, own, {} + {b}, i, j, b);
    assert {} + {b} - {b} == {};
    BBlockInMeta(l, b);
    forall c | c in own ensures l.nmeta <= c < l.size { assert OwnerOk(l, d, own, NoCut, c); }
    hide Owned;
  }

  class FileSystem {
    const l: Layout
    var d: Disk
    ghost var own: Owners        // the place that refers to each allocated block
    var logged: set<nat>         // the blocks given to log_write so far

    constructor (l: Layout, d: Disk, ghost own: Owners)
      requires Inv(l, d, own)
      ensures this.l == l && this.d == d && this.own == own && logged == {}
    {
      this.l := l;
      this.d := d;
      this.own := own;
      logged := {};
    }

    // The search of balloc: the first block whose bit is clear, or 0 when there is none.
    method FirstFree() returns (r: nat)
      requires Shape(l, d) && BBlock(l, 0) < |d.blk| && InUse(l, d.blk, 0)
      ensures r < l.size
      ensures r == 0 ==> forall c :: 0 <= c < l.size ==> BBlock(l, c) < |d.blk| && InUse(l, d.blk, c)
      ensures r != 0 ==> BBlock(l, r) < |d.blk| && !InUse(l, d.blk, r)
      ensures r != 0 ==> forall c :: 0 <= c < r ==> BBlock(l, c) < |d.blk| && InUse(l, d.blk, c)
    {
      hide BBlock, InUse, Marked, Aligned;
      FirstAligned();
      var b := 0;
      while b < l.size
        invariant Aligned(b)
        invariant forall c :: 0 <= c < b && c < l.size ==> BBlock(l, c) < |d.blk| && InUse(l, d.blk, c)
        decreases l.size - b
      {
        BitOf(l, d, b, 0);
        var bp := d.blk[BBlock(l, b)];
        var bi := 0;
        while bi < BPB && b + bi < l.size
          invariant bi <= BPB
          invariant forall c :: 0 <= c < b + bi && c < l.size ==> BBlock(l, c) < |d.blk| && InUse(l, d.blk, c)
        {
          BitOf(l, d, b, bi);
          if !Marked(bp, bi) { return b + bi; }
          bi := bi + 1;
        }
        NextAligned(b);
        b := b + BPB;
      }
      r := 0;
    }

    // Allocate a zeroed block.  It is loose until the caller links it.
    method Balloc(ghost loose: set<nat>, ghost h: Cut) returns (r: nat)
      requires Owned(l, d, own, loose, h)
      modifies this`d, this`logged
      ensures r == 0 ==> d == old(d) && logged == old(logged)
                         && forall c :: 0 <= c < l.size ==> BBlock(l, c) < |d.blk| && InUse(l, d.blk, c)
      ensures r != 0 ==> l.nmeta <= r < l.size && BBlock(l, r) < |old(d).blk| && !InUse(l, old(d).blk, r)
      ensures r != 0 ==> forall c :: 0 <= c < r ==> BBlock(l, c) < |old(d).blk| && InUse(l, old(d).blk, c)
      ensures r != 0 ==> d == old(d).(blk := MarkBlk(l, old(d).blk, r)[r := Zeroes()])
      ensures r != 0 ==> logged == old(logged) + {BBlock(l, r), r}
      ensures r != 0 ==> r !in own && r !in loose && Owned(l, d, own, loose + {r}, h)
      ensures forall i, s :: 0 <= i < l.ninodes && 0 <= s < SLOTS ==> Ref(d, i, s) == Ref(old(d), i, s)
      ensures Noted(l, old(d), d, old(logged), logged, {}, {})
    {
      hide Noted, Owned, Ref, Mark, Marked;
      NotedSame(l, d, logged, {}, {});
      BootInUse(l, d, own, loose, h);
      r := FirstFree();
      if r != 0 {
        BBlockInMeta(l, r);
        Allocated(l, d, own, loose, h, r);
        NotedBlock(l, d, logged, BBlock(l, r), MarkBlk(l, d.blk, r)[BBlock(l, r)]);
        d := d.(blk := MarkBlk(l, d.blk, r));
        logged := logged + {BBlock(l, r)};
        NotedBlock(l, d, logged, r, Zeroes());
        ghost var d1, s1 := d, logged;
        d := d.(blk := d.blk[r := Zeroes()]);
        logged := logged + {r};
        NotedTwice(l, old(d), d1, d, old(logged), s1, logged, {}, {});
      }
    }

    // Clear a block's bit; freeing a free block panics.
    method Bfree(b: nat) returns (panic: bool)
      requires Shape(l, d) && b < l.size && BBlock(l, b) < |d.blk|
      modifies this`d, this`logged
      ensures panic <==> !InUse(l, old(d).blk, b)
      ensures panic ==> d == old(d) && logged == old(logged)
      ensures !panic ==> d == old(d).(blk := UnmarkBlk(l, old(d).blk, b)) && logged == old(logged) + {BBlock(l, b)}
      ensures Noted(l, old(d), d, old(logged), logged, {}, {})
    {
      hide Noted, Marked, Unmark;
      NotedSame(l, d, logged, {}, {});
      BBlockInMeta(l, b);
      var bp := d.blk[BBlock(l, b)];
      var bi := b % BPB;
      if !Marked(bp, bi) { return true; }
      NotedBlock(l, d, logged, BBlock(l, b), Unmark(bp, bi));
      d := d.(blk := d.blk[BBlock(l, b) := Unmark(bp, bi)]);
      logged := logged + {BBlock(l, b)};
      panic := false;
    }

    // bmap for one address of the inode itself: return it, allocating a block if there is none.
    method MapAddr(i: nat, s: nat) returns (addr: nat)
      requires Inv(l, d, own) && i < l.ninodes && s <= IND
      modifies this
      ensures Inv(l, d, own) && OnlyAddrs(old(d), d, i) && DataKept(old(d), d, old(own), own)
      ensures addr == d.ino[i].addrs[s]
      ensures old(d).ino[i].addrs[s] != 0 ==> d == old(d) && own == old(own) && logged == old(logged)
      ensures old(d).ino[i].addrs[s] == 0 && addr != 0 ==> |own| == |old(own)| + 1
      ensures addr == 0 ==> d == old(d) && own == old(own) && logged == old(logged)
                            && forall c :: 0 <= c < l.size ==> BBlock(l, c) < |d.blk| && InUse(l, d.blk, c)
      ensures forall j, t :: 0 <= j < l.ninodes && 0 <= t < SLOTS && (j, t) != (i, s) ==>
                               Ref(d, j, t) == Ref(old(d), j, t)
      ensures old(d).ino[i].addrs[s] == 0 && addr != 0 ==> addr < l.size && d.blk[addr] == Zeroes() && addr !in old(own)
      ensures logged <= old(logged) + Uses(l, addr)
      ensures Noted(l, old(d), d, old(logged), logged, {}, {i})
    {
      hide Noted, Owned, Ref, MarkBlk, DataKept;
      NotedSame(l, d, logged, {}, {i});
      KeptAll(d, own);
      addr := d.ino[i].addrs[s];
      if addr == 0 {
        addr := Balloc({}, NoCut);
        if addr != 0 {
          NotedWider(l, old(d), d, old(logged), logged, {}, {}, {}, {i});
          NotedLater(l, d, logged, i, SetAddr(d, i, s, addr).ino[i]);
          NotedTwice(l, old(d), d, SetAddr(d, i, s, addr), old(logged), logged, logged, {}, {i});
          AddrMade(l, old(d), d, own, i, s, addr);
          OneMore(own, addr, (i, s));
          d := SetAddr(d, i, s, addr);
          own := own[addr := (i, s)];
        }
      }
    }

    // bmap for one entry of an existing indirect block.
    method MapEntry(i: nat, j: nat) returns (addr: nat)
      requires Inv(l, d, own) && i < l.ninodes && j < NINDIRECT && d.ino[i].addrs[IND] != 0
      modifies this
      ensures Inv(l, d, own) && d.ino == old(d).ino && DataKept(old(d), d, old(own), own)
      ensures addr == Ref(d, i, IND + 1 + j)
      ensures Ref(old(d), i, IND + 1 + j) != 0 ==> d == old(d) && own == old(own) && logged == old(logged)
      ensures Ref(old(d), i, IND + 1 + j) == 0 && addr != 0 ==> |own| == |old(own)| + 1
      ensures addr == 0 ==> d == old(d) && own == old(own) && logged == old(logged)
                            && forall c :: 0 <= c < l.size ==> BBlock(l, c) < |d.blk| && InUse(l, d.blk, c)
      ensures forall k, t :: 0 <= k < l.ninodes && 0 <= t < SLOTS && (k, t) != (i, IND + 1 + j) ==>
                               Ref(d, k, t) == Ref(old(d), k, t)
      ensures Ref(old(d), i, IND + 1 + j) == 0 && addr != 0 ==>
                addr < l.size && d.blk[addr] == Zeroes() && addr !in old(own)
      ensures logged <= old(logged) + Uses(l, addr) + Uses(l, d.ino[i].addrs[IND])
      ensures Noted(l, old(d), d, old(logged), logged, {}, {})
    {
      hide Noted, Owned, Ref, Word, PutWord, MarkBlk, DataKept;
      NotedSame(l, d, logged, {}, {});
      KeptAll(d, own);
      IndirectOwned(l, d, own, {}, NoCut, i);
      EntryIs(d, i, j);
      var ind := d.ino[i].addrs[IND];
      addr := Word(d.blk[ind], j);
      if addr == 0 {
        addr := Balloc({}, NoCut);
        if addr != 0 {
          EntryMade(l, old(d), d, own, i, j, addr);
          ghost var d1, s1 := d, logged;
          NotedBlock(l, d, logged, ind, PutWord(d.blk[ind], j, addr));
          d := d.(blk := d.blk[ind := PutWord(d.blk[ind], j, addr)]);
          logged := logged + {ind};
          NotedTwice(l, old(d), d1, d, old(logged), s1, logged, {}, {});
          OneMore(own, addr, (i, IND + 1 + j));
          own := own[addr := (i, IND + 1 + j)];
        }
      }
    }

    // The disk block of file block bn, allocated if there is none; 0 when the disk is full.
    method Bmap(i: nat, bn: nat) returns (addr: nat)
      requires Inv(l, d, own) && i < l.ninodes && bn < MAXFILE
      modifies this
      ensures Inv(l, d, own) && OnlyAddrs(old(d), d, i) && DataKept(old(d), d, old(own), own)
      ensures addr == Addr(d, i, bn) && (addr == 0 && bn < NDIRECT ==> d == old(d))
      ensures if addr == 0 then |own| < |old(own)| + Price(old(d), i, bn)
              else |own| == |old(own)| + Price(old(d), i, bn)
      ensures Addr(old(d), i, bn) != 0 ==> d == old(d) && own == old(own) && logged == old(logged)
      ensures addr == 0 ==> forall c :: 0 <= c < l.size ==> BBlock(l, c) < |d.blk| && InUse(l, d.blk, c)
      ensures forall j, t :: 0 <= j < l.ninodes && 0 <= t < SLOTS
                             && (j != i || (t != SlotOf(bn) && t != IND) || Ref(old(d), j, t) != 0)
                ==> Ref(d, j, t) == Ref(old(d), j, t)
      ensures Addr(old(d), i, bn) == 0 && addr != 0 ==> addr < l.size && d.blk[addr] == Zeroes() && addr !in old(own)
      ensures logged <= old(logged) + Uses(l, addr) + Uses(l, d.ino[i].addrs[IND])
      ensures Noted(l, old(d), d, old(logged), logged, {}, {i})
    {
      hide Owned, Noted, Price, DataKept, Ref, FullPrice;
      PriceIs(d, i, bn);
      AddrIs(d, i, bn);
      if bn < NDIRECT {
        addr := MapAddr(i, bn);
        AddrIs(d, i, bn);
      } else {
        var ind := MapAddr(i, IND);
        AddrIs(d, i, bn);
        if ind == 0 { return 0; }
        ghost var d1, own1, s1 := d, own, logged;
        addr := MapEntry(i, bn - NDIRECT);
        AddrIs(d, i, bn);
        NotedWider(l, d1, d, s1, logged, {}, {}, {}, {i});
        NotedTwice(l, old(d), d1, d, old(logged), s1, logged, {}, {i});
        KeptTwice(old(d), d1, d, old(own), own1, own);
        StillOwned(old(d), d1, old(own), own1, addr);
      }
    }

    // Free one direct block of inode i, if there is one.
    method FreeDirect(i: nat, s: nat) returns (panic: bool)
      requires Inv(l, d, own) && i < l.ninodes && s < NDIRECT
      modifies this
      ensures !panic && Inv(l, d, own) && OnlyAddrs(old(d), d, i) && Disowned(old(d), d, old(own), own, i)
      ensures forall j, t :: 0 <= j < l.ninodes && 0 <= t < SLOTS ==>
                               Ref(d, j, t) == if (j, t) == (i, s) then 0 else Ref(old(d), j, t)
      ensures OneBitmap(l) ==> logged <= old(logged) + {l.bmapstart}
      ensures Noted(l, old(d), d, old(logged), logged, {}, {i})
    {
      hide Noted;
      NotedSame(l, d, logged, {}, {i});
      panic := false;
      var b := d.ino[i].addrs[s];
      assert b == Ref(d, i, s);
      if b != 0 {
        FreedDirect(l, d, own, i, s);
        assert own[b] == (i, s) by { assert RefOk(d, own, NoCut, i, s); }
        panic := Bfree(b);
        if OneBitmap(l) { OneBit(l, b); }
        ClearedNoted(l, old(d), d, old(logged), logged, i, s);
        d := SetAddr(d, i, s, 0);
        own := own - {b};
        UnmarkKeeps(l, old(d), old(own), NoCut, b);
      }
    }

    // Free the blocks that the indirect block of inode i lists.
    method FreeEntries(i: nat, ind: nat) returns (panic: bool)
      requires Inv(l, d, own) && i < l.ninodes && d.ino[i].addrs[IND] == ind != 0
      modifies this
      ensures !panic && Owned(l, d, own, {}, Cut(i, NINDIRECT)) && Shape(l, d)
      ensures d.ino == old(d).ino && Disowned(old(d), d, old(own), own, i) && ind in own
      ensures forall k, t :: 0 <= k < l.ninodes && 0 <= t < SLOTS ==> Ref(d, k, t) == Ref(old(d), k, t)
      ensures OneBitmap(l) ==> logged <= old(logged) + {l.bmapstart}
      ensures Noted(l, old(d), d, old(logged), logged, {}, {})
    {
      hide Owned, Ref, Noted;
      NotedSame(l, d, logged, {}, {});
      panic := false;
      IndirectOwned(l, d, own, {}, NoCut, i);
      CutNothing(l, d, own, i);
      for j := 0 to NINDIRECT
        invariant !panic && Owned(l, d, own, {}, Cut(i, j)) && Shape(l, d)
        invariant d.ino == old(d).ino && Disowned(old(d), d, old(own), own, i) && ind in own
        invariant forall k, t :: 0 <= k < l.ninodes && 0 <= t < SLOTS ==> Ref(d, k, t) == Ref(old(d), k, t)
        invariant OneBitmap(l) ==> logged <= old(logged) + {l.bmapstart}
        invariant Noted(l, old(d), d, old(logged), logged, {}, {})
      {
        ghost var d1, s1 := d, logged;
        panic := FreeEntry(i, ind, j);
        NotedTwice(l, old(d), d1, d, old(logged), s1, logged, {}, {});
      }
    }

    // Free the blocks that the indirect block lists, then the indirect block.
    method FreeIndirect(i: nat) returns (panic: bool)
      requires Inv(l, d, own) && i < l.ninodes
      modifies this
      ensures !panic && Inv(l, d, own) && OnlyAddrs(old(d), d, i) && Disowned(old(d), d, old(own), own, i)
      ensures forall j, t :: 0 <= j < l.ninodes && 0 <= t < SLOTS ==>
                               Ref(d, j, t) == if j == i && t >= IND then 0 else Ref(old(d), j, t)
      ensures OneBitmap(l) ==> logged <= old(logged) + {l.bmapstart}
      ensures Noted(l, old(d), d, old(logged), logged, {}, {i})
    {
      hide Noted, Owned, Ref, OneBitmap, UnmarkBlk, InUse, BBlock;
      panic := false;
      var ind := d.ino[i].addrs[IND];
      if ind == 0 {
        NoIndirect(l, d, i);
        NotedSame(l, d, logged, {}, {i});
        return;
      }
      panic := FreeEntries(i, ind);
      FreedIndirect(l, d, own, i);
      IndirectOwned(l, d, own, {}, Cut(i, NINDIRECT), i);
      ghost var d1, own1, s1 := d, own, logged;
      panic := Bfree(ind);
      NotedTwice(l, old(d), d1, d, old(logged), s1, logged, {}, {});
      ClearedNoted(l, old(d), d, old(logged), logged, i, IND);
      if OneBitmap(l) { OneBit(l, ind); }
      d := SetAddr(d, i, IND, 0);
      own := own - {ind};
      UnmarkKeeps(l, d1, own1, Cut(i, NINDIRECT), ind);
    }

    method FreeEntry(i: nat, ind: nat, j: nat) returns (panic: bool)
      requires Owned(l, d, own, {}, Cut(i, j)) && i < l.ninodes && j < NINDIRECT && d.ino[i].addrs[IND] == ind != 0
               && ind in own
      modifies this
      ensures !panic && Owned(l, d, own, {}, Cut(i, j + 1)) && Shape(l, d)
      ensures d.ino == old(d).ino && Disowned(old(d), d, old(own), own, i) && ind in own
              && d.blk[ind] == old(d).blk[ind]
      ensures forall k, t :: 0 <= k < l.ninodes && 0 <= t < SLOTS ==> Ref(d, k, t) == Ref(old(d), k, t)
      ensures OneBitmap(l) ==> logged <= old(logged) + {l.bmapstart}
      ensures Noted(l, old(d), d, old(logged), logged, {}, {})
    {
      hide Noted;
      NotedSame(l, d, logged, {}, {});
      panic := false;
      IndirectOwned(l, d, own, {}, Cut(i, j), i);
      var b := Word(d.blk[ind], j);
      assert b == Ref(d, i, IND + 1 + j);
      FreedEntry(l, d, own, i, j);
      if b != 0 {
        assert own[b] == (i, IND + 1 + j) by { assert RefOk(d, own, Cut(i, j), i, IND + 1 + j); }
        panic := Bfree(b);
        if OneBitmap(l) { OneBit(l, b); }
        own := own - {b};
        UnmarkKeeps(l, old(d), old(own), Cut(i, j), b);
      }
    }

    // Discard a file's contents: every block it owned is free again, and only those.
    method Itrunc(i: nat) returns (panic: bool)
      requires Inv(l, d, own) && i < l.ninodes
      modifies this
      ensures !panic && Inv(l, d, own) && Disowned(old(d), d, old(own), own, i)
      ensures d.ino == old(d).ino[i := old(d).ino[i].(size := 0, addrs := d.ino[i].addrs)]
      ensures forall j, t :: 0 <= j < l.ninodes && 0 <= t < SLOTS ==>
                               Ref(d, j, t) == if j == i then 0 else Ref(old(d), j, t)
      ensures forall b :: b in own <==> b in old(own) && old(own)[b].0 != i
      ensures IBlock(l, i) in logged && (OneBitmap(l) ==> logged <= old(logged) + {l.bmapstart, IBlock(l, i)})
      ensures Noted(l, old(d), d, old(logged), logged, {}, {})
    {
      hide Owned, Noted;
      panic := false;
      NotedSame(l, d, logged, {}, {i});
      for s := 0 to NDIRECT
        invariant !panic && Inv(l, d, own) && OnlyAddrs(old(d), d, i) && Disowned(old(d), d, old(own), own, i)
        invariant forall j, t :: 0 <= j < l.ninodes && 0 <= t < SLOTS ==>
                                   Ref(d, j, t) == if j == i && t < s then 0 else Ref(old(d), j, t)
        invariant OneBitmap(l) ==> logged <= old(logged) + {l.bmapstart}
        invariant Noted(l, old(d), d, old(logged), logged, {}, {i})
      {
        ghost var d1, s1 := d, logged;
        panic := FreeDirect(i, s);
        NotedTwice(l, old(d), d1, d, old(logged), s1, logged, {}, {i});
      }
      ghost var d0, s0 := d, logged;
      panic := FreeIndirect(i);
      NotedTwice(l, old(d), d0, d, old(logged), s0, logged, {}, {i});
      ghost var d1 := d;
      NotedLater(l, d1, logged, i, d1.ino[i].(size := 0));
      NotedTwice(l, old(d), d1, d1.(ino := d1.ino[i := d1.ino[i].(size := 0)]), old(logged), logged, logged, {}, {i});
      NotedInode(l, old(d), d1.(ino := d1.ino[i := d1.ino[i].(size := 0)]), old(logged), logged, {}, i);
      d := d.(ino := d.ino[i := d.ino[i].(size := 0)]);
      logged := logged + {IBlock(l, i)};
      SizeIsNoRef(l, d1, d, own);
      OwnersLeft(l, old(d), d, old(own), own, i);
    }
  }

  lemma NoIndirect(l: Layout, d: Disk, i: nat)
    requires Shape(l, d) && i < l.ninodes && d.ino[i].addrs[IND] == 0
    ensures forall t :: IND <= t < SLOTS ==> Ref(d, i, t) == 0
  {
  }

  // Clearing a bit changes no block that a file owns.
  lemma UnmarkKeeps(l: Layout, d: Disk, own: Owners, h: Cut, b: nat)
    requires Owned(l, d, own, {}, h) && b < l.size && BBlock(l, b) < |d.blk|
    ensures |UnmarkBlk(l, d.blk, b)| == |d.blk|
    ensures forall c :: c in own && c < |d.blk| ==> UnmarkBlk(l, d.blk, b)[c] == d.blk[c]
  {
    forall c | c in own && c < |d.blk| ensures UnmarkBlk(l, d.blk, b)[c] == d.blk[c] {
      assert OwnerOk(l, d, own, h, c);
      BBlockInMeta(l, b);
    }
  }

  const IPB: nat := 16   // inodes in a block

  function IBlock(l: Layout, i: nat): nat { i / IPB + l.inodestart }

  // Inode i gives up blocks; nobody gains any, and what is still owned is unchanged.
  ghost predicate Disowned(d: Disk, d': Disk, own: Owners, own': Owners, i: nat) {
    && |d'.blk| == |d.blk|
    && (forall b :: b in own' ==> b in own && own'[b] == own[b] && (b < |d.blk| ==> d'.blk[b] == d.blk[b]))
    && (forall b :: b in own && own[b].0 != i ==> b in own')
  }

  lemma OwnersLeft(l: Layout, d: Disk, d': Disk, own: Owners, own': Owners, i: nat)
    requires Inv(l, d', own') && i < l.ninodes && Disowned(d, d', own, own', i)
    requires forall t :: 0 <= t < SLOTS ==> Ref(d', i, t) == 0
    ensures forall b :: b in own' <==> b in own && own[b].0 != i
  {
    forall b | b in own' ensures own'[b].0 != i { assert OwnerOk(l, d', own', NoCut, b); }
  }

  lemma CutNothing(l: Layout, d: Disk, own: Owners, i: nat)
    requires Owned(l, d, own, {}, NoCut)
    ensures Owned(l, d, own, {}, Cut(i, 0))
  {
    var h := Cut(i, 0);
    forall k, t | 0 <= k < l.ninodes && 0 <= t < SLOTS ensures RefOk(d, own, h, k, t) {
      assert RefOk(d, own, NoCut, k, t);
    }
    forall c | c in own ensures OwnerOk(l, d, own, h, c) { assert OwnerOk(l, d, own, NoCut, c); }
  }

  // Ownership does not depend on sizes, kinds and link counts.
  lemma SizeIsNoRef(l: Layout, d: Disk, d': Disk, own: Owners)
    requires Inv(l, d, own) && d'.blk == d.blk && |d'.ino| == |d.ino|
    requires forall i :: 0 <= i < |d.ino| ==> d'.ino[i].addrs == d.ino[i].addrs
    ensures Inv(l, d', own)
    ensures forall i, s :: 0 <= i < l.ninodes && 0 <= s < SLOTS ==> Ref(d', i, s) == Ref(d, i, s)
  {
    assert Shape(l, d');
    forall i, s | 0 <= i < l.ninodes && 0 <= s < SLOTS ensures Ref(d', i, s) == Ref(d, i, s) {}
    forall c | 0 <= c < l.size ensures Accounted(l, d', own, {}, c) { assert Accounted(l, d, own, {}, c); }
    OwnedByBits(l, d, d', own, {}, {}, NoCut);
  }

  lemma SplitBit(b: nat, bi: nat)
    requires b % BPB == 0 && bi < BPB
    ensures (b + bi) / BPB == b / BPB && (b + bi) % BPB == bi
  {
  }
}
