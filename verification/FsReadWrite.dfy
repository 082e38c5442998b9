/** readi and writei of kernel/fs.c: a file is a sequence of bytes spread over direct and
    indirect blocks. */
module FsReadWrite {
  import opened Collections
  import opened FsBytes
  import opened FsDisk
  import opened FsFiles
  import opened Params

  // The file block that byte k lies in, and its offset there.
  function BlockOf(k: nat): (r: nat) { k / BSIZE }

  function OffsetOf(k: nat): (r: nat)
    ensures r < BSIZE
  {
    k % BSIZE
  }

  // Byte k of inode i; a byte of a block that is not allocated reads as 0.
  function ByteAt(d: Disk, i: nat, k: nat): (r: byte)
    requires i < |d.ino| && |d.ino[i].addrs| == NDIRECT + 1
  {
    if k / BSIZE < MAXFILE && 0 < Addr(d, i, k / BSIZE) < |d.blk| && |d.blk[Addr(d, i, k / BSIZE)]| == BSIZE
    then d.blk[Addr(d, i, k / BSIZE)][k % BSIZE] else 0
  }

  // Every block below the file's size is allocated.
  ghost predicate Mapped(d: Disk, i: nat)
    requires i < |d.ino| && |d.ino[i].addrs| == NDIRECT + 1
  {
    && d.ino[i].size <= MAXFILE * BSIZE
    && forall bn :: 0 <= bn < MAXFILE && bn * BSIZE < d.ino[i].size ==> Addr(d, i, bn) != 0
  }

  // The file system invariant, with the files' sizes.
  ghost predicate FilesOk(l: Layout, d: Disk, own: Owners) {
    Inv(l, d, own) && forall i :: 0 <= i < l.ninodes ==> Mapped(d, i)
  }

  // The contents of a file.
  ghost function Bytes(l: Layout, d: Disk, i: nat): (r: seq<byte>)
    requires Shape(l, d) && i < l.ninodes
    ensures |r| == d.ino[i].size
  {
    seq(d.ino[i].size, k requires 0 <= k => ByteAt(d, i, k))
  }

  lemma AddrOwned(l: Layout, d: Disk, own: Owners, i: nat, bn: nat)
    requires Inv(l, d, own) && i < l.ninodes && bn < MAXFILE && Addr(d, i, bn) != 0
    ensures var a := Addr(d, i, bn); a in own && own[a] == (i, SlotOf(bn)) && l.nmeta <= a < l.size
                                     && |d.blk[a]| == BSIZE
  {
    assert RefOk(d, own, NoCut, i, SlotOf(bn));
    assert OwnerOk(l, d, own, NoCut, Addr(d, i, bn));
  }

  // Writing one data block changes the bytes of one block of one file.
  lemma BlockWritten(l: Layout, d: Disk, own: Owners, i: nat, bn: nat, data: Block, j: nat, k: nat)
    requires Inv(l, d, own) && i < l.ninodes && bn < MAXFILE && Addr(d, i, bn) != 0 && |data| == BSIZE && j < l.ninodes
    requires Addr(d, i, bn) < |d.blk|
    ensures ByteAt(d.(blk := d.blk[Addr(d, i, bn) := data]), j, k) == if j == i && k / BSIZE == bn then
              data[k % BSIZE] else ByteAt(d, j, k)
  {
    AddrOwned(l, d, own, i, bn);
    if k / BSIZE < MAXFILE && Addr(d, j, k / BSIZE) != 0 { AddrOwned(l, d, own, j, k / BSIZE); }
    DataWritten(l, d, own, {}, NoCut, Addr(d, i, bn), data);
    hide Owned;
    var d' := d.(blk := d.blk[Addr(d, i, bn) := data]);
    assert k / BSIZE < MAXFILE ==> Addr(d', j, k / BSIZE) == Addr(d, j, k / BSIZE);
  }

  // bmap changes no byte of any file: a block it adds reads as zeroes, like no block.
  lemma MapKeepsByte(l: Layout, d: Disk, d': Disk, own: Owners, own': Owners, i: nat, bn: nat, j: nat, k: nat)
    requires Inv(l, d, own) && Inv(l, d', own') && DataKept(d, d', own, own') && i < l.ninodes && bn < MAXFILE
             && j < l.ninodes
    requires forall p, t :: 0 <= p < l.ninodes && 0 <= t < SLOTS
                            && (p != i || (t != SlotOf(bn) && t != IND) || Ref(d, p, t) != 0)
               ==> Ref(d', p, t) == Ref(d, p, t)
    requires Addr(d, i, bn) == 0 && Addr(d', i, bn) != 0 ==>
               Addr(d', i, bn) < l.size && d'.blk[Addr(d', i, bn)] == Zeroes()
    ensures ByteAt(d', j, k) == ByteAt(d, j, k)
  {
    if k / BSIZE < MAXFILE && Addr(d, j, k / BSIZE) != 0 { AddrOwned(l, d, own, j, k / BSIZE); }
    hide Owned;
  }

  // ---------------------------------------------------------------- readi

  // One round of readi's loop, for m bytes within one block of the file.
  method ReadChunk(fs: FileSystem, i: nat, pos: nat, m: nat) returns (chunk: seq<byte>)
    requires FilesOk(fs.l, fs.d, fs.own) && i < fs.l.ninodes && pos < fs.d.ino[i].size
    requires pos % BSIZE + m <= BSIZE && pos + m <= fs.d.ino[i].size
    modifies fs
    ensures fs.d == old(fs.d) && fs.own == old(fs.own) && fs.logged == old(fs.logged)
    ensures chunk == Bytes(fs.l, fs.d, i)[pos..pos + m]
  {
    InFile(fs.d, i, pos);
    var addr := fs.Bmap(i, pos / BSIZE);
    SliceOfBlock(fs.l, fs.d, fs.own, i, pos, m);
    chunk := fs.d.blk[addr][pos % BSIZE..pos % BSIZE + m];
  }

  lemma NextSlice(f: seq<byte>, off: nat, tot: nat, m: nat, k: int)
    requires off + tot + m <= |f| && 0 <= k <= m
    ensures f[off..off + tot] + f[off + tot..off + tot + m] == f[off..off + tot + m]
    ensures f[off..off + tot] + f[off + tot..off + tot + m][..k] == f[off..off + tot + k]
  {
  }

  // Read n bytes at off.  The destination accepts room bytes before it faults.  dst is what
  // was copied out; nothing is allocated and nothing reaches the log.
  method Readi(fs: FileSystem, i: nat, off: nat, n: nat, room: nat) returns (r: int, dst: seq<byte>)
    requires FilesOk(fs.l, fs.d, fs.own) && i < fs.l.ninodes && off < 0x1_0000_0000 && n < 0x1_0000_0000
    modifies fs
    ensures fs.d == old(fs.d) && fs.own == old(fs.own) && fs.logged == old(fs.logged)
    ensures var size := fs.d.ino[i].size;
            if off > size || off + n >= 0x1_0000_0000 then r == 0 && dst == []
            else var want := Min(n, size - off);
              if room >= want then r == want && dst == Bytes(fs.l, fs.d, i)[off..off + want]
              else r == -1 && dst == Bytes(fs.l, fs.d, i)[off..off + room]
  {
    hide Owned, Mapped, Bytes;
    var size := fs.d.ino[i].size;
    dst := [];
    if off > size || off + n >= 0x1_0000_0000 { return 0, dst; }
    var want := Min(n, size - off);
    ghost var file := Bytes(fs.l, fs.d, i);
    var tot := 0;
    while tot < want
      invariant 0 <= tot <= want && tot <= room
      invariant fs.d == old(fs.d) && fs.own == old(fs.own) && fs.logged == old(fs.logged)
      invariant dst == file[off..off + tot]
    {
      var m := Min(want - tot, BSIZE - (off + tot) % BSIZE);
      var chunk := ReadChunk(fs, i, off + tot, m);
      NextSlice(file, off, tot, m, Min(m, room - tot));
      if tot + m > room {
        dst := dst + chunk[..room - tot];
        return -1, dst;
      }
      dst := dst + chunk;
      tot := tot + m;
    }
    r := tot;
  }

  lemma InFile(d: Disk, i: nat, pos: nat)
    requires i < |d.ino| && |d.ino[i].addrs| == NDIRECT + 1 && Mapped(d, i) && pos < d.ino[i].size
    ensures pos / BSIZE < MAXFILE && Addr(d, i, pos / BSIZE) != 0
  {
    assert pos / BSIZE * BSIZE <= pos;
  }

  // A run of bytes that stays within one block.
  lemma SliceOfBlock(l: Layout, d: Disk, own: Owners, i: nat, pos: nat, m: nat)
    requires Inv(l, d, own) && i < l.ninodes && pos / BSIZE < MAXFILE && Addr(d, i, pos / BSIZE) != 0
    requires pos % BSIZE + m <= BSIZE && pos + m <= d.ino[i].size
    ensures Addr(d, i, pos / BSIZE) < |d.blk| && |d.blk[Addr(d, i, pos / BSIZE)]| == BSIZE
    ensures d.blk[Addr(d, i, pos / BSIZE)][pos % BSIZE..pos % BSIZE + m] == Bytes(l, d, i)[pos..pos + m]
  {
    hide Owned, Ref;
    AddrOwned(l, d, own, i, pos / BSIZE);
    var a, o := Addr(d, i, pos / BSIZE), pos % BSIZE;
    var x, y := d.blk[a][o..o + m], Bytes(l, d, i)[pos..pos + m];
    forall k | 0 <= k < m ensures x[k] == y[k] { WithinBlock(pos, k); }
  }

  lemma WithinBlock(pos: nat, k: nat)
    requires pos % BSIZE + k < BSIZE
    ensures (pos + k) / BSIZE == pos / BSIZE && (pos + k) % BSIZE == pos % BSIZE + k
  {
  }

  // ---------------------------------------------------------------- writei

  // Bytes o .. o + |x| of a block replaced by x.
  function Splice(b: Block, o: nat, x: seq<byte>): (r: Block)
    requires o + |x| <= |b|
    ensures |r| == |b|
    ensures forall k :: 0 <= k < |b| ==> r[k] == if o <= k < o + |x| then x[k - o] else b[k]
  {
    b[..o] + x + b[o + |x|..]
  }

  // Bytes lo .. lo + |x| of inode i become x; no other byte of any file changes.
  ghost predicate Replaced(l: Layout, d: Disk, d': Disk, i: nat, lo: nat, x: seq<byte>)
    requires Shape(l, d) && Shape(l, d') && i < l.ninodes
  {
    forall j, k :: 0 <= j < l.ninodes && 0 <= k
      ==> ByteAt(d', j, k) == if j == i && lo <= k < lo + |x| then x[k - lo] else ByteAt(d, j, k)
  }

  // Addresses are only added, and only to inode i.
  ghost predicate Grown(l: Layout, d: Disk, d': Disk, i: nat)
    requires Shape(l, d) && Shape(l, d') && i < l.ninodes
  {
    && OnlyAddrs(d, d', i)
    && (forall j, t :: 0 <= j < l.ninodes && 0 <= t < SLOTS && (j != i || Ref(d, j, t) != 0) ==>
                         Ref(d', j, t) == Ref(d, j, t))
  }

  // Every bit of the bitmap is set.
  ghost predicate FullDisk(l: Layout, d: Disk) {
    forall c :: 0 <= c < l.size ==> BBlock(l, c) < |d.blk| && |d.blk[BBlock(l, c)]| == BSIZE && InUse(l, d.blk, c)
  }

  // The block for byte pos of inode i, or 0.
  function BlockAt(d: Disk, i: nat, pos: nat): nat {
    if i < |d.ino| && |d.ino[i].addrs| == NDIRECT + 1 && BlockOf(pos) < MAXFILE then Addr(d, i, BlockOf(pos)) else 0
  }

  predicate NoBlock(d: Disk, i: nat, pos: nat) { BlockAt(d, i, pos) == 0 }

  // The block that an interrupted copy to byte pos leaves changed and not logged.
  function Spoiled(d: Disk, i: nat, pos: nat, interrupted: bool): set<nat> {
    if interrupted then {BlockAt(d, i, pos)} else {}
  }

  // If the file had a block for byte pos, it still has, and that block has not been logged.
  predicate Missed(d0: Disk, d: Disk, i: nat, pos: nat, s0: set<nat>, s: set<nat>) {
    var b := BlockAt(d0, i, pos);
    b != 0 && b !in s0 ==> BlockAt(d, i, pos) == b && b !in s
  }

  // File block bn of inode i was paid for, or there were too few free blocks for that.
  ghost predicate Spent(d: Disk, own: Owners, own': Owners, i: nat, bn: nat, failed: bool) {
    && i < |d.ino| && |d.ino[i].addrs| == NDIRECT + 1 && bn < MAXFILE
    && if failed then |own'| < |own| + Price(d, i, bn) else |own'| == |own| + Price(d, i, bn)
  }

  lemma SpentBy(d: Disk, own: Owners, own': Owners, i: nat, bn: nat, addr: nat)
    requires i < |d.ino| && |d.ino[i].addrs| == NDIRECT + 1 && bn < MAXFILE
    requires if addr == 0 then |own'| < |own| + Price(d, i, bn) else |own'| == |own| + Price(d, i, bn)
    ensures Spent(d, own, own', i, bn, addr == 0)
  {
  }

  lemma FreeIs(l: Layout, d: Disk, own: Owners, b: nat)
    requires Inv(l, d, own)
    ensures b in FreeBlocks(l, d) <==> l.nmeta <= b < l.size && b !in own
    ensures b in own ==> l.nmeta <= b < l.size
    ensures FullDisk(l, d) ==> b !in FreeBlocks(l, d)
  {
    hide InUse, Ref;
    if b < l.size { assert Accounted(l, d, own, {}, b); BBlockInMeta(l, b); }
    if b in own { assert OwnerOk(l, d, own, NoCut, b); }
  }

  // Every block is metadata, free or owned; on a full disk none is free.
  lemma AllOwned(l: Layout, d: Disk, own: Owners)
    requires Inv(l, d, own)
    ensures |FreeBlocks(l, d)| + |own| == l.size - l.nmeta
    ensures FullDisk(l, d) ==> |own| == l.size - l.nmeta
  {
    hide FreeBlocks, Owned, FullDisk;
    var all, free := Span(l.nmeta, l.size), FreeBlocks(l, d);
    hide Span;
    forall b: nat ensures (b in all <==> b in free || b in own.Keys) && (b in free ==> b !in own.Keys) {
      FreeIs(l, d, own, b);
    }
    TwoParts(all, free, own.Keys);
    if FullDisk(l, d) {
      forall b: nat ensures b !in free { FreeIs(l, d, own, b); }
      assert free == {};
    }
  }

  // What was too dear: fewer blocks were free than the block costs.
  lemma TooDear(l: Layout, d: Disk, d': Disk, own: Owners, own': Owners, i: nat, bn: nat)
    requires Inv(l, d, own) && Inv(l, d', own') && FullDisk(l, d') && Spent(d, own, own', i, bn, true)
    ensures |FreeBlocks(l, d)| < Price(d, i, bn)
  {
    hide Price, FreeBlocks, FullDisk, Owned;
    AllOwned(l, d, own);
    AllOwned(l, d', own');
  }

  datatype Outcome = Done | Full | Fault

  // One round of writei's loop: data goes to position pos, within one block.  Only the first
  // good bytes of data can be read; on a fault they have changed the block all the same.
  method WriteChunk(fs: FileSystem, i: nat, pos: nat, data: seq<byte>, good: nat) returns (o: Outcome)
    requires Inv(fs.l, fs.d, fs.own) && i < fs.l.ninodes && BlockOf(pos) < MAXFILE
    requires OffsetOf(pos) + |data| <= BSIZE && good <= |data|
    modifies fs
    ensures Inv(fs.l, fs.d, fs.own) && Grown(fs.l, old(fs.d), fs.d, i)
    ensures o == Done <==> Addr(fs.d, i, BlockOf(pos)) != 0 && good == |data|
    ensures o == Full <==> Addr(fs.d, i, BlockOf(pos)) == 0
    ensures if o == Full then FullDisk(fs.l, fs.d) && NoBlock(fs.d, i, pos) else !NoBlock(fs.d, i, pos)
    ensures Replaced(fs.l, old(fs.d), fs.d, i, pos, if o == Full then [] else data[..good])
    ensures fs.logged <= old(fs.logged) + Uses(fs.l, Addr(fs.d, i, BlockOf(pos))) + Uses(fs.l, fs.d.ino[i].addrs[IND])
    ensures Noted(fs.l, old(fs.d), fs.d, old(fs.logged), fs.logged, Spoiled(fs.d, i, pos, o == Fault && good > 0), {i})
    ensures o == Fault && Addr(old(fs.d), i, BlockOf(pos)) != 0 ==> fs.logged == old(fs.logged)
    ensures o == Full && BlockOf(pos) < NDIRECT ==> fs.d == old(fs.d)
    ensures Spent(old(fs.d), old(fs.own), fs.own, i, BlockOf(pos), o == Full)
  {
    hide Noted, Price, Spent, Owned, Ref, DataKept, Splice;
    var bn := BlockOf(pos);
    var addr := fs.Bmap(i, bn);
    SpentBy(old(fs.d), old(fs.own), fs.own, i, bn, addr);
    ghost var d1, s1 := fs.d, fs.logged;
    forall j, k | 0 <= j < fs.l.ninodes && 0 <= k ensures ByteAt(d1, j, k) == ByteAt(old(fs.d), j, k) {
      MapKeepsByte(fs.l, old(fs.d), d1, old(fs.own), fs.own, i, bn, j, k);
    }
    if addr == 0 { return Full; }
    AddrOwned(fs.l, fs.d, fs.own, i, bn);
    var block := Splice(fs.d.blk[addr], OffsetOf(pos), data[..good]);
    DataWritten(fs.l, d1, fs.own, {}, NoCut, addr, block);
    fs.d := fs.d.(blk := fs.d.blk[addr := block]);
    ChunkReplaced(fs.l, d1, fs.own, i, pos, data[..good]);
    assert good == 0 ==> block == d1.blk[addr] && fs.d.blk == d1.blk;
    ChunkNoted(fs.l, old(fs.d), d1, old(fs.logged), s1, i, addr, block);
    if good < |data| { return Fault; }
    fs.logged := fs.logged + {addr};
    o := Done;
  }

  lemma ChunkNoted(l: Layout, d: Disk, d1: Disk, s: set<nat>, s1: set<nat>, i: nat, b: nat, block: Block)
    requires Noted(l, d, d1, s, s1, {}, {i}) && b < |d1.blk| && FsBlock(l, b)
    ensures var d2 := d1.(blk := d1.blk[b := block]);
            Noted(l, d, d2, s, s1 + {b}, {}, {i}) && Noted(l, d, d2, s, s1, {b}, {i})
  {
  }

  lemma ChunkReplaced(l: Layout, d: Disk, own: Owners, i: nat, pos: nat, x: seq<byte>)
    requires Inv(l, d, own) && i < l.ninodes && pos / BSIZE < MAXFILE && pos % BSIZE + |x| <= BSIZE
    requires Addr(d, i, pos / BSIZE) != 0 && Addr(d, i, pos / BSIZE) < l.size
    ensures var a := Addr(d, i, pos / BSIZE);
            var d' := d.(blk := d.blk[a := Splice(d.blk[a], pos % BSIZE, x)]);
            Shape(l, d') && Replaced(l, d, d', i, pos, x)
  {
    var a := Addr(d, i, pos / BSIZE);
    var block := Splice(d.blk[a], pos % BSIZE, x);
    var d' := d.(blk := d.blk[a := block]);
    assert Shape(l, d');
    hide Owned;
    forall j, k | 0 <= j < l.ninodes && 0 <= k
      ensures ByteAt(d', j, k) == if j == i && pos <= k < pos + |x| then x[k - pos] else ByteAt(d, j, k)
    {
      BlockWritten(l, d, own, i, pos / BSIZE, block, j, k);
      SameBlock(pos, k, |x|);
    }
  }

  lemma SameBlock(pos: nat, k: nat, m: nat)
    requires pos % BSIZE + m <= BSIZE
    ensures k / BSIZE == pos / BSIZE ==> k - pos == k % BSIZE - pos % BSIZE
    ensures pos <= k < pos + m ==> k / BSIZE == pos / BSIZE
  {
  }

  // ---------------------------------------------------------------- what one write gives to the log

  // The blocks that back file blocks lo .. hi of inode i.
  ghost function Data(d: Disk, i: nat, lo: nat, hi: nat): (r: set<nat>)
    requires i < |d.ino| && |d.ino[i].addrs| == NDIRECT + 1 && lo <= hi <= MAXFILE
    ensures |r| <= hi - lo
    decreases hi - lo
  {
    if lo == hi then {} else Data(d, i, lo, hi - 1) + {Addr(d, i, hi - 1)}
  }

  lemma {:induction false} DataHas(d: Disk, i: nat, lo: nat, hi: nat, bn: nat)
    requires i < |d.ino| && |d.ino[i].addrs| == NDIRECT + 1 && lo <= bn < hi <= MAXFILE
    ensures Addr(d, i, bn) in Data(d, i, lo, hi)
    decreases hi - lo
  {
    if bn < hi - 1 { DataHas(d, i, lo, hi - 1, bn); }
  }

  lemma {:induction false} DataKeeps(d: Disk, d': Disk, i: nat, lo: nat, hi: nat)
    requires i < |d.ino| == |d'.ino| && |d.ino[i].addrs| == |d'.ino[i].addrs| == NDIRECT + 1 && lo <= hi <= MAXFILE
    requires forall bn :: lo <= bn < hi && Addr(d, i, bn) != 0 ==> Addr(d', i, bn) == Addr(d, i, bn)
    ensures Data(d, i, lo, hi) <= Data(d', i, lo, hi) + {0}
    decreases hi - lo
  {
    hide Ref;
    if lo < hi {
      DataKeeps(d, d', i, lo, hi - 1);
      assert Addr(d, i, hi - 1) != 0 ==> Addr(d', i, hi - 1) == Addr(d, i, hi - 1);
    }
  }

  // x is the bitmap block, the indirect block, or a block behind file blocks lo .. hi.
  ghost predicate MayLog(l: Layout, d: Disk, i: nat, lo: nat, hi: nat, x: nat)
    requires i < |d.ino| && |d.ino[i].addrs| == NDIRECT + 1 && lo <= hi <= MAXFILE
  {
    x == l.bmapstart || (x != 0 && (x == d.ino[i].addrs[IND] || x in Data(d, i, lo, hi)))
  }

  ghost predicate LogsOnly(l: Layout, d: Disk, i: nat, lo: nat, hi: nat, before: set<nat>, after: set<nat>)
    requires i < |d.ino| && |d.ino[i].addrs| == NDIRECT + 1 && lo <= hi <= MAXFILE
  {
    forall x :: x in after ==> x in before || MayLog(l, d, i, lo, hi, x)
  }

  // What lies behind the file blocks before bn does not include the block of bn.
  lemma {:induction false} NotLogged(l: Layout, d: Disk, own: Owners, i: nat, lo: nat, hi: nat, bn: nat)
    requires Inv(l, d, own) && i < l.ninodes && lo <= hi <= bn < MAXFILE && Addr(d, i, bn) != 0
    ensures !MayLog(l, d, i, lo, hi, Addr(d, i, bn))
    decreases hi - lo
  {
    hide Owned, Ref;
    AddrOwned(l, d, own, i, bn);
    if d.ino[i].addrs[IND] != 0 { IndOwned(l, d, own, i); }
    if lo < hi {
      NotLogged(l, d, own, i, lo, hi - 1, bn);
      if Addr(d, i, hi - 1) != 0 { AddrOwned(l, d, own, i, hi - 1); }
    }
  }

  lemma IndOwned(l: Layout, d: Disk, own: Owners, i: nat)
    requires Inv(l, d, own) && i < l.ninodes && d.ino[i].addrs[IND] != 0
    ensures d.ino[i].addrs[IND] in own && own[d.ino[i].addrs[IND]] == (i, IND)
  {
    assert RefOk(d, own, NoCut, i, IND);
  }

  lemma MayLogKeeps(l: Layout, d: Disk, d': Disk, i: nat, lo: nat, hi: nat, hi': nat, x: nat)
    requires Shape(l, d) && Shape(l, d') && i < l.ninodes && Grown(l, d, d', i) && lo <= hi <= hi' <= hi + 1
             && hi' <= MAXFILE
    requires MayLog(l, d, i, lo, hi, x)
    ensures MayLog(l, d', i, lo, hi', x)
  {
    assert Ref(d, i, IND) == d.ino[i].addrs[IND] && Ref(d', i, IND) == d'.ino[i].addrs[IND];
    hide Ref, Data;
    DataKeeps(d, d', i, lo, hi);
    DataWider(d', i, lo, hi, hi');
  }

  lemma UsesMayLog(l: Layout, d: Disk, own: Owners, i: nat, lo: nat, bn: nat, x: nat)
    requires Inv(l, d, own) && i < l.ninodes && OneBitmap(l) && lo <= bn < MAXFILE
    requires x in Uses(l, Addr(d, i, bn)) || x in Uses(l, d.ino[i].addrs[IND])
    ensures MayLog(l, d, i, lo, bn + 1, x)
  {
    var a, ind := Addr(d, i, bn), d.ino[i].addrs[IND];
    if a != 0 { AddrOwned(l, d, own, i, bn); OneBit(l, a); }
    if ind != 0 { IndirectOwned(l, d, own, {}, NoCut, i); OneBit(l, ind); }
    hide Owned;
    DataHas(d, i, lo, bn + 1, bn);
  }

  lemma LogsGrow(l: Layout, d: Disk, d': Disk, own': Owners, i: nat, lo: nat, hi: nat, bn: nat, s0: set<nat>,
                 s1: set<nat>, s2: set<nat>)
    requires Shape(l, d) && Inv(l, d', own') && i < l.ninodes && OneBitmap(l) && Grown(l, d, d', i)
    requires lo <= bn < MAXFILE && (hi == bn || hi == bn + 1)
    requires LogsOnly(l, d, i, lo, hi, s0, s1)
    requires s2 <= s1 + Uses(l, Addr(d', i, bn)) + Uses(l, d'.ino[i].addrs[IND])
    ensures LogsOnly(l, d', i, lo, bn + 1, s0, s2)
  {
    hide Owned, Grown, MayLog, Uses, Ref;
    forall x | x in s2 ensures x in s0 || MayLog(l, d', i, lo, bn + 1, x) {
      if x in s1 { if x !in s0 { MayLogKeeps(l, d, d', i, lo, hi, bn + 1, x); } }
      else { UsesMayLog(l, d', own', i, lo, bn, x); }
    }
  }

  // ---------------------------------------------------------------- the whole write

  // The file block after the last one that a write of n > 0 bytes at off reaches.
  function EndBlock(off: nat, n: nat): nat { if n == 0 then off / BSIZE else (off + n - 1) / BSIZE + 1 }

  // Every byte lo .. hi of inode i has a block.
  ghost predicate Backed(d: Disk, i: nat, lo: nat, hi: nat)
    requires i < |d.ino| && |d.ino[i].addrs| == NDIRECT + 1 && hi <= MAXFILE * BSIZE
  {
    forall k :: lo <= k < hi ==> k / BSIZE < MAXFILE && Addr(d, i, k / BSIZE) != 0
  }

  lemma ReplacedTwice(l: Layout, d: Disk, d1: Disk, d2: Disk, i: nat, off: nat, x: seq<byte>, y: seq<byte>)
    requires Shape(l, d) && Shape(l, d1) && Shape(l, d2) && i < l.ninodes
    requires Replaced(l, d, d1, i, off, x) && Replaced(l, d1, d2, i, off + |x|, y)
    ensures Replaced(l, d, d2, i, off, x + y)
  {
  }

  lemma GrownTwice(l: Layout, d: Disk, d1: Disk, d2: Disk, i: nat)
    requires Shape(l, d) && Shape(l, d1) && Shape(l, d2) && i < l.ninodes && Grown(l, d, d1, i) && Grown(l, d1, d2, i)
    ensures Grown(l, d, d2, i)
  {
  }

  lemma BackedMore(l: Layout, d: Disk, d': Disk, i: nat, lo: nat, pos: nat, m: nat)
    requires Shape(l, d) && Shape(l, d') && i < l.ninodes && Grown(l, d, d', i) && pos + m <= MAXFILE * BSIZE
    requires Backed(d, i, lo, pos) && BlockOf(pos) < MAXFILE && Addr(d', i, BlockOf(pos)) != 0
             && OffsetOf(pos) + m <= BSIZE
    ensures Backed(d', i, lo, pos + m)
  {
    forall k | lo <= k < pos + m ensures k / BSIZE < MAXFILE && Addr(d', i, k / BSIZE) != 0 {
      if k >= pos { SameBlock(pos, k, m); }
    }
  }

  lemma BackedKept(l: Layout, d: Disk, d': Disk, i: nat, lo: nat, hi: nat)
    requires Shape(l, d) && Shape(l, d') && i < l.ninodes && Grown(l, d, d', i) && hi <= MAXFILE * BSIZE
             && Backed(d, i, lo, hi)
    ensures Backed(d', i, lo, hi)
  {
  }

  lemma {:induction false} DataWider(d: Disk, i: nat, lo: nat, hi: nat, hi': nat)
    requires i < |d.ino| && |d.ino[i].addrs| == NDIRECT + 1 && lo <= hi <= hi' <= MAXFILE
    ensures Data(d, i, lo, hi) <= Data(d, i, lo, hi')
    decreases hi'
  {
    if hi < hi' { DataWider(d, i, lo, hi, hi' - 1); }
  }

  // How far a write has come: x has landed at off, tot bytes of it count, and on a disk with one
  // bitmap block the log has received nothing but the blocks of file blocks off / BSIZE .. hi.
  ghost predicate Written(l: Layout, d0: Disk, d: Disk, own: Owners, i: nat, off: nat, x: seq<byte>, tot: nat,
                          hi: nat, s0: set<nat>, s: set<nat>) {
    && Shape(l, d0) && Inv(l, d, own) && i < l.ninodes && tot <= |x| && off + |x| <= MAXFILE * BSIZE
    && BlockOf(off) <= hi <= MAXFILE
    && Grown(l, d0, d, i) && Replaced(l, d0, d, i, off, x) && Backed(d, i, off, off + tot)
    && (OneBitmap(l) ==> LogsOnly(l, d, i, BlockOf(off), hi, s0, s))
  }

  // One round: what one chunk, within block bn, adds to what was written before.
  lemma WrittenMore(l: Layout, d0: Disk, d1: Disk, d2: Disk, own1: Owners, own2: Owners, i: nat, off: nat,
                    x: seq<byte>, y: seq<byte>,
                    hi: nat, bn: nat, s0: set<nat>, s1: set<nat>, s2: set<nat>)
    requires Written(l, d0, d1, own1, i, off, x, |x|, hi, s0, s1) && Inv(l, d2, own2) && Grown(l, d1, d2, i)
    requires Replaced(l, d1, d2, i, off + |x|, y) && off + |x + y| <= MAXFILE * BSIZE
    requires bn == BlockOf(off + |x|) && BlockOf(off) <= bn < MAXFILE && (hi == bn || hi == bn + 1)
             && OffsetOf(off + |x|) + |y| <= BSIZE
    requires s2 <= s1 + Uses(l, Addr(d2, i, bn)) + Uses(l, d2.ino[i].addrs[IND])
    ensures Written(l, d0, d2, own2, i, off, x + y, if Addr(d2, i, bn) == 0 then |x| else |x + y|, bn + 1, s0, s2)
  {
    hide Owned, Grown, Replaced, Backed, LogsOnly, Uses, Ref;
    GrownTwice(l, d0, d1, d2, i);
    ReplacedTwice(l, d0, d1, d2, i, off, x, y);
    if OneBitmap(l) { LogsGrow(l, d1, d2, own2, i, BlockOf(off), hi, bn, s0, s1, s2); }
    if Addr(d2, i, bn) != 0 { BackedMore(l, d1, d2, i, off, off + |x|, |y|); }
    else { BackedKept(l, d1, d2, i, off, off + |x|); }
  }

  lemma RoundBlocks(off: nat, t: nat, m: nat)
    requires 0 < m && OffsetOf(off + t) + m <= BSIZE && off + t + m <= MAXFILE * BSIZE
    ensures BlockOf(off + t) < MAXFILE && BlockOf(off) <= BlockOf(off + t)
            && BlockOf(off + t) + 1 == EndBlock(off, t + m)
    ensures EndBlock(off, t) == BlockOf(off + t) || EndBlock(off, t) == BlockOf(off + t) + 1
  {
    SameBlock(off + t, off + t + m - 1, m);
  }

  lemma WrittenNothing(l: Layout, d: Disk, own: Owners, i: nat, off: nat, s: set<nat>)
    requires Inv(l, d, own) && i < l.ninodes && off < MAXFILE * BSIZE
    ensures Written(l, d, d, own, i, off, [], 0, EndBlock(off, 0), s, s)
  {
    hide Owned;
  }

  lemma WrittenLess(l: Layout, d0: Disk, d: Disk, own: Owners, i: nat, off: nat, x: seq<byte>, tot: nat, tot': nat,
                    hi: nat, s0: set<nat>, s: set<nat>)
    requires Written(l, d0, d, own, i, off, x, tot, hi, s0, s) && tot' <= tot
    ensures Written(l, d0, d, own, i, off, x, tot', hi, s0, s)
  {
    hide Owned, Grown, Replaced, LogsOnly;
  }

  // The length of the next chunk of a write of n bytes at off, and how much of it can be read.
  function ChunkLen(off: nat, n: nat, tot: nat): (m: nat)
    requires tot < n
    ensures 0 < m <= BSIZE && tot + m <= n && OffsetOf(off + tot) + m <= BSIZE
    ensures tot + m == n || OffsetOf(off + tot + m) == 0
  {
    Min(n - tot, BSIZE - OffsetOf(off + tot))
  }

  function Readable(avail: nat, tot: nat, m: nat): (good: nat)
    ensures good <= m && (good == m ==> m == 0 || tot + m <= avail)
            && (good < m ==> avail < tot + m && good == Max(0, avail - tot))
  {
    Max(0, Min(m, avail - tot))
  }

  // What a round writes.
  function Landing(o: Outcome, src: seq<byte>, tot: nat, good: nat): (r: nat)
    requires tot + good <= |src|
    ensures r <= |src|
  {
    if o == Full then tot else tot + good
  }

  lemma RoundWritten(l: Layout, d0: Disk, d1: Disk, d2: Disk, own1: Owners, own2: Owners, i: nat, off: nat,
                     src: seq<byte>, tot: nat,
                     m: nat, good: nat, o: Outcome, s0: set<nat>, s1: set<nat>, s2: set<nat>)
    requires tot + m <= |src| && good <= m && 0 < m && OffsetOf(off + tot) + m <= BSIZE
             && off + |src| <= MAXFILE * BSIZE
    requires Written(l, d0, d1, own1, i, off, src[..tot], tot, EndBlock(off, tot), s0, s1)
    requires Inv(l, d2, own2) && Grown(l, d1, d2, i) && BlockOf(off + tot) < MAXFILE
    requires o == Full <==> Addr(d2, i, BlockOf(off + tot)) == 0
    requires Replaced(l, d1, d2, i, off + tot, if o == Full then [] else src[tot..tot + m][..good])
    requires s2 <= s1 + Uses(l, Addr(d2, i, BlockOf(off + tot))) + Uses(l, d2.ino[i].addrs[IND])
    ensures EndBlock(off, tot + m) <= MAXFILE
    ensures Written(l, d0, d2, own2, i, off, src[..Landing(o, src, tot, good)], Landing(o, src, tot, good),
                    EndBlock(off, tot + m), s0, s2)
  {
    hide Owned, Grown, Replaced, Uses, EndBlock, Written, Ref, BlockOf, OffsetOf, Shape;
    RoundBlocks(off, tot, m);
    var y := if o == Full then [] else src[tot..tot + m][..good];
    assert src[..tot] + y == src[..Landing(o, src, tot, good)];
    WrittenMore(l, d0, d1, d2, own1, own2, i, off, src[..tot], y, EndBlock(off, tot), BlockOf(off + tot), s0, s1, s2);
  }

  // One round of writei's loop; d0 and s0 are the disk and the log set when the loop began.
  method WriteRound(fs: FileSystem, i: nat, off: nat, src: seq<byte>, avail: nat, tot: nat, ghost d0: Disk,
                    ghost s0: set<nat>)
    returns (o: Outcome, m: nat, good: nat)
    requires tot < |src| && off + |src| <= MAXFILE * BSIZE
    requires Written(fs.l, d0, fs.d, fs.own, i, off, src[..tot], tot, EndBlock(off, tot), s0, fs.logged)
    requires Noted(fs.l, d0, fs.d, s0, fs.logged, {}, {i})
    modifies fs
    ensures m == ChunkLen(off, |src|, tot) && good == Readable(avail, tot, m)
    ensures o == Full ==> FullDisk(fs.l, fs.d) && NoBlock(fs.d, i, off + tot)
    ensures o == Fault ==> good < m
    ensures o == Done ==> good == m
    ensures EndBlock(off, tot + m) <= MAXFILE
    ensures Written(fs.l, d0, fs.d, fs.own, i, off, src[..Landing(o, src, tot, good)], Landing(o, src, tot, good),
                    EndBlock(off, tot + m), s0, fs.logged)
    ensures o != Full ==> !NoBlock(fs.d, i, off + tot)
    ensures o == Full && BlockOf(off + tot) < NDIRECT ==> fs.d == old(fs.d)
    ensures Spent(old(fs.d), old(fs.own), fs.own, i, BlockOf(off + tot), o == Full)
    ensures Noted(fs.l, d0, fs.d, s0, fs.logged, Spoiled(fs.d, i, off + tot, o == Fault && good > 0), {i})
    ensures OneBitmap(fs.l) && o == Fault && EndBlock(off, tot) <= BlockOf(off + tot) ==>
              Missed(d0, fs.d, i, off + tot, s0, fs.logged)
  {
    hide Owned, Grown, Replaced, Uses, EndBlock, Ref, BlockOf, OffsetOf, ChunkLen, Readable, Backed, LogsOnly, Shape,
        Noted, Price, Spent;
    m := ChunkLen(off, |src|, tot);
    good := Readable(avail, tot, m);
    RoundBlocks(off, tot, m);
    ghost var d1, own1, s1 := fs.d, fs.own, fs.logged;
    o := WriteChunk(fs, i, off + tot, src[tot..tot + m], good);
    ghost var x := Spoiled(fs.d, i, off + tot, o == Fault && good > 0);
    NotedWider(fs.l, d0, d1, s0, s1, {}, {i}, x, {i});
    NotedTwice(fs.l, d0, d1, fs.d, s0, s1, fs.logged, x, {i});
    RoundWritten(fs.l, d0, d1, fs.d, own1, fs.own, i, off, src, tot, m, good, o, s0, s1, fs.logged);
    if OneBitmap(fs.l) && o == Fault && EndBlock(off, tot) <= BlockOf(off + tot) {
      RoundMissed(fs.l, d0, d1, fs.d, own1, i, off, src[..tot], tot, s0, s1, fs.logged);
    }
  }

  // A fault in a block that the file had adds nothing to the log, and the rounds before it logged others.
  lemma RoundMissed(l: Layout, d0: Disk, d1: Disk, d2: Disk, own1: Owners, i: nat, off: nat, x: seq<byte>, tot: nat,
                    s0: set<nat>, s1: set<nat>, s2: set<nat>)
    requires Written(l, d0, d1, own1, i, off, x, tot, EndBlock(off, tot), s0, s1) && OneBitmap(l)
    requires EndBlock(off, tot) <= BlockOf(off + tot) < MAXFILE && Shape(l, d2) && Grown(l, d1, d2, i)
    requires Addr(d1, i, BlockOf(off + tot)) != 0 ==> s2 == s1
    ensures Missed(d0, d2, i, off + tot, s0, s2)
  {
    hide Owned, Replaced, Backed, Ref, BlockOf, EndBlock;
    var bn := BlockOf(off + tot);
    if Addr(d0, i, bn) != 0 {
      assert Addr(d1, i, bn) == Addr(d0, i, bn) && Addr(d2, i, bn) == Addr(d1, i, bn);
      NotLogged(l, d1, own1, i, BlockOf(off), EndBlock(off, tot), bn);
    }
  }

  // The loop of writei, before the size is brought up to date.  Only the first avail bytes of
  // src can be read.
  method WriteLoop(fs: FileSystem, i: nat, off: nat, src: seq<byte>, avail: nat)
    returns (tot: nat, ghost landed: nat, ghost hi: nat)
    requires Inv(fs.l, fs.d, fs.own) && i < fs.l.ninodes && 0 < |src| && off + |src| <= MAXFILE * BSIZE
    modifies fs
    ensures tot <= landed <= |src| && (tot > 0 ==> tot <= avail)
    ensures landed == if tot < |src| && !NoBlock(fs.d, i, off + tot) then Max(tot, avail) else tot
    ensures tot == Whole(off, |src|, avail) || (tot < Whole(off, |src|, avail) && NoBlock(fs.d, i, off + tot))
    ensures tot < |src| && !NoBlock(fs.d, i, off + tot) ==> avail < |src|
    ensures tot < |src| && NoBlock(fs.d, i, off + tot) ==> FullDisk(fs.l, fs.d)
    ensures hi <= EndBlock(off, |src|) <= MAXFILE
    ensures avail >= |src| ==> tot in {0, |src|} || OffsetOf(off + tot) == 0
    ensures avail >= |src| && tot < |src| ==> NoBlock(fs.d, i, off + tot)
    ensures Written(fs.l, old(fs.d), fs.d, fs.own, i, off, src[..landed], tot, hi, old(fs.logged), fs.logged)
    ensures Noted(fs.l, old(fs.d), fs.d, old(fs.logged), fs.logged, Spoiled(fs.d, i, off + tot, tot < landed), {i})
    ensures OneBitmap(fs.l) && tot < landed ==> Missed(old(fs.d), fs.d, i, off + tot, old(fs.logged), fs.logged)
    ensures tot == 0 && NoBlock(fs.d, i, off) && BlockOf(off) < NDIRECT ==> fs.d == old(fs.d)
    ensures tot == 0 && NoBlock(fs.d, i, off) ==> Spent(old(fs.d), old(fs.own), fs.own, i, BlockOf(off), true)
    ensures tot > 0 && EndBlock(off, |src|) == BlockOf(off) + 1 ==>
              Spent(old(fs.d), old(fs.own), fs.own, i, BlockOf(off), false)
  {
    hide Written, FullDisk, EndBlock, ChunkLen, Readable, Owned, Shape, OffsetOf, BlockAt, Noted, Whole, Missed,
        BlockOf, Spent, Price;
    NotedSame(fs.l, fs.d, fs.logged, {}, {i});
    tot := 0;
    landed := 0;
    WrittenNothing(fs.l, fs.d, fs.own, i, off, fs.logged);
    assert src[..0] == [];
    EndBlocks(off, |src|, |src|);
    hi := EndBlock(off, 0);
    EndBlocks(off, 0, |src|);
    OneChunk(off, |src|);
    while tot < |src|
      invariant tot in {0, |src|} || OffsetOf(off + tot) == 0
      invariant tot == 0 ==> fs.d == old(fs.d) && fs.own == old(fs.own)
      invariant tot > 0 && EndBlock(off, |src|) == BlockOf(off) + 1 ==>
                  tot == |src| && Spent(old(fs.d), old(fs.own), fs.own, i, BlockOf(off), false)
      invariant tot <= |src| && landed == tot && (tot > 0 ==> tot <= avail)
                && hi == EndBlock(off, tot) <= EndBlock(off, |src|) <= MAXFILE
      invariant Written(fs.l, old(fs.d), fs.d, fs.own, i, off, src[..tot], tot, hi, old(fs.logged), fs.logged)
      invariant Noted(fs.l, old(fs.d), fs.d, old(fs.logged), fs.logged, {}, {i})
    {
      WholeAt(off, |src|, avail, tot);
      NextBlock(off, tot);
      var o, m, good := WriteRound(fs, i, off, src, avail, tot, old(fs.d), old(fs.logged));
      EndBlocks(off, tot + m, |src|);
      hi := EndBlock(off, tot + m);
      if o == Full { return; }
      landed := tot + good;
      if o == Fault {
        WrittenLess(fs.l, old(fs.d), fs.d, fs.own, i, off, src[..landed], landed, tot, hi, old(fs.logged), fs.logged);
        return;
      }
      tot := tot + m;
    }
    WholeAll(off, |src|, avail);
  }

  // Bytes of one block are written in one round.
  lemma OneChunk(off: nat, n: nat)
    requires n > 0 && off + n <= MAXFILE * BSIZE
    ensures BlockOf(off) < MAXFILE && (EndBlock(off, n) == BlockOf(off) + 1 ==> ChunkLen(off, n, 0) == n)
  {
  }

  lemma NextBlock(off: nat, tot: nat)
    requires tot == 0 || OffsetOf(off + tot) == 0
    ensures EndBlock(off, tot) <= BlockOf(off + tot)
  {
  }

  // How many of n bytes to be written at off are counted when only the first avail can be read: those
  // of the blocks whose bytes can all be read.
  function Whole(off: nat, n: nat, avail: nat): (r: nat)
    ensures r <= n && (r > 0 ==> r <= avail) && (r < n ==> avail < n)
  {
    if avail >= n then n else Max(0, (off + avail) / BSIZE * BSIZE - off)
  }

  lemma WholeAt(off: nat, n: nat, avail: nat, tot: nat)
    requires tot < n && (tot == 0 || (OffsetOf(off + tot) == 0 && tot <= avail))
    ensures avail < tot + ChunkLen(off, n, tot) ==> tot == Whole(off, n, avail)
    ensures avail >= tot + ChunkLen(off, n, tot) ==> tot < Whole(off, n, avail)
  {
  }

  lemma WholeAll(off: nat, n: nat, avail: nat)
    requires n <= avail
    ensures Whole(off, n, avail) == n
  {
  }

  // Whether a copy is interrupted in the middle of a block.
  lemma WholeOrNot(off: nat, n: nat, avail: nat)
    ensures Whole(off, n, avail) < Min(avail, n) <==> 0 < avail < n && (off + avail) % BSIZE != 0
  {
  }

  lemma EndBlocks(off: nat, t: nat, n: nat)
    requires t <= n && off + n <= MAXFILE * BSIZE && 0 < n
    ensures EndBlock(off, t) <= EndBlock(off, n) <= MAXFILE
  {
  }

  // ---------------------------------------------------------------- writei and filewrite

  // The disk with inode i's size brought up to date.
  function Resize(d: Disk, i: nat, size: nat): (r: Disk)
    requires i < |d.ino|
  {
    d.(ino := d.ino[i := d.ino[i].(size := size)])
  }

  lemma ResizedOk(l: Layout, d0: Disk, d: Disk, own0: Owners, own: Owners, i: nat, off: nat, tot: nat)
    requires FilesOk(l, d0, own0) && Inv(l, d, own) && i < l.ninodes && Grown(l, d0, d, i) && off <= d0.ino[i].size
    requires off + tot <= MAXFILE * BSIZE && Backed(d, i, off, off + tot)
    ensures var d' := Resize(d, i, Max(d.ino[i].size, off + tot));
            FilesOk(l, d', own) && forall j, k :: 0 <= j < l.ninodes && 0 <= k ==> ByteAt(d', j, k) == ByteAt(d, j, k)
  {
    hide Owned;
    var d' := Resize(d, i, Max(d.ino[i].size, off + tot));
    SizeIsNoRef(l, d, d', own);
    forall j | 0 <= j < l.ninodes ensures Mapped(d', j) {
      assert Mapped(d0, j);
      forall bn | 0 <= bn < MAXFILE && bn * BSIZE < d'.ino[j].size ensures Addr(d', j, bn) != 0 {
        assert Addr(d', j, bn) == Addr(d, j, bn);
        if bn * BSIZE < d0.ino[j].size {
          assert Addr(d0, j, bn) != 0;
        } else {
          assert BlockOf(bn * BSIZE) == bn;
          assert (bn * BSIZE) / BSIZE == bn;
          assert Addr(d, i, (bn * BSIZE) / BSIZE) != 0;
        }
      }
    }
  }

  // A byte sequence with x written over it at off, growing if x reaches past its end.
  function Patch(f: seq<byte>, off: nat, x: seq<byte>): (r: seq<byte>)
    requires off <= |f|
    ensures |r| == Max(|f|, off + |x|)
    ensures forall k :: 0 <= k < |r| ==> r[k] == if off <= k < off + |x| then x[k - off] else f[k]
  {
    f[..off] + x + (if off + |x| < |f| then f[off + |x|..] else [])
  }

  lemma PatchedBytes(l: Layout, d0: Disk, d: Disk, i: nat, off: nat, x: seq<byte>, w: nat)
    requires Shape(l, d0) && Shape(l, d) && i < l.ninodes && off <= d0.ino[i].size && w <= |x|
    requires d.ino[i].size == Max(d0.ino[i].size, off + w) && (w < |x| ==> off + w == d.ino[i].size)
    requires Replaced(l, d0, d, i, off, x)
    ensures Bytes(l, d, i) == Patch(Bytes(l, d0, i), off, x[..w])
    ensures forall j :: 0 <= j < l.ninodes && j != i && d.ino[j].size == d0.ino[j].size ==>
                          Bytes(l, d, j) == Bytes(l, d0, j)
  {
    hide Shape;
    var a, b := Bytes(l, d, i), Patch(Bytes(l, d0, i), off, x[..w]);
    forall k | 0 <= k < |a| ensures a[k] == b[k] {}
  }

  // At most n blocks are new in after.
  ghost predicate LogsAtMost(before: set<nat>, after: set<nat>, n: int) { |after - before| <= n }

  // Besides the blocks in known, at most n are new.
  ghost predicate LogsBut(before: set<nat>, after: set<nat>, known: set<nat>, n: int) { |after - before - known| <= n }

  lemma LogCount(l: Layout, d: Disk, i: nat, lo: nat, hi: nat, s0: set<nat>, s: set<nat>, ib: nat)
    requires i < |d.ino| && |d.ino[i].addrs| == NDIRECT + 1 && lo <= hi <= MAXFILE && LogsOnly(l, d, i, lo, hi, s0, s)
    ensures LogsAtMost(s0, s + {ib}, 3 + hi - lo) && LogsBut(s0, s + {ib}, {l.bmapstart, ib}, 1 + hi - lo)
  {
    var rest := {d.ino[i].addrs[IND]} + Data(d, i, lo, hi);
    var added, known := s + {ib} - s0, {l.bmapstart, ib};
    assert added - known <= rest;
    SubsetSize(added - known, rest);
    assert |rest| <= 1 + |Data(d, i, lo, hi)|;
    assert added <= (added - known) + known;
    SubsetSize(added, (added - known) + known);
    assert |(added - known) + known| <= |added - known| + |known|;
  }

  // The bytes of the file that a write changes: all that landed, cut at the new end of file.
  function Visible(size: nat, off: nat, tot: nat, landed: nat): (w: nat)
    requires off <= size && tot <= landed
    ensures tot <= w <= landed && (tot < w ==> off + tot < size)
  {
    Min(landed, Max(size, off + tot) - off)
  }

  // No inode but i changed, nor did the bytes of any other file.
  ghost predicate OthersKept(l: Layout, d0: Disk, d: Disk, i: nat)
    requires Shape(l, d0) && Shape(l, d)
  {
    forall j :: 0 <= j < l.ninodes && j != i ==> d.ino[j] == d0.ino[j] && Bytes(l, d, j) == Bytes(l, d0, j)
  }

  lemma OthersKeptTwice(l: Layout, d0: Disk, d1: Disk, d2: Disk, i: nat)
    requires Shape(l, d0) && Shape(l, d1) && Shape(l, d2) && OthersKept(l, d0, d1, i) && OthersKept(l, d1, d2, i)
    ensures OthersKept(l, d0, d2, i)
  {
    hide Bytes;
    forall j | 0 <= j < l.ninodes && j != i ensures d2.ino[j] == d0.ino[j] && Bytes(l, d2, j) == Bytes(l, d0, j) {
      assert d2.ino[j] == d1.ino[j] && d1.ino[j] == d0.ino[j];
    }
  }

  lemma WriteBytes(l: Layout, d0: Disk, d: Disk, own0: Owners, own: Owners, i: nat, off: nat, x: seq<byte>, tot: nat,
                   hi: nat, s0: set<nat>, s: set<nat>)
    requires FilesOk(l, d0, own0) && i < l.ninodes && off <= d0.ino[i].size && tot <= |x|
    requires Written(l, d0, d, own, i, off, x, tot, hi, s0, s)
    ensures |d.ino| == |d0.ino| && i < |d.ino|
    ensures var size := d0.ino[i].size;
            var d' := Resize(d, i, Max(size, off + tot));
            && FilesOk(l, d', own)
            && (FullDisk(l, d) ==> FullDisk(l, d'))
            && Bytes(l, d', i) == Patch(Bytes(l, d0, i), off, x[..Visible(size, off, tot, |x|)])
            && OthersKept(l, d0, d', i)
            && d'.ino[i].kind == d0.ino[i].kind && d'.ino[i].nlink == d0.ino[i].nlink
  {
    hide Owned, Mapped, Backed, LogsOnly;
    var d' := Resize(d, i, Max(d0.ino[i].size, off + tot));
    assert d.ino[i].size == d0.ino[i].size;
    ResizedOk(l, d0, d, own0, own, i, off, tot);
    assert Replaced(l, d0, d', i, off, x);
    PatchedBytes(l, d0, d', i, off, x, Visible(d0.ino[i].size, off, tot, |x|));
  }

  lemma WriteLogs(l: Layout, d0: Disk, d: Disk, own: Owners, i: nat, off: nat, x: seq<byte>, tot: nat, hi: nat,
                  s0: set<nat>, s: set<nat>, ib: nat, hi': nat)
    requires Written(l, d0, d, own, i, off, x, tot, hi, s0, s) && OneBitmap(l) && hi <= hi'
    ensures LogsAtMost(s0, s + {ib}, 3 + hi' - BlockOf(off))
            && LogsBut(s0, s + {ib}, {l.bmapstart, ib}, 1 + hi' - BlockOf(off))
  {
    hide Owned, Grown, Replaced, Backed, LogsOnly;
    LogCount(l, d, i, BlockOf(off), hi, s0, s, ib);
  }

  // Below the old end of the file every block was there already.
  lemma OldBlocks(l: Layout, d0: Disk, d: Disk, own0: Owners, own: Owners, i: nat, off: nat, x: seq<byte>, tot: nat,
                  hi: nat, s0: set<nat>, s: set<nat>)
    requires FilesOk(l, d0, own0) && i < l.ninodes && off + tot < d0.ino[i].size
             && Written(l, d0, d, own, i, off, x, tot, hi, s0, s)
    ensures !NoBlock(d, i, off + tot)
  {
    hide Owned, Replaced, Backed, LogsOnly;
    InFile(d0, i, off + tot);
  }

  // The copy that followed the r bytes counted was interrupted after some of its bytes.
  predicate Interrupted(d: Disk, i: nat, off: nat, n: nat, avail: nat, r: int)
    ensures Interrupted(d, i, off, n, avail, r) ==> 0 <= r < n && r < avail
  {
    0 <= r < n && r < avail && !NoBlock(d, i, off + r)
  }

  // What a write of n bytes at off returns, and how many bytes of a file of the given size it changes.
  ghost predicate Tally(l: Layout, d: Disk, i: nat, size: nat, off: nat, n: nat, avail: nat, r: nat, w: nat) {
    && (r == Whole(off, n, avail) || (r < Whole(off, n, avail) && NoBlock(d, i, off + r)))
    && (r < n && NoBlock(d, i, off + r) ==> FullDisk(l, d))
    && w == if Interrupted(d, i, off, n, avail, r) then Min(avail, Max(size, off + r) - off) else r
  }

  lemma TallyLoop(l: Layout, d: Disk, i: nat, size: nat, off: nat, n: nat, avail: nat, tot: nat, landed: nat)
    requires off <= size && tot <= landed <= n && (tot < n ==> FullDisk(l, d) || !NoBlock(d, i, off + tot))
    requires landed == if tot < n && !NoBlock(d, i, off + tot) then Max(tot, avail) else tot
    requires tot == Whole(off, n, avail) || (tot < Whole(off, n, avail) && NoBlock(d, i, off + tot))
    ensures Tally(l, d, i, size, off, n, avail, tot, Visible(size, off, tot, landed))
    ensures off + n <= size && (tot < n ==> !NoBlock(d, i, off + tot)) ==>
              tot == Whole(off, n, avail) && Visible(size, off, tot, landed) == Min(avail, n)
    ensures Interrupted(d, i, off, n, avail, tot) <==> tot < landed
  {
    hide FullDisk, BlockAt;
    WholeOrNot(off, n, avail);
  }

  // Write src at off; only its first avail bytes can be read.  The result is the number of bytes
  // written, or -1; w counts the bytes of the file that changed.  Whatever changed was logged, except
  // the one block in which a copy was interrupted: there bytes beyond the result have changed.
  method Writei(fs: FileSystem, i: nat, off: nat, src: seq<byte>, avail: nat) returns (r: int, ghost w: nat)
    requires FilesOk(fs.l, fs.d, fs.own) && i < fs.l.ninodes && off < 0x1_0000_0000 && |src| < 0x1_0000_0000
    modifies fs
    ensures FilesOk(fs.l, fs.d, fs.own)
    ensures r == -1 <==> off > old(fs.d).ino[i].size || off + |src| > MAXFILE * BSIZE
    ensures r == -1 ==> fs.d == old(fs.d) && fs.logged == old(fs.logged) && w == 0
    ensures r != -1 ==> 0 <= r <= w <= |src| && fs.d.ino[i].size == Max(old(fs.d).ino[i].size, off + r)
    ensures r != -1 ==> Bytes(fs.l, fs.d, i) == Patch(Bytes(fs.l, old(fs.d), i), off, src[..w])
    ensures r != -1 ==> Tally(fs.l, fs.d, i, old(fs.d).ino[i].size, off, |src|, avail, r, w)
    ensures r != -1 && off + |src| <= old(fs.d).ino[i].size ==> r == Whole(off, |src|, avail) && w == Min(avail, |src|)
    ensures r != -1 && avail >= |src| ==> r in {0, |src|} || OffsetOf(off + r) == 0
    ensures OthersKept(fs.l, old(fs.d), fs.d, i)
    ensures fs.d.ino[i].kind == old(fs.d).ino[i].kind && fs.d.ino[i].nlink == old(fs.d).ino[i].nlink
    ensures Noted(fs.l, old(fs.d), fs.d, old(fs.logged), fs.logged,
                  Spoiled(fs.d, i, off + Max(r, 0), Interrupted(fs.d, i, off, |src|, avail, r)), {})
    ensures r == 0 < |src| && NoBlock(fs.d, i, off) && BlockOf(off) < NDIRECT ==> fs.d.blk == old(fs.d).blk
    ensures r == 0 < |src| && NoBlock(fs.d, i, off) ==> Spent(old(fs.d), old(fs.own), fs.own, i, BlockOf(off), true)
    ensures r > 0 && EndBlock(off, |src|) == BlockOf(off) + 1 ==>
              Spent(old(fs.d), old(fs.own), fs.own, i, BlockOf(off), false)
    ensures OneBitmap(fs.l) && Interrupted(fs.d, i, off, |src|, avail, r) ==>
              Missed(old(fs.d), fs.d, i, off + r, old(fs.logged), fs.logged - {IBlock(fs.l, i)})
    ensures r != -1 && OneBitmap(fs.l) ==> LogsAtMost(old(fs.logged), fs.logged,
                                                      3 + EndBlock(off, |src|) - BlockOf(off))
    ensures r != -1 && OneBitmap(fs.l) ==> LogsBut(old(fs.logged), fs.logged, {fs.l.bmapstart, IBlock(fs.l, i)},
                                                   1 + EndBlock(off, |src|) - BlockOf(off))
  {
    hide Owned, Mapped, Written, Bytes, LogsAtMost, LogsBut, EndBlock, BlockOf, FullDisk, BlockAt, Noted, Whole,
        Tally, Interrupted, Visible, Spent;
    w := 0;
    var size := fs.d.ino[i].size;
    NotedSame(fs.l, fs.d, fs.logged, {}, {});
    if off > size || off + |src| > MAXFILE * BSIZE { return -1, 0; }
    if |src| == 0 {
      WriteNothing(fs.l, fs.d, fs.own, i, off, fs.logged);
      WholeAll(off, 0, avail);
      TallyLoop(fs.l, fs.d, i, size, off, 0, avail, 0, 0);
      NotedSame(fs.l, fs.d, fs.logged, {}, {i});
      NotedInode(fs.l, fs.d, fs.d, fs.logged, fs.logged, {}, i);
      fs.d := Resize(fs.d, i, Max(size, off));
      fs.logged := fs.logged + {IBlock(fs.l, i)};
      return 0, 0;
    }
    var tot;
    ghost var landed, hi;
    tot, landed, hi := WriteLoop(fs, i, off, src, avail);
    ghost var d1 := fs.d;
    WriteBytes(fs.l, old(fs.d), d1, old(fs.own), fs.own, i, off, src[..landed], tot, hi, old(fs.logged), fs.logged);
    if OneBitmap(fs.l) {
      WriteLogs(fs.l, old(fs.d), d1, fs.own, i, off, src[..landed], tot, hi, old(fs.logged), fs.logged,
                IBlock(fs.l, i), EndBlock(off, |src|));
    }
    if tot < |src| && off + |src| <= size {
      OldBlocks(fs.l, old(fs.d), d1, old(fs.own), fs.own, i, off, src[..landed], tot, hi, old(fs.logged), fs.logged);
    }
    w := Visible(size, off, tot, landed);
    assert src[..landed][..w] == src[..w];
    TallyLoop(fs.l, d1, i, size, off, |src|, avail, tot, landed);
    TallyResize(fs.l, d1, i, size, off, |src|, avail, tot, w);
    ResizeNoted(fs.l, old(fs.d), d1, old(fs.logged), fs.logged, i, off + tot, tot < landed, Max(size, off + tot));
    assert fs.logged + {IBlock(fs.l, i)} - {IBlock(fs.l, i)} <= fs.logged;
    fs.d := Resize(fs.d, i, Max(size, off + tot));
    fs.logged := fs.logged + {IBlock(fs.l, i)};
    r := tot;
  }

  lemma TallyResize(l: Layout, d: Disk, i: nat, size: nat, off: nat, n: nat, avail: nat, r: nat, w: nat)
    requires i < |d.ino| && Tally(l, d, i, size, off, n, avail, r, w)
             && (FullDisk(l, d) ==> FullDisk(l, Resize(d, i, Max(size, off + r))))
    ensures Tally(l, Resize(d, i, Max(size, off + r)), i, size, off, n, avail, r, w)
    ensures Interrupted(Resize(d, i, Max(size, off + r)), i, off, n, avail, r) == Interrupted(d, i, off, n, avail, r)
  {
    hide FullDisk;
    assert BlockAt(Resize(d, i, Max(size, off + r)), i, off + r) == BlockAt(d, i, off + r);
  }

  // iupdate covers the inode, size and addresses.
  lemma ResizeNoted(l: Layout, d0: Disk, d: Disk, s0: set<nat>, s: set<nat>, i: nat, pos: nat, bad: bool, size: nat)
    requires LayoutOk(l) && i < l.ninodes && i < |d.ino| && Noted(l, d0, d, s0, s, Spoiled(d, i, pos, bad), {i})
    ensures BlockAt(Resize(d, i, size), i, pos) == BlockAt(d, i, pos)
    ensures Noted(l, d0, Resize(d, i, size), s0, s + {IBlock(l, i)}, Spoiled(d, i, pos, bad), {})
  {
  }

  lemma WriteNothing(l: Layout, d: Disk, own: Owners, i: nat, off: nat, s: set<nat>)
    requires FilesOk(l, d, own) && i < l.ninodes && off <= d.ino[i].size
    ensures Resize(d, i, Max(d.ino[i].size, off)) == d && Patch(Bytes(l, d, i), off, []) == Bytes(l, d, i)
    ensures LogsAtMost(s, s + {IBlock(l, i)}, 3 + EndBlock(off, 0) - BlockOf(off))
    ensures LogsBut(s, s + {IBlock(l, i)}, {l.bmapstart, IBlock(l, i)}, 1 + EndBlock(off, 0) - BlockOf(off))
  {
    hide Owned, Mapped;
    assert s + {IBlock(l, i)} - s <= {IBlock(l, i)};
    SubsetSize(s + {IBlock(l, i)} - s, {IBlock(l, i)});
    assert s + {IBlock(l, i)} - s - {l.bmapstart, IBlock(l, i)} == {};
  }

  // ---------------------------------------------------------------- open files

  // The file f with x written at off; nothing at all when x is empty.
  function Edit(f: seq<byte>, off: nat, x: seq<byte>): seq<byte>
    requires off <= |f| || x == []
  {
    if x == [] then f else Patch(f, off, x)
  }

  lemma EditTwice(f: seq<byte>, off: nat, x: seq<byte>, y: seq<byte>)
    requires off <= |f|
    ensures Edit(Edit(f, off, x), off + |x|, y) == Edit(f, off, x + y)
  {
    if x != [] && y != [] {
      assert Patch(Patch(f, off, x), off + |x|, y) == Patch(f, off, x + y);
    } else {
      assert x + y == if y == [] then x else y;
    }
  }

  // The most bytes filewrite passes to one writei.
  const CHUNK := (MAXOPBLOCKS - 1 - 1 - 2) / 2 * BSIZE

  // A chunk spans few enough blocks for the reservation of one operation.
  lemma ChunkBlocks(off: nat, n: nat)
    requires n <= CHUNK
    ensures 3 + EndBlock(off, n) - BlockOf(off) <= 7 < MAXOPBLOCKS
  {
  }

  lemma EmptyEdit(f: seq<byte>, off: nat)
    requires off <= |f|
    ensures Patch(f, off, []) == f
  {
  }

  // Every transaction in ops logs at most n distinct blocks.
  ghost predicate SmallOps(ops: seq<set<nat>>, n: nat) { forall k :: 0 <= k < |ops| ==> |ops[k]| <= n }

  lemma OthersStay(l: Layout, d: Disk, i: nat)
    requires Shape(l, d)
    ensures OthersKept(l, d, d, i)
  {
  }

  lemma NoOps(n: nat)
    ensures SmallOps([], n)
  {
  }

  lemma AnotherOp(ops: seq<set<nat>>, s: set<nat>, n: nat)
    ensures SmallOps(ops, n) && |s| <= n ==> SmallOps(ops + [s], n)
  {
  }

  lemma NoEdit(f: seq<byte>, off: nat, x: seq<byte>)
    ensures x[..0] == [] && Edit(f, off, x[..0]) == f
  {
  }

  // Why a write to inode i, begun at start, stopped at off with n more bytes to go: it began beyond the
  // end of the file, there is no room left in the inode, the next byte has no block and the disk no
  // free one, or the source cannot be read.
  ghost predicate Stopped(l: Layout, d: Disk, i: nat, start: nat, size: nat, off: nat, n: nat, avail: int) {
    start > size || off + Min(n, CHUNK) > MAXFILE * BSIZE || (NoBlock(d, i, off) && FullDisk(l, d)) || avail < n
  }

  // An int passed as a uint.
  function Unsigned(n: int): (r: nat)
    requires -0x8000_0000 <= n < 0x8000_0000
    ensures r < 0x1_0000_0000
  {
    if n < 0 then n + 0x1_0000_0000 else n
  }

  class OpenFile {
    var off: nat
    const readable: bool
    const writable: bool
    const inum: nat

    constructor (inum: nat, readable: bool, writable: bool)
      ensures this.inum == inum && this.readable == readable && this.writable == writable && off == 0
    {
      this.inum, this.readable, this.writable, off := inum, readable, writable, 0;
    }

    // Reading changes nothing but the offset: no block is allocated and none is logged.  readi takes
    // its count as unsigned, so a negative n asks for all there is at offset 0 and for nothing elsewhere.
    method Read(fs: FileSystem, n: int, room: nat) returns (r: int, dst: seq<byte>)
      requires FilesOk(fs.l, fs.d, fs.own) && inum < fs.l.ninodes && off < 0x1_0000_0000
      requires -0x8000_0000 <= n < 0x8000_0000
      modifies this, fs
      ensures fs.d == old(fs.d) && fs.own == old(fs.own) && fs.logged == old(fs.logged)
      ensures off == old(off) + Max(r, 0)
      ensures !readable ==> r == -1 && dst == []
      ensures readable && old(off) <= fs.d.ino[inum].size && old(off) + Unsigned(n) < 0x1_0000_0000 ==>
                var want := Min(Unsigned(n), fs.d.ino[inum].size - old(off));
                if room >= want then r == want && dst == Bytes(fs.l, fs.d, inum)[old(off)..old(off) + want]
                else r == -1 && dst == Bytes(fs.l, fs.d, inum)[old(off)..old(off) + room]
      ensures readable && (old(off) > fs.d.ino[inum].size || old(off) + Unsigned(n) >= 0x1_0000_0000) ==>
                r == 0 && dst == []
    {
      if !readable { return -1, []; }
      r, dst := Readi(fs, inum, off, Unsigned(n), room);
      if r > 0 { off := off + r; }
    }

    // One transaction of filewrite: at most CHUNK bytes, at most seven blocks logged.
    method WriteChunk(fs: FileSystem, src: seq<byte>, avail: nat) returns (r: int, ghost w: nat)
      requires FilesOk(fs.l, fs.d, fs.own) && inum < fs.l.ninodes && off < 0x1_0000_0000 && 0 < |src| <= CHUNK
      modifies this, fs
      ensures FilesOk(fs.l, fs.d, fs.own) && off == old(off) + Max(r, 0) && off < 0x1_0000_0000
      ensures -1 <= r <= w as int <= |src| && (r > 0 ==> r <= avail)
              && (w > 0 ==> r >= 0 && old(off) <= old(fs.d).ino[inum].size)
      ensures fs.d.ino[inum].size >= old(fs.d).ino[inum].size && (r > 0 ==> off <= fs.d.ino[inum].size)
      ensures Bytes(fs.l, fs.d, inum) == Edit(Bytes(fs.l, old(fs.d), inum), old(off), src[..w])
      ensures r == -1 ==> old(off) > old(fs.d).ino[inum].size || old(off) + |src| > MAXFILE * BSIZE
      ensures r >= 0 ==> Tally(fs.l, fs.d, inum, old(fs.d).ino[inum].size, old(off), |src|, avail, r, w)
      ensures OthersKept(fs.l, old(fs.d), fs.d, inum)
      ensures Noted(fs.l, old(fs.d), fs.d, {}, fs.logged,
                    Spoiled(fs.d, inum, off, Interrupted(fs.d, inum, old(off), |src|, avail, r)), {})
      ensures OneBitmap(fs.l) ==> |fs.logged| <= 7
    {
      hide Owned, Mapped, Bytes, EndBlock, BlockOf, FullDisk, Noted, Whole;
      fs.logged := {};
      r, w := Writei(fs, inum, off, src, avail);
      if r > 0 { off := off + r; }
      ChunkBlocks(old(off), |src|);
      assert fs.logged - {} == fs.logged;
      if r == -1 { w := 0; }
      if r == 0 { EmptyEdit(Bytes(fs.l, old(fs.d), inum), old(off)); }
      assert w == 0 ==> src[..w] == [];
    }

    // filewrite on an inode: done counts the bytes reported to the offset and w the bytes of the file
    // that changed.  Each transaction k takes the disk from disks[k] to disks[k + 1] and logs ops[k];
    // x is what an interrupted copy of the last one left out.
    method Write(fs: FileSystem, src: seq<byte>, n: int, avail: nat)
      returns (r: int, ghost done: nat, ghost w: nat, ghost disks: seq<Disk>, ghost ops: seq<set<nat>>,
               ghost x: set<nat>)
      requires FilesOk(fs.l, fs.d, fs.own) && inum < fs.l.ninodes && off < 0x1_0000_0000 && |src| == Max(n, 0)
               && n < 0x8000_0000
      modifies this, fs
      ensures FilesOk(fs.l, fs.d, fs.own) && off == old(off) + done && done <= w <= |src|
      ensures r == if writable && done == n then n else -1
      ensures !writable ==> w == 0
      ensures w > 0 ==> old(off) <= old(fs.d).ino[inum].size
      ensures Bytes(fs.l, fs.d, inum) == Edit(Bytes(fs.l, old(fs.d), inum), old(off), src[..w])
      ensures writable && done < |src| ==> Stopped(fs.l, fs.d, inum, old(off), old(fs.d).ino[inum].size, off,
                                                   |src| - done, avail - done)
      ensures OthersKept(fs.l, old(fs.d), fs.d, inum)
      ensures Transactions(fs.l, disks, ops, x) && disks[0] == old(fs.d) && disks[|ops|] == fs.d
      ensures x == {} ==> w == done
      ensures x != {} ==> x == {BlockAt(fs.d, inum, off)} && done < avail < |src| && w <= avail
      ensures OneBitmap(fs.l) ==> SmallOps(ops, 7)
    {
      hide Owned, Mapped, Bytes, FullDisk, Patch, Edit, SmallOps, OthersKept, Noted, Transactions, BlockAt, Whole,
          Stopped, Tally, Interrupted;
      OthersStay(fs.l, fs.d, inum);
      done, w, disks, ops, x := 0, 0, [fs.d], [], {};
      NoOps(7);
      NoTransactions(fs.l, fs.d);
      if !writable {
        NoEdit(Bytes(fs.l, fs.d, inum), off, src);
        return -1, 0, 0, disks, ops, {};
      }
      ghost var f0 := Bytes(fs.l, fs.d, inum);
      var i := 0;
      NoEdit(f0, off, src);
      while i < n
        invariant 0 <= i <= |src| && off == old(off) + i && off < 0x1_0000_0000 && FilesOk(fs.l, fs.d, fs.own)
        invariant i <= avail && (i > 0 ==> old(off) <= |f0| && off <= fs.d.ino[inum].size)
        invariant fs.d.ino[inum].size >= |f0| && (i == 0 ==> fs.d.ino[inum].size == |f0|)
        invariant Bytes(fs.l, fs.d, inum) == Edit(f0, old(off), src[..i])
        invariant OthersKept(fs.l, old(fs.d), fs.d, inum)
        invariant Transactions(fs.l, disks, ops, {}) && disks[0] == old(fs.d) && disks[|ops|] == fs.d
        invariant OneBitmap(fs.l) ==> SmallOps(ops, 7)
      {
        var n1 := Min(n - i, CHUNK);
        var r1;
        ghost var w1;
        ghost var d1 := fs.d;
        r1, w1 := WriteChunk(fs, src[i..i + n1], avail - i);
        OthersKeptTwice(fs.l, old(fs.d), d1, fs.d, inum);
        AnotherOp(ops, fs.logged, 7);
        ghost var bad := Interrupted(fs.d, inum, old(off) + i, n1, avail - i, r1);
        AnotherTransaction(fs.l, disks, ops, fs.d, fs.logged, Spoiled(fs.d, inum, off, bad));
        disks, ops := disks + [fs.d], ops + [fs.logged];
        RoundEdit(f0, old(off), src, i, n1, w1);
        WholeChunk(fs.l, fs.d, inum, d1.ino[inum].size, old(off) + i, n1, avail - i, r1, w1);
        if r1 != n1 {
          done, w := i + Max(r1, 0), i + w1;
          ShortWrite(fs.l, fs.d, inum, old(off), |f0|, d1.ino[inum].size, old(off) + i, |src| - i, n1, avail - i, r1,
                     w1);
          assert |f0| == old(fs.d).ino[inum].size;
          return -1, done, w, disks, ops, Spoiled(fs.d, inum, off, bad);
        }
        i := i + r1;
      }
      done, w := i, i;
      r := if i == n then n else -1;
    }
  }

  lemma RoundEdit(f: seq<byte>, off: nat, src: seq<byte>, i: nat, n: nat, w: nat)
    requires i + n <= |src| && w <= n
    ensures src[..i] + src[i..i + n][..w] == src[..i + w]
    ensures off <= |f| ==> Edit(Edit(f, off, src[..i]), off + i, src[i..i + n][..w]) == Edit(f, off, src[..i + w])
  {
    hide Patch;
    assert src[..i] + src[i..i + n][..w] == src[..i + w];
    if off <= |f| { EditTwice(f, off, src[..i], src[i..i + n][..w]); }
  }

  // A chunk that was written whole changed no more than it says.
  lemma WholeChunk(l: Layout, d: Disk, i: nat, size: nat, off: nat, n: nat, avail: nat, r: int, w: nat)
    requires r == n ==> Tally(l, d, i, size, off, n, avail, r, w)
    ensures r == n ==> w == r && !Interrupted(d, i, off, n, avail, r)
  {
  }

  // Why a chunk of n out of m bytes was not written whole, and what it changed.
  lemma ShortWrite(l: Layout, d: Disk, i: nat, start: nat, size0: nat, size: nat, off: nat, m: nat, n: nat, avail: nat,
                   r: int, w: nat)
    requires size0 <= size && start <= off && n == Min(m, CHUNK) && -1 <= r < n
             && (off > start ==> off <= size) && (off == start ==> size == size0)
             && (r >= 0 ==> Tally(l, d, i, size, off, n, avail, r, w))
    requires r == -1 ==> w == 0 && (off > size || off + n > MAXFILE * BSIZE)
    ensures Stopped(l, d, i, start, size0, off + Max(r, 0), m - Max(r, 0), avail - Max(r, 0))
    ensures if Interrupted(d, i, off, n, avail, r) then r < avail < n && w <= avail else w == Max(r, 0)
  {
    hide FullDisk, BlockAt;
  }

  // A series of transactions: each logs what it changes, except that the last may leave out x.
  ghost predicate Transactions(l: Layout, disks: seq<Disk>, ops: seq<set<nat>>, x: set<nat>)
    ensures Transactions(l, disks, ops, x) ==> |disks| == |ops| + 1
  {
    && |disks| == |ops| + 1
    && forall k :: 0 <= k < |ops| ==> Noted(l, disks[k], disks[k + 1], {}, ops[k], if k == |ops| - 1 then x else {}, {})
  }

  lemma NoTransactions(l: Layout, d: Disk)
    ensures Transactions(l, [d], [], {})
  {
  }

  lemma AnotherTransaction(l: Layout, disks: seq<Disk>, ops: seq<set<nat>>, d: Disk, s: set<nat>, x: set<nat>)
    requires Transactions(l, disks, ops, {}) && Noted(l, disks[|ops|], d, {}, s, x, {})
    ensures Transactions(l, disks + [d], ops + [s], x)
  {
    hide Noted;
  }
}
