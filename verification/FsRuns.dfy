/** Whole runs of the file layer of kernel/fs.c, from any image that satisfies the invariant:
    the disk always stands for one byte sequence per inode, and no call panics. */
module FsRuns {
  import opened Collections
  import opened FsBytes
  import opened FsDisk
  import opened FsFiles
  import opened FsReadWrite
  import opened Params

  // The files of a disk, as byte sequences.
  ghost function Contents(l: Layout, d: Disk): (r: seq<seq<byte>>)
    requires Shape(l, d)
    ensures |r| == l.ninodes && forall i :: 0 <= i < l.ninodes ==> r[i] == Bytes(l, d, i)
  {
    seq(l.ninodes, i requires 0 <= i < l.ninodes => Bytes(l, d, i))
  }

  // itrunc makes the file empty and touches no other.
  method Truncate(fs: FileSystem, i: nat) returns (panic: bool)
    requires FilesOk(fs.l, fs.d, fs.own) && i < fs.l.ninodes
    modifies fs
    ensures !panic && FilesOk(fs.l, fs.d, fs.own)
    ensures Contents(fs.l, fs.d) == Contents(fs.l, old(fs.d))[i := []]
    ensures forall b :: b in fs.own <==> b in old(fs.own) && old(fs.own)[b].0 != i
    ensures fs.d.ino[i].kind == old(fs.d).ino[i].kind && fs.d.ino[i].nlink == old(fs.d).ino[i].nlink
    ensures forall j :: 0 <= j < fs.l.ninodes && j != i ==> fs.d.ino[j] == old(fs.d).ino[j]
    ensures Noted(fs.l, old(fs.d), fs.d, old(fs.logged), fs.logged, {}, {})
    ensures OneBitmap(fs.l) ==> fs.logged <= old(fs.logged) + {fs.l.bmapstart, IBlock(fs.l, i)}
  {
    hide Owned, Mapped, Contents, Noted;
    panic := fs.Itrunc(i);
    TruncatedFiles(fs.l, old(fs.d), fs.d, old(fs.own), fs.own, i);
  }

  lemma TruncatedFiles(l: Layout, d: Disk, d': Disk, own: Owners, own': Owners, i: nat)
    requires FilesOk(l, d, own) && Inv(l, d', own') && i < l.ninodes && Disowned(d, d', own, own', i)
    requires d'.ino == d.ino[i := d.ino[i].(size := 0, addrs := d'.ino[i].addrs)]
    requires forall j, t :: 0 <= j < l.ninodes && 0 <= t < SLOTS ==> Ref(d', j, t) == if j == i then 0 else Ref(d, j, t)
    ensures FilesOk(l, d', own') && Contents(l, d') == Contents(l, d)[i := []]
  {
    hide Owned, Ref;
    forall j | 0 <= j < l.ninodes ensures Mapped(d', j) && Bytes(l, d', j) == if j == i then [] else Bytes(l, d, j) {
      if j != i {
        assert Mapped(d, j);
        forall bn | 0 <= bn < MAXFILE ensures Addr(d', j, bn) == Addr(d, j, bn) {}
        forall k | 0 <= k < d.ino[j].size ensures ByteAt(d', j, k) == ByteAt(d, j, k) {
          KeptByte(l, d, d', own, own', i, j, k);
        }
      }
    }
    assert Contents(l, d') == Contents(l, d)[i := []];
  }

  lemma KeptByte(l: Layout, d: Disk, d': Disk, own: Owners, own': Owners, i: nat, j: nat, k: nat)
    requires Inv(l, d, own) && Inv(l, d', own') && i < l.ninodes && j < l.ninodes && j != i
             && Disowned(d, d', own, own', i)
    requires forall t :: 0 <= t < SLOTS ==> Ref(d', j, t) == Ref(d, j, t)
    ensures ByteAt(d', j, k) == ByteAt(d, j, k)
  {
    if k / BSIZE < MAXFILE && Addr(d, j, k / BSIZE) != 0 { AddrOwned(l, d, own, j, k / BSIZE); }
    hide Owned, Ref;
  }

  // ---------------------------------------------------------------- runs

  datatype Op = Write(off: nat, src: seq<byte>, avail: nat) | Read(off: nat, n: nat, room: nat) | Trunc
  datatype Call = Call(i: nat, op: Op)
  datatype Result = Wrote(r: int) | Got(r: int, dst: seq<byte>) | Emptied(panic: bool)

  predicate CallOk(n: nat, c: Call) {
    c.i < n && match c.op
      case Write(off, src, _) => off < 0x1_0000_0000 && |src| < 0x1_0000_0000
      case Read(off, m, _) => off < 0x1_0000_0000 && m < 0x1_0000_0000
      case Trunc => true
  }

  // Of n bytes to be written at off to a file of the given size, how many change when only the first
  // avail can be read and the disk does not fill up.
  function Changed(size: nat, off: nat, n: nat, avail: nat): (w: nat)
    requires off <= size
    ensures w <= n
  {
    var r := Whole(off, n, avail);
    if r < n && r < avail then Min(avail, Max(size, off + r) - off) else r
  }

  // What one call means for the byte sequences, without blocks; full says that no block is free after
  // it.  A write is complete unless its source faults or it runs out of blocks beyond the old end of
  // the file.
  ghost predicate Step(f: seq<seq<byte>>, c: Call, res: Result, f': seq<seq<byte>>, full: bool)
    requires CallOk(|f|, c)
  {
    var file := f[c.i];
    match c.op
      case Write(off, src, avail) =>
        if off > |file| || off + |src| > MAXFILE * BSIZE then res == Wrote(-1) && f' == f
        else
          || (res == Wrote(Whole(off, |src|, avail))
              && f' == f[c.i := Patch(file, off, src[..Changed(|file|, off, |src|, avail)])])
          || (full && off + |src| > |file| && res.Wrote? && 0 <= res.r <= Whole(off, |src|, avail)
              && f' == f[c.i := Patch(file, off, src[..res.r])])
      case Read(off, n, room) =>
        && f' == f && res.Got?
        && if off > |file| || off + n >= 0x1_0000_0000 then res == Got(0, [])
           else var want := Min(n, |file| - off);
             res == if room >= want then Got(want, file[off..off + want]) else Got(-1, file[off..off + room])
      case Trunc => res == Emptied(false) && f' == f[c.i := []]
  }

  // The block that call c changed and did not log: only an interrupted write has one.
  ghost function Unlogged(d: Disk, c: Call, res: Result): (x: set<nat>)
    ensures x != {} ==> c.op.Write? && 0 < c.op.avail < |c.op.src|
  {
    match c.op
      case Write(off, src, avail) =>
        if res.Wrote? && res.r >= 0 && Interrupted(d, c.i, off, |src|, avail, res.r)
        && avail < |src| then {BlockAt(d, c.i, off + res.r)} else {}
      case _ => {}
  }

  // Perform a list of calls, each a transaction of its own.  Call k takes the disk from disks[k] to
  // disks[k + 1] and logs ops[k].
  method Run(fs: FileSystem, calls: seq<Call>) returns (res: seq<Result>, ghost disks: seq<Disk>,
                                                        ghost ops: seq<set<nat>>)
    requires FilesOk(fs.l, fs.d, fs.own) && forall k :: 0 <= k < |calls| ==> CallOk(fs.l.ninodes, calls[k])
    modifies fs
    ensures FilesOk(fs.l, fs.d, fs.own)
    ensures |res| == |ops| == |calls| && |disks| == |calls| + 1 && disks[0] == old(fs.d) && disks[|calls|] == fs.d
    ensures forall k :: 0 <= k < |calls| ==> Performed(fs.l, disks[k], calls[k], res[k], disks[k + 1], ops[k])
  {
    hide Owned, Mapped, Performed;
    res, disks, ops := [], [fs.d], [];
    for n := 0 to |calls|
      invariant FilesOk(fs.l, fs.d, fs.own) && |res| == |ops| == n && |disks| == n + 1
      invariant disks[0] == old(fs.d) && disks[n] == fs.d
      invariant forall k :: 0 <= k < n ==> Performed(fs.l, disks[k], calls[k], res[k], disks[k + 1], ops[k])
    {
      var r := Perform(fs, calls[n]);
      res, disks, ops := res + [r], disks + [fs.d], ops + [fs.logged];
    }
  }

  // Call c did to the files of d what it means, and logged what it changed.
  ghost predicate Performed(l: Layout, d: Disk, c: Call, res: Result, d': Disk, s: set<nat>) {
    && Shape(l, d) && Shape(l, d') && CallOk(l.ninodes, c)
    && Step(Contents(l, d), c, res, Contents(l, d'), FullDisk(l, d'))
    && Noted(l, d, d', {}, s, Unlogged(d', c, res), {})
  }

  // The inodes after a call on inode i: the others as they were, and i of its kind.
  ghost predicate InodesKept(l: Layout, d: Disk, d': Disk, i: nat) {
    && |d.ino| == |d'.ino| == l.ninodes && i < l.ninodes
    && (forall j :: 0 <= j < l.ninodes && j != i ==> d'.ino[j] == d.ino[j])
    && d'.ino[i].kind == d.ino[i].kind && d'.ino[i].nlink == d.ino[i].nlink
  }

  method Perform(fs: FileSystem, c: Call) returns (res: Result)
    requires FilesOk(fs.l, fs.d, fs.own) && CallOk(fs.l.ninodes, c)
    modifies fs
    ensures FilesOk(fs.l, fs.d, fs.own)
    ensures Performed(fs.l, old(fs.d), c, res, fs.d, fs.logged)
    ensures InodesKept(fs.l, old(fs.d), fs.d, c.i) && (c.op.Read? ==> fs.d == old(fs.d))
    ensures OneBitmap(fs.l) && (c.op.Write? ==> |c.op.src| <= CHUNK) ==> |fs.logged| <= 7
  {
    hide Owned, Mapped, Bytes, Noted, Contents;
    fs.logged := {};
    NotedSame(fs.l, fs.d, {}, {}, {});
    match c.op
    case Write(off, src, avail) =>
      res := PerformWrite(fs, c.i, off, src, avail);
    case Read(off, n, room) =>
      var r, dst := Readi(fs, c.i, off, n, room);
      res := Got(r, dst);
    case Trunc =>
      var panic := Truncate(fs, c.i);
      if OneBitmap(fs.l) { SubsetSize(fs.logged, {fs.l.bmapstart, IBlock(fs.l, c.i)}); }
      res := Emptied(panic);
  }

  method PerformWrite(fs: FileSystem, i: nat, off: nat, src: seq<byte>, avail: nat) returns (res: Result)
    requires FilesOk(fs.l, fs.d, fs.own) && CallOk(fs.l.ninodes, Call(i, Write(off, src, avail))) && fs.logged == {}
    modifies fs
    ensures FilesOk(fs.l, fs.d, fs.own)
    ensures Performed(fs.l, old(fs.d), Call(i, Write(off, src, avail)), res, fs.d, fs.logged)
    ensures InodesKept(fs.l, old(fs.d), fs.d, i)
    ensures OneBitmap(fs.l) && |src| <= CHUNK ==> |fs.logged| <= 7
  {
    hide Owned, Mapped, Bytes, FullDisk, EndBlock, BlockOf, Patch, Noted, Whole, BlockAt, Contents;
    if |src| <= CHUNK { ChunkBlocks(off, |src|); }
    NotedSame(fs.l, fs.d, {}, {}, {});
    var r;
    ghost var w;
    r, w := Writei(fs, i, off, src, avail);
    res := Wrote(r);
    assert fs.logged - {} == fs.logged;
    if r != -1 {
      OneFile(fs.l, old(fs.d), fs.d, i);
      WriteStep(fs.l, fs.d, i, old(fs.d).ino[i].size, off, |src|, avail, r, w);
    }
  }

  // What Writei says, in terms of Step.
  lemma WriteStep(l: Layout, d: Disk, i: nat, size: nat, off: nat, n: nat, avail: nat, r: nat, w: nat)
    requires off <= size && Tally(l, d, i, size, off, n, avail, r, w)
    requires off + n <= size ==> r == Whole(off, n, avail) && w == Min(avail, n)
    ensures || (r == Whole(off, n, avail) && w == Changed(size, off, n, avail))
            || (FullDisk(l, d) && off + n > size && r <= Whole(off, n, avail) && w == r)
    ensures Interrupted(d, i, off, n, avail, r) ==> 0 < avail < n
  {
    hide FullDisk, BlockAt;
  }

  lemma OneFile(l: Layout, d0: Disk, d: Disk, i: nat)
    requires Shape(l, d0) && Shape(l, d) && OthersKept(l, d0, d, i) && i < l.ninodes
    ensures Contents(l, d) == Contents(l, d0)[i := Bytes(l, d, i)]
  {
    hide Bytes;
  }
}
