/** The file system on its log: whatever run of actions a power failure interrupts, recovery leaves a
    disk that stands for the file system after a prefix of them. */
module FsCrash {
  import opened Collections
  import opened FsBytes
  import opened FsDisk
  import opened FsFiles
  import opened FsInodes
  import opened FsReadWrite
  import opened FsSystem
  import opened LinkCounts
  import opened MkfsNames
  import opened Params
  import opened SysFile
  import FsRuns
  import Mkfs
  import I = LogProtocolInv
  import P = LogProtocol
  import R = LogRuns

  // ---------------------------------------------------------------- the file system as blocks

  predicate IsInodeBlock(l: Layout, b: nat) { l.inodestart <= b && IPB * (b - l.inodestart) < l.ninodes }

  // What block b holds.
  function BlockOn(l: Layout, d: Disk, b: nat): (r: seq<int>)
    requires Shape(l, d) && b < l.size
  {
    if IsInodeBlock(l, b) then InodeBlock(d.ino, b - l.inodestart) else d.blk[b]
  }

  function Flat(l: Layout, d: Disk): (r: seq<seq<int>>)
    requires Shape(l, d)
    ensures |r| == l.size && forall b :: 0 <= b < l.size ==> r[b] == BlockOn(l, d, b)
  {
    seq(l.size, b requires 0 <= b < l.size => BlockOn(l, d, b))
  }

  // A block that was not logged holds what it held, unless it is in x.
  lemma Unchanged(l: Layout, d: Disk, d': Disk, s: set<nat>, x: set<nat>, b: nat)
    requires Shape(l, d) && Shape(l, d') && Noted(l, d, d', {}, s, x, {}) && b < l.size && b !in s
    requires IsInodeBlock(l, b) || b !in x
    ensures BlockOn(l, d', b) == BlockOn(l, d, b)
  {
    hide Noted, BlockWord, ByteOf;
    NotedAt(l, d, d', s, x, b);
    if IsInodeBlock(l, b) {
      var q := b - l.inodestart;
      forall j: nat | j < NINDIRECT ensures BlockWord(d'.ino, q, j) == BlockWord(d.ino, q, j) {
        SameWord(l, d, d', s, x, q, j);
      }
      assert InodeBlock(d'.ino, q) == InodeBlock(d.ino, q);
    }
  }

  lemma NotedAt(l: Layout, d: Disk, d': Disk, s: set<nat>, x: set<nat>, b: nat)
    requires Noted(l, d, d', {}, s, x, {}) && b < |d.blk| && b !in s
    ensures |d'.blk| == |d.blk| && (b !in x ==> d'.blk[b] == d.blk[b])
  {
  }

  lemma SameWord(l: Layout, d: Disk, d': Disk, s: set<nat>, x: set<nat>, q: nat, j: nat)
    requires Shape(l, d) && Shape(l, d') && Noted(l, d, d', {}, s, x, {}) && q + l.inodestart !in s && j < NINDIRECT
    ensures BlockWord(d'.ino, q, j) == BlockWord(d.ino, q, j)
  {
    hide InodeWord;
    var i := IPB * q + j / 16;
    assert i / IPB == q && IBlock(l, i) == q + l.inodestart;
  }

  // The inodes of a sound disk fit struct dinode.
  lemma InodesFit(l: Layout, d: Disk, own: Owners, i: nat)
    requires Sound(l, d, own) && i < l.ninodes
    ensures DinodeOk(d.ino[i])
  {
    hide Shaped, Counted;
    assert InodeOk(d.ino[i]) && Mapped(d, i) && NodeOk(TreeOf(l, d), i);
    forall k | 0 <= k <= NDIRECT ensures d.ino[i].addrs[k] < 0x1_0000_0000 {
      assert Ref(d, i, k) == d.ino[i].addrs[k] && RefOk(d, own, NoCut, i, k);
      if d.ino[i].addrs[k] != 0 { assert OwnerOk(l, d, own, NoCut, d.ino[i].addrs[k]); }
    }
  }

  // ---------------------------------------------------------------- what is logged

  // The block that an interrupted copy left changed and not logged.
  ghost function Lost(d': Disk, a: Action, ans: Answer): (x: set<nat>)
    ensures x != {} ==> a.Data? && a.call.op.Write? && a.call.op.avail < |a.call.op.src|
  {
    if a.Data? && ans.OfData? then FsRuns.Unlogged(d', a.call, ans.res) else {}
  }

  lemma DidNoted(l: Layout, d: Disk, a: Action, ans: Answer, d': Disk, s: set<nat>)
    requires Did(l, d, a, ans, d', s)
    ensures Shape(l, d) && Shape(l, d') && Noted(l, d, d', {}, s, Lost(d', a, ans), {}) && (OneBitmap(l) ==> |s| <= 9)
  {
    hide Noted, FilesKept, HeldStay, CallDid, TreeOf, PutTree;
  }

  // All that the first k actions left so.
  ghost function LostBy(disks: seq<Disk>, actions: seq<Action>, answers: seq<Answer>, k: nat): (x: set<nat>)
    requires k <= |actions| && k <= |answers| && k < |disks|
    ensures (forall j :: 0 <= j < k ==> ReadsAll(actions[j])) ==> x == {}
  {
    if k == 0 then {} else LostBy(disks, actions, answers, k - 1) + Lost(disks[k], actions[k - 1], answers[k - 1])
  }

  // The source of a write can be read to its end.
  predicate ReadsAll(a: Action) { a.Data? && a.call.op.Write? ==> a.call.op.avail >= |a.call.op.src| }

  // The transactions of a run, as the log sees them.
  function Txs(l: Layout, disks: seq<Disk>, ops: seq<set<nat>>): (r: seq<R.Tx>)
    requires |disks| == |ops| + 1 && forall k :: 0 <= k < |disks| ==> Shape(l, disks[k])
    ensures |r| == |ops| && forall k :: 0 <= k < |r| ==> |r[k].data| == l.size
    ensures forall k :: 0 <= k < |r| ==> r[k] == R.Tx(ops[k], Flat(l, disks[k + 1]))
  {
    seq(|ops|, k requires 0 <= k < |ops| => R.Tx(ops[k], Flat(l, disks[k + 1])))
  }

  // What the log has committed after k actions is the file system after them, but for lost blocks.
  lemma {:induction false} Committed(l: Layout, disks: seq<Disk>, actions: seq<Action>, answers: seq<Answer>,
                                     ops: seq<set<nat>>, k: nat, b: nat)
    requires History(l, disks, actions, answers, ops) && l.size == FSSIZE && k <= |ops| && b < l.size
    requires forall j :: 0 <= j < |disks| ==> Shape(l, disks[j])
    requires IsInodeBlock(l, b) || b !in LostBy(disks, actions, answers, k)
    ensures R.After(Flat(l, disks[0]), Txs(l, disks, ops)[..k])[b] == BlockOn(l, disks[k], b)
  {
    hide Did, R.After, Noted, Lost, IsInodeBlock, BlockOn;
    var txs := Txs(l, disks, ops);
    if k == 0 {
      R.NoneYet(Flat(l, disks[0]), txs);
    } else {
      Committed(l, disks, actions, answers, ops, k - 1, b);
      R.AfterNext(Flat(l, disks[0]), txs, k - 1);
      var d, a, ans, d', s := disks[k - 1], actions[k - 1], answers[k - 1], disks[k - 1 + 1], ops[k - 1];
      assert Did(l, d, a, ans, d', s);
      DidNoted(l, d, a, ans, d', s);
      if b !in s { Unchanged(l, d, d', s, Lost(d', a, ans), b); }
    }
  }

  // ---------------------------------------------------------------- power failures

  // The disk holds the inodes of d, as ilock reads them, and its bitmap and data blocks but those in lost.
  ghost predicate HoldsAll(l: Layout, disk: seq<seq<int>>, d: Disk, lost: set<nat>) {
    && Shape(l, d) && |disk| == l.size
    && (forall i :: 0 <= i < l.ninodes ==> InodeOn(l, disk, d, i))
    && (forall b :: l.bmapstart <= b < l.size && b !in lost ==> disk[b] == d.blk[b])
  }

  ghost predicate InodeOn(l: Layout, disk: seq<seq<int>>, d: Disk, i: nat)
    requires Shape(l, d) && |disk| == l.size && i < l.ninodes
  {
    && IBlock(l, i) < l.size && disk[IBlock(l, i)] == InodeBlock(d.ino, i / IPB)
    && ReadInode(InodeBlock(d.ino, i / IPB), i % IPB) == d.ino[i]
  }

  lemma IsHeld(disk: seq<seq<int>>, d: Disk, own: Owners, lost: set<nat>)
    requires Sound(Mkfs.IMAGE, d, own) && |disk| == FSSIZE
    requires forall b :: P.Home(b) && (IsInodeBlock(Mkfs.IMAGE, b) || b !in lost) ==>
                           disk[b] == BlockOn(Mkfs.IMAGE, d, b)
    ensures HoldsAll(Mkfs.IMAGE, disk, d, lost)
  {
    hide Owned, LinkInv, TreeOf, InodeBlock, ReadInode;
    var l := Mkfs.IMAGE;
    forall i | 0 <= i < l.ninodes ensures InodeOn(l, disk, d, i) {
      InodesFit(l, d, own, i);
      InodeRoundTrip(d.ino, i);
      assert IsInodeBlock(l, IBlock(l, i)) && P.Home(IBlock(l, i));
    }
    forall b | l.bmapstart <= b < l.size && b !in lost ensures disk[b] == d.blk[b] { assert P.Home(b); }
  }

  // Boot an image that mkfs made, perform actions, and let power fail in action n and in the recoveries
  // that follow.  What is on the disk in the end is the file system as it was before action n or after
  // it, except for blocks that interrupted copies left unlogged; without such copies, all of it.
  method PowerFails(files: seq<Mkfs.File>, actions: seq<Action>, n: nat, stop: nat, crashes: seq<nat>)
    returns (done: nat, final: seq<seq<int>>, disks: seq<Disk>, answers: seq<Answer>, ghost owns: seq<Owners>,
             ghost j: nat)
    requires Mkfs.Fits(files) && NamesDiffer(files) && (|files| + 2) % 64 != 0
    ensures done <= |actions| && |disks| == |owns| == done + 1 && |answers| == done
    ensures done < |actions| ==> !Allowed(disks[done], actions[done])
    ensures forall k :: 0 <= k <= done ==> Sound(Mkfs.IMAGE, disks[k], owns[k])
    ensures n < done ==> j in {n, n + 1}
                         && HoldsAll(Mkfs.IMAGE, final, disks[j], LostBy(disks, actions, answers, j))
  {
    hide Did, Allowed, Sound, Mkfs.Finished, HoldsAll, R.After, R.TxOk, Flat, I.Stands;
    var l := Mkfs.IMAGE;
    var ops;
    done, answers, disks, ops, owns := Boot(files, actions);
    final, j := [], 0;
    AllShaped(disks, owns);
    if n < done {
      var txs := Txs(l, disks, ops);
      assert History(l, disks, actions, answers, ops);
      TxsOk(disks, actions, answers, ops);
      EmptyLog(disks[0], owns[0], files);
      final, j := R.FailIn(Flat(l, disks[0]), txs, n, stop, crashes, Flat(l, disks[0]));
      forall b | P.Home(b) && (IsInodeBlock(l, b) || b !in LostBy(disks, actions, answers, j))
        ensures final[b] == BlockOn(l, disks[j], b)
      {
        Committed(l, disks, actions, answers, ops, j, b);
      }
      IsHeld(final, disks[j], owns[j], LostBy(disks, actions, answers, j));
    }
  }

  lemma AllShaped(disks: seq<Disk>, owns: seq<Owners>)
    requires |disks| == |owns| && forall k :: 0 <= k < |disks| ==> Sound(Mkfs.IMAGE, disks[k], owns[k])
    ensures forall k :: 0 <= k < |disks| ==> Shape(Mkfs.IMAGE, disks[k])
  {
    hide Owned, LinkInv, TreeOf;
    forall k | 0 <= k < |disks| ensures Shape(Mkfs.IMAGE, disks[k]) { assert Sound(Mkfs.IMAGE, disks[k], owns[k]); }
  }

  lemma TxsOk(disks: seq<Disk>, actions: seq<Action>, answers: seq<Answer>, ops: seq<set<nat>>)
    requires History(Mkfs.IMAGE, disks, actions, answers, ops)
    requires forall k :: 0 <= k < |disks| ==> Shape(Mkfs.IMAGE, disks[k])
    ensures forall k :: 0 <= k < |ops| ==> R.TxOk(Txs(Mkfs.IMAGE, disks, ops)[k])
  {
    hide Did, Flat;
    var l := Mkfs.IMAGE;
    forall k | 0 <= k < |ops| ensures R.TxOk(Txs(l, disks, ops)[k]) {
      assert Did(l, disks[k], actions[k], answers[k], disks[k + 1], ops[k]);
      DidNoted(l, disks[k], actions[k], answers[k], disks[k + 1], ops[k]);
      forall b | b in ops[k] ensures P.Home(b) { assert FsBlock(l, b); }
    }
  }

  // mkfs leaves the log empty.
  lemma EmptyLog(d: Disk, own: Owners, files: seq<Mkfs.File>)
    requires Mkfs.Finished(Mkfs.IMAGE, d, own, files)
    ensures Shape(Mkfs.IMAGE, d) && I.Stands(Flat(Mkfs.IMAGE, d), [], Flat(Mkfs.IMAGE, d))
  {
    hide Owned, Bytes, Mkfs.RootBytes, Mkfs.Kinds;
    assert Flat(Mkfs.IMAGE, d)[LOGSTART] == BlockOn(Mkfs.IMAGE, d, LOGSTART) == Zeroes();
  }
}
