/** The file system as one state machine: reads, writes and truncations of files, link, unlink and
    create, and the last close of a file, in any order, from an image that mkfs made. */
module FsSystem {
  import opened FsBytes
  import opened FsDirs
  import opened FsDisk
  import opened FsFiles
  import opened FsReadWrite
  import opened LinkCounts
  import opened MkfsNames
  import opened Params
  import opened SysFile
  import FsRuns
  import Mkfs

  // One transaction.  Names holds the three calls of sysfile.c; Close is the iput of fileclose or exit
  // while the inodes in held have other users.
  datatype Action = Data(call: FsRuns.Call) | Names(sys: Syscall) | Close(i: nat, held: set<nat>)

  // What can be asked: open lets only regular files be written or truncated, filewrite writes at most
  // CHUNK bytes in a transaction, and no call is a hazard to the link counts.
  predicate Allowed(d: Disk, a: Action) {
    match a
      case Data(c) =>
        && FsRuns.CallOk(|d.ino|, c) && (c.op.Read? || d.ino[c.i].kind == T_FILE)
        && (c.op.Write? ==> |c.op.src| <= CHUNK)
      case Names(c) => SyscallOk(c) && !Hazard(d, c)
      case Close(i, _) => 0 < i < |d.ino|
  }

  // Every block has one owner, every file its bytes, and every inode its link count.
  ghost predicate Sound(l: Layout, d: Disk, own: Owners) { DiskOk(l, d, own) && LinkInv(TreeOf(l, d)) }

  // What an action was answered.
  datatype Answer = OfData(res: FsRuns.Result) | OfNames(reply: Reply) | Closed

  // Action a took the disk from d to d' as it should, was answered ans, and logged the blocks in s.
  ghost predicate Did(l: Layout, d: Disk, a: Action, ans: Answer, d': Disk, s: set<nat>) {
    && Shape(l, d) && Shape(l, d') && (OneBitmap(l) ==> |s| <= 9)
    && match a
         case Data(c) => ans.OfData? && FsRuns.Performed(l, d, c, ans.res, d', s) && TreeOf(l, d') == TreeOf(l, d)
         case Names(c) =>
           && Settled(l, d, d', s, c.held)
           && ans.OfNames? && CallDid(l, d, c, ans.reply, d') && !Panicked(ans.reply)
         case Close(i, held) =>
           && Settled(l, d, d', s, held)
           && ans.Closed? && i < l.ninodes && TreeOf(l, d') == PutTree(TreeOf(l, d), i, Held(d, held))
  }

  // ---------------------------------------------------------------- one action

  // A call on the bytes of a regular file leaves the name space alone.
  lemma DataKeepsNames(l: Layout, d: Disk, own: Owners, d': Disk, own': Owners, c: FsRuns.Call, res: FsRuns.Result,
                       s: set<nat>)
    requires DiskOk(l, d, own) && FilesOk(l, d', own') && FsRuns.Performed(l, d, c, res, d', s)
             && d.ino[c.i].kind == T_FILE
    requires forall j :: 0 <= j < l.ninodes && j != c.i ==> d'.ino[j] == d.ino[j]
    requires d'.ino[c.i].kind == d.ino[c.i].kind && d'.ino[c.i].nlink == d.ino[c.i].nlink
    ensures DiskOk(l, d', own') && TreeOf(l, d') == TreeOf(l, d)
  {
    hide Owned, Mapped, Bytes, Noted;
    forall j | 0 <= j < l.ninodes ensures InodeOk(d'.ino[j]) && NodeOf(l, d', j) == NodeOf(l, d, j) {
      assert InodeOk(d.ino[j]);
      if j != c.i { OtherBytes(l, d, d', c, res, s, j); }
    }
  }

  lemma OtherBytes(l: Layout, d: Disk, d': Disk, c: FsRuns.Call, res: FsRuns.Result, s: set<nat>, j: nat)
    requires FsRuns.Performed(l, d, c, res, d', s) && j < l.ninodes && j != c.i
    ensures Bytes(l, d', j) == Bytes(l, d, j)
  {
    hide Bytes, Noted, Patch, FullDisk;
    assert FsRuns.Contents(l, d')[j] == FsRuns.Contents(l, d)[j];
  }

  method Act(fs: FileSystem, a: Action) returns (ans: Answer)
    requires Sound(fs.l, fs.d, fs.own) && Allowed(fs.d, a)
    modifies fs
    ensures Sound(fs.l, fs.d, fs.own) && Did(fs.l, old(fs.d), a, ans, fs.d, fs.logged)
  {
    hide Owned, Mapped, Bytes, Ents, TreeOf, LinkInv, Settled, CallDid, Hazard, FsRuns.Performed;
    match a
    case Data(c) =>
      ghost var d0, own0 := fs.d, fs.own;
      var r := FsRuns.Perform(fs, c);
      ans := OfData(r);
      if !c.op.Read? { DataKeepsNames(fs.l, d0, own0, fs.d, fs.own, c, r, fs.logged); }
    case Names(c) =>
      var r := SysFile.Perform(fs, c);
      SettledSize(fs.l, old(fs.d), fs.d, fs.logged, c.held);
      ans := OfNames(r);
    case Close(i, held) =>
      CloseFile(fs, i, held);
      ans := Closed;
  }

  lemma SettledSize(l: Layout, d: Disk, d': Disk, s: set<nat>, held: set<nat>)
    requires Settled(l, d, d', s, held)
    ensures OneBitmap(l) ==> |s| <= 9
  {
    hide Noted, FilesKept, HeldStay;
  }

  method CloseFile(fs: FileSystem, i: nat, held: set<nat>)
    requires Sound(fs.l, fs.d, fs.own) && 0 < i < |fs.d.ino|
    modifies fs
    ensures Sound(fs.l, fs.d, fs.own) && Did(fs.l, old(fs.d), Close(i, held), Closed, fs.d, fs.logged)
  {
    hide Owned, Mapped, Bytes, Ents, TreeOf, LinkInv, Careful, LogsAtMost, HeldKept, Settled, PutTree, Logs;
    fs.logged := {};
    ghost var t, s0, busy := TreeOf(fs.l, fs.d), Now(fs), Held(fs.d, held);
    Iput(fs, i, Held(fs.d, held));
    FewLogged(fs.l, s0, Now(fs), fs.l.bmapstart, IBlock(fs.l, i), 0, 0);
    NothingReleased(t, busy);
    PutReleases(t, t, i, busy);
    ReleaseHolds(t, TreeOf(fs.l, fs.d), busy);
    IsSettled(fs.l, s0, Now(fs), held, 5);
    SettledSize(fs.l, old(fs.d), fs.d, fs.logged, held);
  }

  // ---------------------------------------------------------------- runs

  // Any actions in any order, up to the first that is not allowed: after each of them the disk is
  // sound, and each of them did what it should and logged what it changed.
  method Run(fs: FileSystem, actions: seq<Action>)
    returns (done: nat, answers: seq<Answer>, disks: seq<Disk>, ops: seq<set<nat>>, ghost owns: seq<Owners>)
    requires Sound(fs.l, fs.d, fs.own)
    modifies fs
    ensures done <= |actions| && (done < |actions| ==> !Allowed(fs.d, actions[done]))
    ensures |disks| == |owns| == done + 1 && |answers| == |ops| == done
    ensures disks[0] == old(fs.d) && disks[done] == fs.d && owns[0] == old(fs.own)
    ensures forall k :: 0 <= k <= done ==> Sound(fs.l, disks[k], owns[k])
    ensures forall k :: 0 <= k < done ==> Did(fs.l, disks[k], actions[k], answers[k], disks[k + 1], ops[k])
  {
    hide Sound, Did, Allowed;
    done, answers, disks, owns, ops := 0, [], [fs.d], [fs.own], [];
    while done < |actions| && Allowed(fs.d, actions[done])
      invariant Sound(fs.l, fs.d, fs.own) && done <= |actions|
      invariant |disks| == |owns| == done + 1 && |answers| == |ops| == done
      invariant disks[0] == old(fs.d) && disks[done] == fs.d && owns[0] == old(fs.own)
      invariant forall k :: 0 <= k <= done ==> Sound(fs.l, disks[k], owns[k])
      invariant forall k :: 0 <= k < done ==> Did(fs.l, disks[k], actions[k], answers[k], disks[k + 1], ops[k])
    {
      var r := Act(fs, actions[done]);
      done, answers, disks, owns, ops := done + 1, answers + [r], disks + [fs.d], owns + [fs.own], ops + [fs.logged];
    }
  }

  lemma ImageIsSound(d: Disk, own: Owners, files: seq<Mkfs.File>)
    requires Mkfs.Finished(Mkfs.IMAGE, d, own, files) && NamesDiffer(files) && (|files| + 2) % 64 != 0
    ensures Inv(Mkfs.IMAGE, d, own) && Sound(Mkfs.IMAGE, d, own)
  {
    hide Owned, LinkInv, Mkfs.Kinds, Mkfs.RootBytes, Bytes;
    ImageNames(d, own, files);
  }

  lemma AtMostNine(d: Disk, a: Action, ans: Answer, d': Disk, s: set<nat>)
    requires Did(Mkfs.IMAGE, d, a, ans, d', s)
    ensures |s| <= 9
  {
    hide TreeOf, Settled, CallDid, FsRuns.Performed;
  }

  // The same from an image that mkfs makes of files that fit, when their names differ and the root
  // directory does not end on a block boundary.
  method Boot(files: seq<Mkfs.File>, actions: seq<Action>)
    returns (done: nat, answers: seq<Answer>, disks: seq<Disk>, ops: seq<set<nat>>, ghost owns: seq<Owners>)
    requires Mkfs.Fits(files) && NamesDiffer(files) && (|files| + 2) % 64 != 0
    ensures done <= |actions| && |disks| == |owns| == done + 1 && |answers| == |ops| == done
    ensures done < |actions| ==> !Allowed(disks[done], actions[done])
    ensures Mkfs.Finished(Mkfs.IMAGE, disks[0], owns[0], files)
    ensures forall k :: 0 <= k <= done ==> Sound(Mkfs.IMAGE, disks[k], owns[k])
    ensures forall k :: 0 <= k < done ==> Did(Mkfs.IMAGE, disks[k], actions[k], answers[k], disks[k + 1], ops[k])
                                          && |ops[k]| <= 9
  {
    hide Did, Allowed, Owned, LinkInv, Mkfs.Finished;
    var ok, img := Mkfs.MakeImage(files);
    ImageIsSound(img.d, img.own, files);
    var fs := new FileSystem(img.l, img.d, img.own);
    done, answers, disks, ops, owns := Run(fs, actions);
    forall k | 0 <= k < done ensures |ops[k]| <= 9 {
      AtMostNine(disks[k], actions[k], answers[k], disks[k + 1], ops[k]);
    }
  }

  // ---------------------------------------------------------------- what a file holds, over a run

  // Action a may change the bytes of file j.
  predicate Edits(a: Action, j: nat) { a.Data? && a.call.i == j && !a.call.op.Read? }

  // What happened in a run: action k took the disk from disks[k] to disks[k + 1].
  ghost predicate History(l: Layout, disks: seq<Disk>, actions: seq<Action>, answers: seq<Answer>,
                          ops: seq<set<nat>>) {
    && |disks| == |ops| + 1 && |answers| == |ops| <= |actions|
    && forall k :: 0 <= k < |ops| ==> Did(l, disks[k], actions[k], answers[k], disks[k + 1], ops[k])
  }

  // A file that stays in use keeps its bytes through every action on other files and on names.
  lemma {:induction false} Persists(l: Layout, disks: seq<Disk>, actions: seq<Action>,
                                    answers: seq<Answer>, ops: seq<set<nat>>,
                                    j: nat, m: nat, n: nat)
    requires History(l, disks, actions, answers, ops) && j < l.ninodes && m <= n <= |ops|
    requires forall k :: m <= k <= n ==> Shape(l, disks[k]) && disks[k].ino[j].kind == T_FILE
    requires forall k :: m <= k < n ==> !Edits(actions[k], j)
    ensures Bytes(l, disks[n], j) == Bytes(l, disks[m], j)
  {
    hide Bytes, Did;
    if m < n {
      Persists(l, disks, actions, answers, ops, j, m, n - 1);
      NotEdited(l, disks[n - 1], actions[n - 1], answers[n - 1], disks[n], ops[n - 1], j);
    }
  }

  lemma NotEdited(l: Layout, d: Disk, a: Action, ans: Answer, d': Disk, s: set<nat>, j: nat)
    requires Did(l, d, a, ans, d', s) && j < l.ninodes && !Edits(a, j) && d.ino[j].kind == d'.ino[j].kind == T_FILE
    ensures Bytes(l, d', j) == Bytes(l, d, j)
  {
    hide Bytes, TreeOf, Noted, Patch, FullDisk;
    if a.Data? {
      if a.call.i == j { assert FsRuns.Contents(l, d')[j] == FsRuns.Contents(l, d)[j]; }
      else { OtherBytes(l, d, d', a.call, ans.res, s, j); }
    } else {
      assert FileKept(l, d, d', j);
    }
  }
}
