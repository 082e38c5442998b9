/** What the log promises, over every run of the protocol: any interleaving of any number
    of processes, with crashes at any point. */
module LogTheorems {
  import opened Collections
  import opened Params
  import opened LogProtocol
  import opened LogProtocolInv
  import opened LogProtocolProof

  lemma {:induction false} RunSafe(run: seq<State>, k: nat, i: nat)
    requires Run(run, k) && i < |run|
    ensures Safe(run[i])
  {
    if i == 0 {
      InitInv(run[0]);
    } else {
      RunSafe(run, k, i - 1);
      assert Next(run[i - 1], run[i - 1 + 1], k);
      NextKeeps(run[i - 1], run[i], k);
    }
  }

  // ---------------------------------------------------------------- crash atomicity

  // The disk after install_trans has copied slots i, i + 1, ... of the header h home.
  function Replay(disk: seq<Block>, h: Block, i: nat): (r: seq<Block>)
    ensures |r| == |disk|
    decreases HeaderN(h) - i
  {
    if i < HeaderN(h) && i + 1 < |h| && 0 <= h[i + 1] < |disk| && Slot(i) < |disk|
    then Replay(disk[h[i + 1] := disk[Slot(i)]], h, i + 1)
    else disk
  }

  // What recover_from_log makes of a disk when it runs to its end.
  function Recovered(disk: seq<Block>): (r: seq<Block>)
    requires LOGSTART < |disk|
  {
    var d := Replay(disk, disk[LOGSTART], 0);
    d[LOGSTART := WriteHeader(d[LOGSTART], [])]
  }

  lemma {:induction false} ReplayInstalls(disk: seq<Block>, t: seq<nat>, h: Block, i: nat, c: seq<Block>)
    requires |disk| == |c| == FSSIZE && DistinctHomes(t) && Names(h, t) && i <= |t|
    requires forall j :: 0 <= j < |t| ==> disk[Slot(j)] == c[t[j]]
    requires forall b :: Home(b) && b !in t[i..] ==> disk[b] == c[b]
    ensures forall b :: Home(b) ==> Replay(disk, h, i)[b] == c[b]
    decreases |t| - i
  {
    if i < |t| {
      var d := disk[t[i] := disk[Slot(i)]];
      assert t[i..] == [t[i]] + t[i + 1..];
      assert forall j :: 0 <= j < |t| ==> d[Slot(j)] == disk[Slot(j)];
      ReplayInstalls(d, t, h, i + 1, c);
    } else {
      assert t[i..] == [];
    }
  }

  // Whenever the machine crashes - before, during or after a commit, or inside an earlier
  // recovery - finishing recovery leaves every home block as of the last commit point.
  lemma CrashAtomicity(run: seq<State>, k: nat, i: nat)
    requires Run(run, k) && i < |run|
    ensures |run[i].disk| == |run[i].committed| == FSSIZE
    ensures forall b :: Home(b) ==> Recovered(run[i].disk)[b] == run[i].committed[b]
  {
    RunSafe(run, k, i);
    var t :| Inv(run[i], t);
    assert Stands(run[i].disk, t, run[i].committed);
    assert t[0..] == t;
    ReplayInstalls(run[i].disk, t, run[i].disk[LOGSTART], 0, run[i].committed);
  }

  lemma BufferStepsCommitNothing(s: State, s': State)
    requires BufferNext(s, s')
    ensures s'.committed == s.committed
  {
  }

  lemma OpStepsCommitNothing(s: State, s': State, k: nat)
    requires OpNext(s, s', k)
    ensures s'.committed == s.committed
  {
  }

  lemma WritesCommitNothing(s: State, s': State)
    requires WriteLogNext(s, s') || InstallNext(s, s') || ClearNext(s, s') || Crashes(s, s')
    ensures s'.committed == s.committed
  {
  }

  // The committed contents change in one step only, the header write, from one
  // quiescent point to the next: no operation is ever half committed.
  lemma AllOrNothing(run: seq<State>, k: nat, i: nat)
    requires Run(run, k) && i + 1 < |run|
    ensures run[i + 1].committed == run[i].committed
            || (CommitPoint(run[i], run[i + 1]) && run[i + 1].committed == run[i].last
                && run[i].ops == map[] && run[i].outstanding == 0)
  {
    RunSafe(run, k, i);
    var s, s' := run[i], run[i + 1];
    assert Next(s, s', k);
    hide BufferNext, OpNext, WriteLogNext, InstallNext, ClearNext, Crashes;
    if BufferNext(s, s') { BufferStepsCommitNothing(s, s'); }
    else if OpNext(s, s', k) { OpStepsCommitNothing(s, s', k); }
    else if !CommitPoint(s, s') { WritesCommitNothing(s, s'); }
    else { assert PhaseOk(s); }
  }

  // When recovery, or a commit, has finished and no operation has begun since, the home
  // blocks on disk are the committed contents and every reader sees them.
  lemma QuiescentDisk(run: seq<State>, k: nat, i: nat, b: nat)
    requires Run(run, k) && i < |run| && Home(b)
    requires run[i].phase.Finish? || (run[i].phase.Running? && run[i].ops == map[])
    ensures |run[i].disk| == |run[i].committed| == |run[i].last| == FSSIZE
    ensures run[i].disk[b] == run[i].committed[b] == run[i].last[b]
    ensures run[i].lh == [] && HeaderN(run[i].disk[LOGSTART]) == 0
  {
    RunSafe(run, k, i);
    var s := run[i];
    var t :| Inv(s, t);
    if s.phase.Running? {
      assert Logical(s, b) == s.last[b];
      if b in s.cache { assert BufOk(s, b) && HomeBufOk(s, b); }
    }
  }

  // ---------------------------------------------------------------- one logical block map

  // A process that holds a home block reads what was last written to that block.
  lemma ReadersSeeLast(run: seq<State>, k: nat, i: nat, p: Pid, b: nat)
    requires Run(run, k) && i < |run| && !Recovering(run[i]) && Home(b) && Holds(run[i], p, b)
    ensures b < |run[i].last| && run[i].cache[b].data == run[i].last[b]
  {
    RunSafe(run, k, i);
    assert Logical(run[i], b) == run[i].last[b];
  }

  // From log_write until it is installed, a logged block stays in the cache.
  lemma LoggedStaysCached(run: seq<State>, k: nat, i: nat, j: nat)
    requires Run(run, k) && i < |run| && j < |run[i].lh|
    requires run[i].phase.Running? || run[i].phase.WriteLog?
             || (run[i].phase.Install? && !run[i].phase.rec && run[i].phase.tail <= j)
    ensures run[i].lh[j] in run[i].cache
    ensures run[i].cache[run[i].lh[j]].valid && run[i].cache[run[i].lh[j]].refcnt >= 1
  {
    RunSafe(run, k, i);
    var s := run[i];
    var t :| Inv(s, t);
    assert s.lh[j] in Pinned(s) by {
      if s.phase.Install? { assert Pinned(s)[j - s.phase.tail] == s.lh[j]; }
    }
    assert BufOk(s, s.lh[j]);
  }

  lemma CleanWhenUnreferenced(run: seq<State>, k: nat, i: nat, b: nat)
    requires Run(run, k) && i < |run| && b in run[i].cache
    requires run[i].cache[b].valid && run[i].cache[b].refcnt == 0
    ensures b < |run[i].disk| && run[i].cache[b].data == run[i].disk[b]
  {
    RunSafe(run, k, i);
    var s := run[i];
    var t :| Inv(s, t);
    assert BufOk(s, b);
    if InLog(b) { assert LogBufOk(s, b); } else { assert HomeBufOk(s, b); }
  }

  // The pins never exhaust the cache: while no process holds a buffer, bget can serve a miss.
  lemma PinsLeaveABuffer(run: seq<State>, k: nat, i: nat)
    requires Run(run, k) && i < |run|
    requires forall b :: b in run[i].cache ==> run[i].cache[b].refs == {}
    ensures |run[i].cache| < NBUF || exists v :: v in run[i].cache && run[i].cache[v].refcnt == 0
  {
    RunSafe(run, k, i);
    var s := run[i];
    if forall v :: v in s.cache ==> s.cache[v].refcnt != 0 { ReferencedArePinned(s); }
  }

  lemma ReferencedArePinned(s: State)
    requires Counted(s) && PhaseOk(s)
    requires forall b :: b in s.cache ==> s.cache[b].refs == {} && s.cache[b].refcnt != 0
    ensures |s.cache| < NBUF
  {
    var pins := Elements(Pinned(s));
    forall v | v in s.cache ensures v in pins { assert BufOk(s, v); }
    SetOfSeq(Pinned(s));
    assert s.cache.Keys <= pins;
    SubsetSize(s.cache.Keys, pins);
  }

  // The range conditions of read_head never block recovery.
  lemma RecoveryCanLoad(run: seq<State>, k: nat, i: nat)
    requires Run(run, k) && i < |run| && run[i].phase.ReadHead? && Holds(run[i], run[i].committer, LOGSTART)
    ensures CanLoadHead(run[i]) && HeaderN(run[i].cache[LOGSTART].data) <= NLOG - 1
  {
    RunSafe(run, k, i);
    var s := run[i];
    var t :| Inv(s, t);
    assert LogBufOk(s, LOGSTART);
    assert Names(s.cache[LOGSTART].data, t);
    forall j | 0 < j <= |t| ensures s.cache[LOGSTART].data[j] >= 0 {
      assert s.cache[LOGSTART].data[j - 1 + 1] == t[j - 1];
    }
  }
}
