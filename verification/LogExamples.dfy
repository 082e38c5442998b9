/** Runs of the log protocol that go all the way: a block is changed in an operation, committed and
    installed; and power fails after the commit point, and recovery installs it. */
module LogExamples {
  import opened Params
  import opened LogProtocol
  import opened LogReservation

  // An empty disk.
  function Zero(): (d: seq<Block>)
    ensures |d| == FSSIZE && forall i :: 0 <= i < FSSIZE ==> d[i] == [0]
  {
    seq(FSSIZE, _ => [0])
  }

  const T: nat := LOGSTART + 1

  lemma ExtendLog(run: seq<State>, s: State, k: nat) returns (run': seq<State>)
    requires Run(run, k)
    requires WriteLogNext(Last(run), s) || CommitPoint(Last(run), s) || InstallNext(Last(run), s)
             || ClearNext(Last(run), s) || Crashes(Last(run), s) || OpNext(Last(run), s, k)
    ensures Run(run', k) && Last(run') == s && run <= run' && |run'| == |run| + 1
  {
    assert Next(Last(run), s, k) by {
      hide BufferNext, OpNext, WriteLogNext, InstallNext, ClearNext, Crashes, CommitPoint;
    }
    hide Next, OpNext, WriteLogNext, InstallNext, ClearNext, Crashes, CommitPoint;
    run' := Extend(run, s, k);
  }

  lemma ExtendCache(run: seq<State>, s: State, k: nat) returns (run': seq<State>)
    requires Run(run, k) && BufferNext(Last(run), s)
    ensures Run(run', k) && Last(run') == s && run <= run'
  {
    hide Next, BufferNext;
    assert Next(Last(run), s, k) by { NextBuffer(Last(run), s, k); }
    run' := Extend(run, s, k);
  }

  // bread of a block that is not cached.
  lemma Bread(run: seq<State>, p: Pid, b: nat, k: nat) returns (run': seq<State>)
    requires Run(run, k) && var s := Last(run); b < FSSIZE == |s.disk| && b !in s.cache && |s.cache| < NBUF
    ensures Run(run', k) && run <= run'
    ensures var s := Last(run); Last(run') == Put(s, b, Buf(true, s.disk[b], 1, {p}, Some(p), false))
  {
    hide Run;
    var s := Last(run);
    var s1 := Get(s, p, b);
    assert BufferNext(s, s1);
    run' := ExtendCache(run, s1, k);
    var s2 := Lock(s1, p, b);
    assert BufferNext(s1, s2);
    run' := ExtendCache(run', s2, k);
    var s3 := Fill(s2, p, b);
    assert BufferNext(s2, s3);
    run' := ExtendCache(run', s3, k);
  }

  // bread of a block that is cached and that nobody has.
  lemma Reread(run: seq<State>, p: Pid, b: nat, k: nat) returns (run': seq<State>)
    requires Run(run, k) && var s := Last(run);
             b < FSSIZE && b in s.cache && s.cache[b].refs == {} && s.cache[b].holder == None
    ensures Run(run', k) && run <= run'
    ensures var s, f := Last(run), Last(run).cache[b];
            Last(run') == Put(s, b, f.(refcnt := f.refcnt + 1, refs := {p}, holder := Some(p)))
  {
    hide Run;
    var s := Last(run);
    var s1 := Get(s, p, b);
    assert BufferNext(s, s1);
    run' := ExtendCache(run, s1, k);
    assert {} + {p} == {p};
    var s2 := Lock(s1, p, b);
    assert BufferNext(s1, s2);
    run' := ExtendCache(run', s2, k);
  }

  lemma Brelse(run: seq<State>, p: Pid, b: nat, k: nat) returns (run': seq<State>)
    requires Run(run, k) && var s := Last(run);
             Holds(s, p, b) && s.cache[b].refs == {p} && s.cache[b].refcnt > 0 && !s.cache[b].dirty
    ensures Run(run', k) && run <= run'
    ensures var s, f := Last(run), Last(run).cache[b];
            Last(run') == Put(s, b, f.(refcnt := f.refcnt - 1, refs := {}, holder := None))
  {
    hide Run;
    var s := Last(run);
    var s1 := Unlock(s, p, b);
    assert BufferNext(s, s1);
    run' := ExtendCache(run, s1, k);
    assert {p} - {p} == {};
    var s2 := Unref(s1, p, b);
    assert BufferNext(s1, s2);
    run' := ExtendCache(run', s2, k);
  }

  // ---------------------------------------------------------------- boot

  // Recovery has read the header, which names lh.
  lemma Clears(run: seq<State>, k: nat) returns (run': seq<State>)
    requires Run(run, k) && var s := Last(run);
             s.phase.Install? && !s.phase.unpin && s.phase.tail == |s.lh| && |s.disk| == FSSIZE
             && Holds(s, s.committer, LOGSTART) && !s.cache[LOGSTART].dirty
    ensures Run(run', k) && run <= run'
    ensures var s := Last(run);
            var h := WriteHeader(s.cache[LOGSTART].data, []);
            Last(run') == Put(s, LOGSTART, s.cache[LOGSTART].(data := h)).(disk := s.disk[LOGSTART := h], lh := [],
                                                                          committing := false, phase := Running)
  {
    hide Run, WriteHeader;
    var s1 := EmptyLog(Last(run));
    run' := ExtendLog(run, s1, k);
    var s2 := CopyEmptyHead(s1);
    run' := ExtendLog(run', s2, k);
    var s3 := WriteEmptyHead(s2);
    run' := ExtendLog(run', s3, k);
    var s4 := Done(s3);
    run' := ExtendLog(run', s4, k);
  }

  const HEAD: Buf := Buf(true, [0], 0, {}, None, false)

  // Booted, with nothing to do.
  function Idle(): State {
    State(Zero(), map[LOGSTART := HEAD], [], map[], 0, false, Running, 0, Zero(), Zero())
  }

  lemma Boots(k: nat) returns (run: seq<State>)
    ensures Run(run, k) && Last(run) == Idle()
  {
    run := [State(Zero(), map[], [], map[], 0, false, ReadHead, 0, Zero(), Zero())];
    assert Run(run, k);
    hide Run;
    run := Bread(run, 0, LOGSTART, k);
    var s := LoadHead(Last(run));
    run := ExtendLog(run, s, k);
    run := Clears(run, k);
    assert WriteHeader([0], []) == [0] && Zero()[LOGSTART := [0]] == Zero();
    run := Brelse(run, 0, LOGSTART, k);
    assert Last(run).cache == Idle().cache;
  }

  // ---------------------------------------------------------------- an operation

  function Ended(b: nat, data: Block): State
    requires b < FSSIZE
  {
    State(Zero(), map[LOGSTART := HEAD, b := Buf(true, data, 1, {}, None, false)], [b], map[], 0, true, WriteLog(0), 1,
          Zero(), Zero()[b := data])
  }

  // begin_op, bread, a change, log_write, brelse, end_op.
  lemma Operates(run: seq<State>, b: nat, data: Block, k: nat) returns (run': seq<State>)
    requires Run(run, k) && Last(run) == Idle() && Home(b) && k > 0
    ensures Run(run', k) && run <= run' && Last(run') == Ended(b, data)
  {
    run' := Opens(run, b, k);
    run' := Closes(run', b, data, k);
  }

  lemma Opens(run: seq<State>, b: nat, k: nat) returns (run': seq<State>)
    requires Run(run, k) && Last(run) == Idle() && Home(b) && k > 0
    ensures Run(run', k) && run <= run' && Last(run') == Op(b, Zero()[b], Zero(), 1, false, Some(1), [], 0)
  {
    hide Run, Zero;
    run' := Begins(run, 1, k);
    run' := Bread(run', 1, b, k);
    assert Last(run').cache == Op(b, Zero()[b], Zero(), 1, false, Some(1), [], 0).cache;
  }

  lemma Closes(run: seq<State>, b: nat, data: Block, k: nat) returns (run': seq<State>)
    requires Run(run, k) && Home(b) && k > 0 && Last(run) == Op(b, Zero()[b], Zero(), 1, false, Some(1), [], 0)
    ensures Run(run', k) && run <= run' && Last(run') == Ended(b, data)
  {
    hide Run, Zero;
    run' := Changes(run, 1, b, data, k);
    run' := Brelse(run', 1, b, k);
    assert Last(run').cache == Ended(b, data).cache && Last(run').ops == map[1 := 1];
    run' := Ends(run', 1, k);
    assert Last(run').ops == map[];
  }

  // Process 1 is in an operation that has block b.
  function Op(b: nat, data: Block, last: seq<Block>, refcnt: nat, dirty: bool, holder: Option<Pid>, lh: seq<nat>,
              n: nat): State
  {
    State(Zero(), map[LOGSTART := HEAD, b := Buf(true, data, refcnt, if holder.Some? then {1} else {}, holder, dirty)],
          lh, map[1 := n], 1, false, Running, 0, Zero(), last)
  }

  lemma Begins(run: seq<State>, p: Pid, k: nat) returns (run': seq<State>)
    requires Run(run, k) && CanBeginOp(Last(run), p)
    ensures Run(run', k) && run <= run' && Last(run') == BeginOp(Last(run), p)
  {
    assert OpNext(Last(run), BeginOp(Last(run), p), k);
    hide Run, OpNext;
    run' := ExtendLog(run, BeginOp(Last(run), p), k);
  }

  lemma Ends(run: seq<State>, p: Pid, k: nat) returns (run': seq<State>)
    requires Run(run, k) && CanEndOp(Last(run), p)
    ensures Run(run', k) && run <= run' && Last(run') == EndOp(Last(run), p)
  {
    assert OpNext(Last(run), EndOp(Last(run), p), k);
    hide Run, OpNext;
    run' := ExtendLog(run, EndOp(Last(run), p), k);
  }

  // A change of a block that p holds, and log_write.
  lemma Changes(run: seq<State>, p: Pid, b: nat, data: Block, k: nat) returns (run': seq<State>)
    requires Run(run, k) && var s := Last(run);
             CanModify(s, p, b) && !LogFull(s) && b !in s.lh && s.ops[p] < k
    ensures Run(run', k) && run <= run'
    ensures var s, f := Last(run), Last(run).cache[b];
            Last(run') == Put(s, b, f.(data := data, dirty := false, refcnt := f.refcnt + 1)).(
                          last := s.last[b := data], lh := s.lh + [b], ops := s.ops[p := s.ops[p] + 1])
  {
    hide Run, OpNext;
    var s := Last(run);
    var s1 := Modify(s, p, b, data);
    StepModify(s, p, b, data, k);
    run' := ExtendLog(run, s1, k);
    StepLogWrite(s1, p, b, k);
    run' := ExtendLog(run', LogWrite(s1, p, b), k);
  }

  lemma StepModify(s: State, p: Pid, b: nat, data: Block, k: nat)
    requires CanModify(s, p, b)
    ensures OpNext(s, Modify(s, p, b, data), k)
  {
  }

  lemma StepLogWrite(s: State, p: Pid, b: nat, k: nat)
    requires CanLogWrite(s, p, b, k)
    ensures OpNext(s, LogWrite(s, p, b), k)
  {
  }

  // ---------------------------------------------------------------- commit

  function Head(b: nat): Block { WriteHeader([0], [b]) }

  function Held(data: Block, n: nat): Buf { Buf(true, data, n, {1}, Some(1), false) }

  function AtCommitPoint(b: nat, data: Block): State
    requires Home(b)
  {
    State(Zero()[T := data][LOGSTART := Head(b)],
          map[LOGSTART := Held(Head(b), 1), b := Held(data, 2), T := Held(data, 1)], [b], map[], 0, true,
          Install(false, 0, false), 1, Zero()[b := data], Zero()[b := data])
  }

  // write_log and write_head.
  lemma Commits(run: seq<State>, b: nat, data: Block, k: nat) returns (run': seq<State>)
    requires Run(run, k) && Home(b) && Last(run) == Ended(b, data)
    ensures Run(run', k) && run <= run' && Last(run') == AtCommitPoint(b, data)
  {
    hide Run, WriteHeader, Zero;
    run' := Bread(run, 1, T, k);
    run' := Reread(run', 1, b, k);
    run' := LogsBlock(run', k);
    assert Last(run').cache == map[LOGSTART := HEAD, b := Held(data, 2), T := Held(data, 1)];
    run' := Reread(run', 1, LOGSTART, k);
    run' := WritesHead(run', k);
    assert Last(run').cache == AtCommitPoint(b, data).cache;
  }

  // One round of write_log, and write_head.
  lemma LogsBlock(run: seq<State>, k: nat) returns (run': seq<State>)
    requires Run(run, k) && CanCopyToLog(Last(run)) && Slot(Last(run).phase.tail) < |Last(run).disk|
    ensures Run(run', k) && run <= run'
    ensures var s, to := Last(run), Slot(Last(run).phase.tail);
            var data := s.cache[s.lh[s.phase.tail]].data;
            Last(run') == Put(s, to, s.cache[to].(data := data, dirty := false)).(disk := s.disk[to := data],
                                                                                  phase := WriteLog(s.phase.tail + 1))
  {
    hide Run;
    var s1 := CopyToLog(Last(run));
    run' := ExtendLog(run, s1, k);
    run' := ExtendLog(run', WriteLogBlock(s1), k);
  }

  lemma WritesHead(run: seq<State>, k: nat) returns (run': seq<State>)
    requires Run(run, k) && CanCopyHead(Last(run)) && LOGSTART < |Last(run).disk|
    ensures Run(run', k) && run <= run'
    ensures var s := Last(run);
            var h := WriteHeader(s.cache[LOGSTART].data, s.lh);
            Last(run') == Put(s, LOGSTART, s.cache[LOGSTART].(data := h, dirty := false)).(
                          disk := s.disk[LOGSTART := h], phase := Install(false, 0, false), committed := s.last)
  {
    hide Run, WriteHeader;
    var s1 := CopyHead(Last(run));
    run' := ExtendLog(run, s1, k);
    run' := ExtendLog(run', WriteHead(s1), k);
  }

  // The change is on the disk, and the log is empty.
  predicate Installed(s: State, b: nat, data: Block) {
    && s.phase == Running && !s.committing && b < |s.disk| && s.disk[b] == data
    && LOGSTART < |s.disk| && HeaderN(s.disk[LOGSTART]) == 0
  }

  // A change to any home block can be committed and installed.
  lemma CommitReached(b: nat, data: Block, k: nat) returns (run: seq<State>)
    requires Home(b) && k > 0
    ensures Run(run, k) && Installed(Last(run), b, data)
  {
    run := Boots(k);
    run := Operates(run, b, data, k);
    run := Commits(run, b, data, k);
    run := Installs(run, b, data, k);
  }

  lemma Installs(run: seq<State>, b: nat, data: Block, k: nat) returns (run': seq<State>)
    requires Run(run, k) && Home(b) && Last(run) == AtCommitPoint(b, data)
    ensures Run(run', k) && run <= run' && Installed(Last(run'), b, data)
  {
    hide Run, WriteHeader;
    var s1 := CopyHome(Last(run));
    run' := ExtendLog(run, s1, k);
    var s2 := WriteHome(s1);
    run' := ExtendLog(run', s2, k);
    var s3 := Unpin(s2);
    run' := ExtendLog(run', s3, k);
    run' := Clears(run', k);
  }

  // ---------------------------------------------------------------- recovery

  // Power fails right after the commit point, and recovery installs the change.
  lemma RecoveryReached(b: nat, data: Block, k: nat) returns (run: seq<State>, n: nat)
    requires Home(b) && k > 0
    ensures Run(run, k) && n < |run| - 1 && Crashes(run[n], run[n + 1])
    ensures b < |run[n].disk| && run[n].disk[b] == [0] && Installed(Last(run), b, data)
  {
    hide Run, AtCommitPoint, Installed, Ended, Crashes, Idle, Crash;
    run := Boots(k);
    run := Operates(run, b, data, k);
    run := Commits(run, b, data, k);
    n := |run| - 1;
    ghost var before := run;
    run := Fails(run, k);
    Earlier(before, run, n);
    before := run;
    run := Recovers(run, b, data, k);
    Earlier(before, run, n);
    Earlier(before, run, n + 1);
    NotYet(b, data);
  }

  lemma Earlier(run: seq<State>, run': seq<State>, n: nat)
    requires run <= run' && n < |run|
    ensures run'[n] == run[n]
  {
  }

  lemma NotYet(b: nat, data: Block)
    requires Home(b)
    ensures b < |AtCommitPoint(b, data).disk| && AtCommitPoint(b, data).disk[b] == [0]
  {
    hide WriteHeader;
  }

  lemma Fails(run: seq<State>, k: nat) returns (run': seq<State>)
    requires Run(run, k)
    ensures Run(run', k) && |run'| == |run| + 1 && run <= run' && Last(run') == Crash(Last(run), 0)
    ensures Crashes(run'[|run| - 1], run'[|run|])
  {
    assert Crashes(Last(run), Crash(Last(run), 0));
    hide Run, Crashes;
    run' := ExtendLog(run, Crash(Last(run), 0), k);
    assert run'[|run| - 1] == Last(run) && run'[|run|] == Last(run');
  }

  lemma Recovers(run: seq<State>, b: nat, data: Block, k: nat) returns (run': seq<State>)
    requires Run(run, k) && Home(b) && Last(run) == Crash(AtCommitPoint(b, data), 0)
    ensures Run(run', k) && run <= run' && Installed(Last(run'), b, data)
  {
    hide Run, WriteHeader;
    run' := Bread(run, 0, LOGSTART, k);
    HeadIs(b);
    var s1 := LoadHead(Last(run'));
    assert s1.lh == [b];
    run' := ExtendLog(run', s1, k);
    run' := Bread(run', 0, T, k);
    run' := Bread(run', 0, b, k);
    var s2 := CopyHome(Last(run'));
    run' := ExtendLog(run', s2, k);
    var s3 := WriteHome(s2);
    run' := ExtendLog(run', s3, k);
    run' := Clears(run', k);
  }

  lemma HeadIs(b: nat)
    ensures |Head(b)| == 2 && Head(b)[0] == 1 && Head(b)[1] == b
  {
  }
}
