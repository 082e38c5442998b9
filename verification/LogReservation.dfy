/** The space reservation of begin_op, over every run of the log protocol: how far the log
    can fill, and exactly when log_write's "too big a transaction" panic is unreachable. */
module LogReservation {
  import opened Params
  import opened LogProtocol
  import opened LogProtocolInv
  import opened LogProtocolProof
  import opened LogTheorems

  // ---------------------------------------------------------------- reserved room

  // The sum, over the running operations, of k minus the blocks each one has added.
  ghost function Room(ops: map<Pid, nat>, k: nat): int
    decreases |ops|
  {
    if ops == map[] then 0 else
      var p :| p in ops;
      (k - ops[p]) + Room(ops - {p}, k)
  }

  lemma {:induction false} RoomWithout(ops: map<Pid, nat>, k: nat, p: Pid)
    requires p in ops
    ensures Room(ops, k) == (k - ops[p]) + Room(ops - {p}, k)
    decreases |ops|
  {
    var q :| q in ops && Room(ops, k) == (k - ops[q]) + Room(ops - {q}, k);
    if p != q {
      RoomWithout(ops - {q}, k, p);
      RoomWithout(ops - {p}, k, q);
      assert ops - {q} - {p} == ops - {p} - {q};
    }
  }

  lemma RoomWith(ops: map<Pid, nat>, k: nat, p: Pid, n: nat)
    requires p !in ops
    ensures Room(ops[p := n], k) == (k - n) + Room(ops, k)
  {
    RoomWithout(ops[p := n], k, p);
    assert ops[p := n] - {p} == ops;
  }

  lemma RoomUpdate(ops: map<Pid, nat>, k: nat, p: Pid, n: nat)
    requires p in ops
    ensures Room(ops[p := n], k) == Room(ops, k) + ops[p] - n
  {
    RoomWithout(ops, k, p);
    RoomWithout(ops[p := n], k, p);
    assert ops[p := n] - {p} == ops - {p};
  }

  lemma {:induction false} RoomBounds(ops: map<Pid, nat>, k: nat)
    requires forall p :: p in ops ==> ops[p] <= k
    ensures 0 <= Room(ops, k) <= k * |ops|
    decreases |ops|
  {
    if ops != map[] {
      var p :| p in ops && Room(ops, k) == (k - ops[p]) + Room(ops - {p}, k);
      RoomBounds(ops - {p}, k);
      assert k * |ops| == k * (|ops| - 1) + k;
    }
  }

  // ---------------------------------------------------------------- the invariant

  ghost predicate Reserved(s: State, k: nat) {
    && (forall p :: p in s.ops ==> s.ops[p] <= k)
    && (!Recovering(s) ==> |s.lh| + Room(s.ops, MAXOPBLOCKS) <= LOGSIZE)
    && (!Recovering(s) ==> |s.lh| + Room(s.ops, k) <= MAXOPBLOCKS + 2 * k)
  }

  lemma BeginOpReserves(s: State, p: Pid, k: nat)
    requires PhaseOk(s) && Reserved(s, k) && k <= MAXOPBLOCKS && CanBeginOp(s, p)
    ensures Reserved(BeginOp(s, p), k)
  {
    RoomWith(s.ops, k, p, 0);
    RoomWith(s.ops, MAXOPBLOCKS, p, 0);
    RoomBounds(s.ops, k);
    RoomBounds(s.ops, MAXOPBLOCKS);
    hide Room;
    assert s.outstanding <= 2;
    if s.outstanding == 0 { assert s.ops == map[] && s.lh == []; } else if s.outstanding == 1 {} else {}
  }

  lemma LogWriteReserves(s: State, p: Pid, b: nat, k: nat)
    requires Reserved(s, k) && PhaseOk(s) && CanLogWrite(s, p, b, k)
    ensures Reserved(LogWrite(s, p, b), k)
  {
    if b !in s.lh {
      RoomUpdate(s.ops, k, p, s.ops[p] + 1);
      RoomUpdate(s.ops, MAXOPBLOCKS, p, s.ops[p] + 1);
    }
  }

  lemma EndOpReserves(s: State, p: Pid, k: nat)
    requires PhaseOk(s) && Reserved(s, k) && k <= MAXOPBLOCKS && CanEndOp(s, p)
    ensures Reserved(EndOp(s, p), k)
  {
    RoomWithout(s.ops, k, p);
    RoomWithout(s.ops, MAXOPBLOCKS, p);
  }

  lemma OpReserves(s: State, s': State, k: nat)
    requires PhaseOk(s) && Reserved(s, k) && k <= MAXOPBLOCKS && OpNext(s, s', k)
    ensures Reserved(s', k)
  {
    if p :| CanBeginOp(s, p) && s' == BeginOp(s, p) { BeginOpReserves(s, p, k); }
    else if p, b, data :| CanModify(s, p, b) && s' == Modify(s, p, b, data) {}
    else if p, b :| CanLogWrite(s, p, b, k) && s' == LogWrite(s, p, b) { LogWriteReserves(s, p, b, k); }
    else if p :| CanEndOp(s, p) && s' == EndOp(s, p) { EndOpReserves(s, p, k); }
  }

  lemma BufferStepsReserveNothing(s: State, s': State)
    requires BufferNext(s, s')
    ensures s'.ops == s.ops && s'.lh == s.lh && s'.phase == s.phase
  {
  }

  lemma CommitStepsReserve(s: State, s': State, k: nat)
    requires PhaseOk(s) && Reserved(s, k)
    requires WriteLogNext(s, s') || CommitPoint(s, s') || InstallNext(s, s') || ClearNext(s, s') || Crashes(s, s')
    ensures Reserved(s', k)
  {
  }

  lemma NextReserves(s: State, s': State, k: nat)
    requires Safe(s) && Reserved(s, k) && k <= MAXOPBLOCKS && Next(s, s', k)
    ensures Reserved(s', k)
  {
    assert PhaseOk(s);
    hide BufferNext, OpNext, WriteLogNext, InstallNext, ClearNext, Crashes, CommitPoint, Inv, PhaseOk;
    if BufferNext(s, s') { BufferStepsReserveNothing(s, s'); }
    else if OpNext(s, s', k) { OpReserves(s, s', k); }
    else { CommitStepsReserve(s, s', k); }
  }

  // On every interleaving, when no operation adds more than k <= MAXOPBLOCKS blocks: the log
  // plus the room still reserved fits LOGSIZE, and the header holds at most
  // MAXOPBLOCKS + 2k blocks.
  lemma {:induction false} ReservationHolds(run: seq<State>, k: nat, i: nat)
    requires Run(run, k) && i < |run| && k <= MAXOPBLOCKS
    ensures Reserved(run[i], k)
  {
    hide Reserved, Safe, Next, Init;
    if i == 0 {
      StartReserves(run[0], k);
    } else {
      ReservationHolds(run, k, i - 1);
      RunSafe(run, k, i - 1);
      assert Next(run[i - 1], run[i - 1 + 1], k);
      NextReserves(run[i - 1], run[i], k);
    }
  }

  lemma StartReserves(s: State, k: nat)
    requires Init(s)
    ensures Reserved(s, k)
  {
  }

  // Commit runs only with no operation outstanding.
  lemma CommitRunsAlone(run: seq<State>, k: nat, i: nat)
    requires Run(run, k) && i < |run| && !run[i].phase.Running?
    ensures run[i].outstanding == 0 && run[i].ops == map[]
  {
    RunSafe(run, k, i);
    assert PhaseOk(run[i]);
  }

  // ---------------------------------------------------------------- when the panic is unreachable

  // An operation is about to call log_write on a block within its budget of k new blocks, and panics.
  ghost predicate Panics(s: State, p: Pid, b: nat, k: nat) {
    p in s.ops && Home(b) && Holds(s, p, b) && (b !in s.lh ==> s.ops[p] < k) && LogFull(s)
  }

  lemma NoPanicUpTo9(run: seq<State>, k: nat, i: nat)
    requires Run(run, k) && i < |run| && k < MAXOPBLOCKS
    ensures forall p, b :: !Panics(run[i], p, b, k)
  {
    ReservationHolds(run, k, i);
    RunSafe(run, k, i);
    assert PhaseOk(run[i]);
    RoomBounds(run[i].ops, k);
  }

  // ---------------------------------------------------------------- a run that panics

  // Nobody holds a buffer; the cache holds the log header and the pinned blocks 100, 101, ...
  ghost predicate Tidy(s: State, n: nat) {
    && s.phase.Running? && !s.committing && n <= NLOG - 1 && |s.disk| == FSSIZE
    && s.lh == seq(n, i => 100 + i)
    && s.outstanding == |s.ops|
    && (forall b :: b in s.cache <==> b == LOGSTART || 100 <= b < 100 + n)
    && (forall b :: b in s.cache ==> s.cache[b].holder == None && s.cache[b].refs == {} && !s.cache[b].dirty
                                     && s.cache[b].valid)
  }

  lemma {:induction false} TidySize(c: map<nat, Buf>, n: nat)
    requires forall b :: b in c <==> b == LOGSTART || 100 <= b < 100 + n
    ensures |c| == n + 1
  {
    if n > 0 {
      TidySize(c - {99 + n}, n - 1);
      assert c.Keys == (c - {99 + n}).Keys + {99 + n};
      assert |c| == |c.Keys| && |c - {99 + n}| == |(c - {99 + n}).Keys|;
    } else {
      assert c.Keys == {LOGSTART};
    }
  }

  function Last(run: seq<State>): State
    requires run != []
  {
    run[|run| - 1]
  }

  lemma Extend(run: seq<State>, s: State, k: nat) returns (run': seq<State>)
    requires Run(run, k) && Next(Last(run), s, k)
    ensures Run(run', k) && run' == run + [s]
  {
    run' := run + [s];
    forall i | 0 <= i < |run'| - 1 ensures Next(run'[i], run'[i + 1], k) {
      if i < |run| - 1 { assert Next(run[i], run[i + 1], k); }
    }
  }

  lemma ExtendBuffer(run: seq<State>, s: State, k: nat) returns (run': seq<State>)
    requires Run(run, k) && BufferNext(Last(run), s)
    ensures Run(run', k) && Last(run') == s
  {
    hide Next, BufferNext;
    assert Next(Last(run), s, k) by { NextBuffer(Last(run), s, k); }
    run' := Extend(run, s, k);
  }

  lemma NextBuffer(s: State, s': State, k: nat)
    requires BufferNext(s, s')
    ensures Next(s, s', k)
  {
    hide BufferNext, OpNext, WriteLogNext, InstallNext, ClearNext, Crashes, CommitPoint;
  }

  lemma NextOp(s: State, s': State, k: nat)
    requires OpNext(s, s', k)
    ensures Next(s, s', k)
  {
    hide BufferNext, OpNext, WriteLogNext, InstallNext, ClearNext, Crashes, CommitPoint;
  }

  // p reads the next fresh block up to the point where it may call log_write.
  lemma Acquire(run: seq<State>, p: Pid, n: nat, k: nat) returns (run': seq<State>)
    requires Run(run, k) && Tidy(Last(run), n) && p in Last(run).ops && n < NLOG - 1
    ensures Run(run', k)
    ensures var s, s' := Last(run), Last(run');
            && s' == s.(cache := s'.cache) && Holds(s', p, 100 + n) && s'.cache[100 + n].refs == {p}
            && !s'.cache[100 + n].dirty
            && s'.cache == s.cache[100 + n := s'.cache[100 + n]]
  {
    var b := 100 + n;
    var s := Last(run);
    TidySize(s.cache, n);
    var s1 := Get(s, p, b);
    assert BufferNext(s, s1);
    run' := ExtendBuffer(run, s1, k);
    var s2 := Lock(s1, p, b);
    assert BufferNext(s1, s2);
    run' := ExtendBuffer(run', s2, k);
    var s3 := Fill(s2, p, b);
    assert BufferNext(s2, s3);
    run' := ExtendBuffer(run', s3, k);
  }

  // p drops the block it has just logged.
  lemma Drop(run: seq<State>, p: Pid, b: nat, k: nat) returns (run': seq<State>)
    requires Run(run, k) && Holds(Last(run), p, b)
    requires var f := Last(run).cache[b]; p in f.refs && f.refcnt > 0 && !f.dirty
    ensures Run(run', k)
    ensures var s, f := Last(run), Last(run).cache[b];
            Last(run') == Put(s, b, f.(holder := None, refcnt := f.refcnt - 1, refs := f.refs - {p}))
  {
    var s4 := Last(run);
    var s5 := Unlock(s4, p, b);
    assert BufferNext(s4, s5);
    run' := ExtendBuffer(run, s5, k);
    var s6 := Unref(s5, p, b);
    assert BufferNext(s5, s6);
    run' := ExtendBuffer(run', s6, k);
  }

  // p logs the next fresh block and releases it.
  lemma LogOne(run: seq<State>, p: Pid, n: nat, k: nat) returns (run': seq<State>)
    requires Run(run, k) && Tidy(Last(run), n) && n < NLOG - 1
    requires p in Last(run).ops && Last(run).ops[p] < k
    ensures Run(run', k) && Tidy(Last(run'), n + 1)
    ensures Last(run').ops == Last(run).ops[p := Last(run).ops[p] + 1]
  {
    var b := 100 + n;
    run' := Acquire(run, p, n, k);
    var s3 := Last(run');
    assert b !in s3.lh;
    var s4 := LogWrite(s3, p, b);
    assert CanLogWrite(s3, p, b, k);
    assert OpNext(s3, s4, k);
    NextOp(s3, s4, k);
    hide Next, OpNext;
    run' := Extend(run', s4, k);
    run' := Drop(run', p, b, k);
    assert Last(run').ops.Keys == Last(run).ops.Keys;
  }

  lemma {:induction false} LogMany(run: seq<State>, p: Pid, n: nat, m: nat, k: nat) returns (run': seq<State>)
    requires Run(run, k) && Tidy(Last(run), n) && n + m <= NLOG - 1
    requires p in Last(run).ops && Last(run).ops[p] + m <= k
    ensures Run(run', k) && Tidy(Last(run'), n + m)
    ensures Last(run').ops == Last(run).ops[p := Last(run).ops[p] + m]
    decreases m
  {
    if m == 0 { run' := run; } else {
      run' := LogOne(run, p, n, k);
      run' := LogMany(run', p, n + 1, m - 1, k);
    }
  }

  lemma Begin(run: seq<State>, p: Pid, n: nat, k: nat) returns (run': seq<State>)
    requires Run(run, k) && Tidy(Last(run), n) && p !in Last(run).ops
    requires n + (|Last(run).ops| + 1) * MAXOPBLOCKS <= LOGSIZE
    ensures Run(run', k) && Tidy(Last(run'), n) && Last(run').ops == Last(run).ops[p := 0]
  {
    var s := Last(run);
    var s1 := BeginOp(s, p);
    assert OpNext(s, s1, k);
    NextOp(s, s1, k);
    run' := Extend(run, s1, k);
    assert s1.ops.Keys == s.ops.Keys + {p};
  }

  lemma End(run: seq<State>, p: Pid, n: nat, k: nat) returns (run': seq<State>)
    requires Run(run, k) && Tidy(Last(run), n) && p in Last(run).ops && |Last(run).ops| > 1
    ensures Run(run', k) && Tidy(Last(run'), n) && Last(run').ops == Last(run).ops - {p}
  {
    var s := Last(run);
    var s1 := EndOp(s, p);
    assert OpNext(s, s1, k);
    NextOp(s, s1, k);
    run' := Extend(run, s1, k);
    assert s1.ops.Keys == s.ops.Keys - {p};
  }

  lemma ExtendClear(run: seq<State>, s: State, k: nat) returns (run': seq<State>)
    requires Run(run, k) && (ClearNext(Last(run), s) || InstallNext(Last(run), s))
    ensures Run(run', k) && Last(run') == s
  {
    assert Next(Last(run), s, k) by {
      hide BufferNext, OpNext, WriteLogNext, InstallNext, ClearNext, Crashes, CommitPoint;
    }
    hide Next, ClearNext, InstallNext;
    run' := Extend(run, s, k);
  }

  // The boot of an empty image up to the point where recovery holds the header.
  lemma ReadHeader(k: nat) returns (run: seq<State>, s: State)
    ensures Run(run, k) && Last(run) == s && |s.disk| == FSSIZE
    ensures s.phase.ReadHead? && s.lh == [] && s.ops == map[] && s.outstanding == 0 && !s.committing && s.committer == 0
    ensures s.cache == map[LOGSTART := Buf(true, [0], 1, {0}, Some(0), false)]
  {
    var disk := seq(FSSIZE, _ => [0]);
    var s0 := State(disk, map[], [], map[], 0, false, ReadHead, 0, disk, disk);
    run := [s0];
    var s1 := Get(s0, 0, LOGSTART);
    assert BufferNext(s0, s1);
    run := ExtendBuffer(run, s1, k);
    var s2 := Lock(s1, 0, LOGSTART);
    assert BufferNext(s1, s2);
    run := ExtendBuffer(run, s2, k);
    s := Fill(s2, 0, LOGSTART);
    assert BufferNext(s2, s);
    run := ExtendBuffer(run, s, k);
  }

  lemma Boot(k: nat) returns (run: seq<State>)
    ensures Run(run, k) && Tidy(Last(run), 0) && Last(run).ops == map[]
  {
    var s3;
    run, s3 := ReadHeader(k);
    var s4 := LoadHead(s3);
    run := ExtendClear(run, s4, k);
    var s5 := EmptyLog(s4);
    run := ExtendClear(run, s5, k);
    var s6 := CopyEmptyHead(s5);
    run := ExtendClear(run, s6, k);
    var s7 := WriteEmptyHead(s6);
    run := ExtendClear(run, s7, k);
    var s8 := Done(s7);
    run := ExtendClear(run, s8, k);
    var s9 := Unlock(s8, 0, LOGSTART);
    assert BufferNext(s8, s9);
    run := ExtendBuffer(run, s9, k);
    var s10 := Unref(s9, 0, LOGSTART);
    assert BufferNext(s9, s10);
    run := ExtendBuffer(run, s10, k);
  }

  // Three operations, each within the documented MAXOPBLOCKS, fill the 29 slots.
  lemma FillTheLog(k: nat) returns (run: seq<State>)
    requires k >= MAXOPBLOCKS
    ensures Run(run, k) && Tidy(Last(run), NLOG - 1) && 1 in Last(run).ops
  {
    run := Boot(k);
    run := Begin(run, 1, 0, k);
    run := Begin(run, 2, 0, k);
    run := LogMany(run, 2, 0, 10, k);
    assert |Last(run).ops| == 2;
    run := End(run, 2, 10, k);
    assert Last(run).ops == map[1 := 0];
    run := Begin(run, 3, 10, k);
    run := LogMany(run, 3, 10, 10, k);
    run := LogMany(run, 1, 20, 9, k);
  }

  lemma PanicAt10(k: nat) returns (run: seq<State>, i: nat, p: Pid, b: nat)
    requires k >= MAXOPBLOCKS
    ensures Run(run, k) && i < |run| && Panics(run[i], p, b, k)
  {
    run := FillTheLog(k);
    p, b := 1, 100;
    var s := Last(run);
    var s1 := Get(s, p, b);
    assert BufferNext(s, s1);
    run := ExtendBuffer(run, s1, k);
    var s2 := Lock(s1, p, b);
    assert BufferNext(s1, s2);
    run := ExtendBuffer(run, s2, k);
    i := |run| - 1;
    assert s2.lh[0] == b;
  }

  // log_write's panic is unreachable exactly when no operation adds more than 9 blocks,
  // one fewer than the MAXOPBLOCKS that begin_op reserves for it.
  lemma PanicUnreachableIff(k: nat)
    ensures (forall run, i: nat, p, b :: Run(run, k) && i < |run| ==> !Panics(run[i], p, b, k)) <==> k <= 9
  {
    hide Run, Panics;
    if k <= 9 {
      forall run, i: nat, p, b | Run(run, k) && i < |run| ensures !Panics(run[i], p, b, k) { NoPanicUpTo9(run, k, i); }
    } else {
      var run, i, p, b := PanicAt10(k);
    }
  }
}
