/** The write-ahead log of kernel/log.c running on the buffer cache of kernel/bio.c.

    Any number of processes interleave.  One step is one critical section of the
    source (under bcache.lock, log.lock or a buffer's sleeplock) or one disk access;
    the machine may crash between any two steps, during recovery as well.  A buffer is
    named by its block number; which unreferenced buffer a miss recycles is left open
    here (module BufferRing fixes it). */
module LogProtocol {
  import opened Params

  type Block = seq<int>   // a block's contents as words
  type Pid = nat

  predicate InLog(b: int) { LOGSTART <= b < LOGSTART + NLOG }
  predicate Home(b: int) { 0 <= b < FSSIZE && !InLog(b) }
  function Slot(i: nat): nat { LOGSTART + i + 1 }

  // ---------------------------------------------------------------- the log header

  // Word 0 is lh.n, word i + 1 is lh.block[i].
  function HeaderN(h: Block): int { if h == [] then 0 else h[0] }

  // write_head copies only lh.n entries; the rest of the block stays.
  function WriteHeader(h: Block, lh: seq<nat>): (r: Block)
    ensures |r| > |lh| && HeaderN(r) == |lh|
    ensures forall i :: 0 <= i < |lh| ==> r[i + 1] == lh[i]
    ensures |h| > |lh| ==> |r| == |h| && r[|lh| + 1..] == h[|lh| + 1..]
  {
    [|lh|] + seq(|lh|, i requires 0 <= i < |lh| => lh[i] as int) + (if |h| > |lh| then h[|lh| + 1..] else [])
  }

  // ---------------------------------------------------------------- state

  // refs is the set of processes that own one reference to the buffer; dirty says that
  // the holder changed the data and has not yet called log_write or bwrite.
  datatype Buf = Buf(valid: bool, data: Block, refcnt: nat, refs: set<Pid>,
                     holder: Option<Pid>, dirty: bool)

  // Where the process that runs commit() or recover_from_log() stands.
  datatype Phase =
    | Running
    | WriteLog(tail: nat)
    | Install(rec: bool, tail: nat, unpin: bool)
    | Clear(rec: bool)
    | Finish(rec: bool)
    | ReadHead

  datatype State = State(
    disk: seq<Block>,
    cache: map<nat, Buf>,
    lh: seq<nat>,
    ops: map<Pid, nat>,       // running operations, with the blocks each one added to lh
    outstanding: nat,
    committing: bool,
    phase: Phase,
    committer: Pid,
    committed: seq<Block>,    // history: contents as of the last commit point
    last: seq<Block>)         // history: contents last given to each block

  predicate Recovering(s: State) {
    s.phase.ReadHead? || (s.phase.Install? && s.phase.rec) || (s.phase.Clear? && s.phase.rec)
    || (s.phase.Finish? && s.phase.rec)
  }

  // Boot from an image whose log is empty (mkfs writes zeroes there).
  predicate Init(s: State) {
    && |s.disk| == FSSIZE && s.disk[LOGSTART] != [] && HeaderN(s.disk[LOGSTART]) == 0
    && s.cache == map[] && s.lh == [] && s.ops == map[] && s.outstanding == 0
    && !s.committing && s.phase == ReadHead
    && s.committed == s.disk && s.last == s.disk
  }

  // ---------------------------------------------------------------- buffer cache steps

  predicate Holds(s: State, p: Pid, b: nat) {
    b in s.cache && s.cache[b].holder == Some(p) && s.cache[b].valid
  }

  function Put(s: State, b: nat, f: Buf): State { s.(cache := s.cache[b := f]) }

  // bget finds the block, or takes a buffer never used before.
  predicate CanGet(s: State, p: Pid, b: nat) {
    b < FSSIZE && (if b in s.cache then p !in s.cache[b].refs else |s.cache| < NBUF)
  }

  function Get(s: State, p: Pid, b: nat): State
    requires CanGet(s, p, b)
  {
    if b in s.cache then var f := s.cache[b]; Put(s, b, f.(refcnt := f.refcnt + 1, refs := f.refs + {p}))
    else Put(s, b, Buf(false, [], 1, {p}, None, false))
  }

  // bget misses and recycles a buffer whose refcnt is zero.
  predicate CanRecycle(s: State, b: nat, victim: nat) {
    b < FSSIZE && b !in s.cache && victim in s.cache && s.cache[victim].refcnt == 0
  }

  function Recycle(s: State, p: Pid, b: nat, victim: nat): State
    requires CanRecycle(s, b, victim)
  {
    s.(cache := (s.cache - {victim})[b := Buf(false, s.cache[victim].data, 1, {p}, None, false)])
  }

  // acquiresleep on the buffer, by a process that owns a reference.
  predicate CanLock(s: State, p: Pid, b: nat) {
    b in s.cache && p in s.cache[b].refs && s.cache[b].holder == None
  }

  function Lock(s: State, p: Pid, b: nat): State
    requires CanLock(s, p, b)
  {
    Put(s, b, s.cache[b].(holder := Some(p)))
  }

  // bread reads the block from disk when the buffer is not valid.
  predicate CanFill(s: State, p: Pid, b: nat) {
    b in s.cache && s.cache[b].holder == Some(p) && !s.cache[b].valid && b < |s.disk|
  }

  function Fill(s: State, p: Pid, b: nat): State
    requires CanFill(s, p, b)
  {
    Put(s, b, s.cache[b].(data := s.disk[b], valid := true))
  }

  // brelse, first half.  The documented discipline (kernel/log.c:209-213): changed data
  // is logged, or written, before the buffer is released.
  predicate CanUnlock(s: State, p: Pid, b: nat) {
    b in s.cache && s.cache[b].holder == Some(p) && !s.cache[b].dirty
  }

  function Unlock(s: State, p: Pid, b: nat): State
    requires CanUnlock(s, p, b)
  {
    Put(s, b, s.cache[b].(holder := None))
  }

  // brelse, second half.
  predicate CanUnref(s: State, p: Pid, b: nat) {
    b in s.cache && p in s.cache[b].refs && s.cache[b].holder != Some(p) && s.cache[b].refcnt > 0
  }

  function Unref(s: State, p: Pid, b: nat): State
    requires CanUnref(s, p, b)
  {
    var f := s.cache[b];
    Put(s, b, f.(refcnt := f.refcnt - 1, refs := f.refs - {p}))
  }

  // ---------------------------------------------------------------- operation steps

  predicate CanBeginOp(s: State, p: Pid) {
    && !Recovering(s) && p !in s.ops
    && !s.committing && |s.lh| + (s.outstanding + 1) * MAXOPBLOCKS <= LOGSIZE
  }

  function BeginOp(s: State, p: Pid): State
    requires CanBeginOp(s, p)
  {
    s.(ops := s.ops[p := 0], outstanding := s.outstanding + 1)
  }

  predicate CanModify(s: State, p: Pid, b: nat) {
    p in s.ops && Home(b) && Holds(s, p, b) && b < |s.last|
  }

  function Modify(s: State, p: Pid, b: nat, data: Block): State
    requires CanModify(s, p, b)
  {
    Put(s, b, s.cache[b].(data := data, dirty := true)).(last := s.last[b := data])
  }

  // log_write panics with "too big a transaction" in such a state (kernel/log.c:220).
  predicate LogFull(s: State) { |s.lh| >= LOGSIZE || |s.lh| >= NLOG - 1 }

  // k bounds the blocks that one operation adds to the log.
  predicate CanLogWrite(s: State, p: Pid, b: nat, k: nat) {
    p in s.ops && Home(b) && Holds(s, p, b) && !LogFull(s) && (b !in s.lh ==> s.ops[p] < k)
  }

  function LogWrite(s: State, p: Pid, b: nat): State
    requires p in s.ops && Holds(s, p, b)
  {
    var f := s.cache[b].(dirty := false);
    if b in s.lh then Put(s, b, f)
    else Put(s, b, f.(refcnt := f.refcnt + 1)).(lh := s.lh + [b], ops := s.ops[p := s.ops[p] + 1])
  }

  predicate CanEndOp(s: State, p: Pid) {
    && p in s.ops && s.outstanding > 0
    && (forall b :: b in s.cache && s.cache[b].holder == Some(p) ==> !s.cache[b].dirty)
  }

  function EndOp(s: State, p: Pid): State
    requires CanEndOp(s, p)
  {
    var s1 := s.(ops := s.ops - {p}, outstanding := s.outstanding - 1);
    if s.outstanding > 1 then s1
    else s1.(committing := true, committer := p,
             phase := if |s.lh| > 0 then WriteLog(0) else Finish(false))
  }

  // ---------------------------------------------------------------- commit steps

  // write_log: copy a cached block into the buffer of its log slot, then write that buffer.
  predicate CanCopyToLog(s: State) {
    && s.phase.WriteLog? && s.phase.tail < |s.lh|
    && Holds(s, s.committer, Slot(s.phase.tail)) && Holds(s, s.committer, s.lh[s.phase.tail])
  }

  function CopyToLog(s: State): State
    requires CanCopyToLog(s)
  {
    var to := Slot(s.phase.tail);
    Put(s, to, s.cache[to].(data := s.cache[s.lh[s.phase.tail]].data, dirty := true))
  }

  predicate CanWriteLogBlock(s: State) {
    && s.phase.WriteLog? && s.phase.tail < |s.lh| && Slot(s.phase.tail) < |s.disk|
    && Holds(s, s.committer, Slot(s.phase.tail)) && s.cache[Slot(s.phase.tail)].dirty
  }

  function WriteLogBlock(s: State): State
    requires CanWriteLogBlock(s)
  {
    var to := Slot(s.phase.tail);
    Put(s, to, s.cache[to].(dirty := false)).(disk := s.disk[to := s.cache[to].data],
                                              phase := WriteLog(s.phase.tail + 1))
  }

  // write_head: the header write is the commit point.
  predicate CanCopyHead(s: State) {
    s.phase.WriteLog? && s.phase.tail == |s.lh| && Holds(s, s.committer, LOGSTART)
  }

  function CopyHead(s: State): State
    requires CanCopyHead(s)
  {
    var f := s.cache[LOGSTART];
    Put(s, LOGSTART, f.(data := WriteHeader(f.data, s.lh), dirty := true))
  }

  predicate CanWriteHead(s: State) {
    && s.phase.WriteLog? && s.phase.tail == |s.lh| && LOGSTART < |s.disk|
    && Holds(s, s.committer, LOGSTART) && s.cache[LOGSTART].dirty
  }

  function WriteHead(s: State): State
    requires CanWriteHead(s)
  {
    var f := s.cache[LOGSTART];
    Put(s, LOGSTART, f.(dirty := false)).(disk := s.disk[LOGSTART := f.data],
      phase := Install(false, 0, false), committed := s.last)
  }

  // install_trans: copy a log slot to its home block, write it, and unpin it unless recovering.
  predicate CanCopyHome(s: State) {
    && s.phase.Install? && s.phase.tail < |s.lh| && !s.phase.unpin
    && Holds(s, s.committer, Slot(s.phase.tail)) && Holds(s, s.committer, s.lh[s.phase.tail])
  }

  function CopyHome(s: State): State
    requires CanCopyHome(s)
  {
    var b := s.lh[s.phase.tail];
    Put(s, b, s.cache[b].(data := s.cache[Slot(s.phase.tail)].data, dirty := true))
  }

  predicate CanWriteHome(s: State) {
    && s.phase.Install? && s.phase.tail < |s.lh| && !s.phase.unpin && s.lh[s.phase.tail] < |s.disk|
    && Holds(s, s.committer, s.lh[s.phase.tail]) && s.cache[s.lh[s.phase.tail]].dirty
  }

  function WriteHome(s: State): State
    requires CanWriteHome(s)
  {
    var b := s.lh[s.phase.tail];
    Put(s, b, s.cache[b].(dirty := false)).(disk := s.disk[b := s.cache[b].data],
      phase := if s.phase.rec then Install(true, s.phase.tail + 1, false) else Install(false, s.phase.tail, true))
  }

  predicate CanUnpin(s: State) {
    && s.phase.Install? && s.phase.unpin && s.phase.tail < |s.lh|
    && s.lh[s.phase.tail] in s.cache && s.cache[s.lh[s.phase.tail]].refcnt > 0
  }

  function Unpin(s: State): State
    requires CanUnpin(s)
  {
    var b := s.lh[s.phase.tail];
    Put(s, b, s.cache[b].(refcnt := s.cache[b].refcnt - 1)).(phase := Install(s.phase.rec, s.phase.tail + 1, false))
  }

  // log.lh.n = 0, then write_head again.
  predicate CanEmptyLog(s: State) { s.phase.Install? && s.phase.tail == |s.lh| && !s.phase.unpin }

  function EmptyLog(s: State): State
    requires CanEmptyLog(s)
  {
    s.(lh := [], phase := Clear(s.phase.rec))
  }

  predicate CanCopyEmptyHead(s: State) { s.phase.Clear? && Holds(s, s.committer, LOGSTART) }

  function CopyEmptyHead(s: State): State
    requires CanCopyEmptyHead(s)
  {
    var f := s.cache[LOGSTART];
    Put(s, LOGSTART, f.(data := WriteHeader(f.data, []), dirty := true))
  }

  predicate CanWriteEmptyHead(s: State) {
    s.phase.Clear? && LOGSTART < |s.disk| && Holds(s, s.committer, LOGSTART) && s.cache[LOGSTART].dirty
  }

  function WriteEmptyHead(s: State): State
    requires CanWriteEmptyHead(s)
  {
    var f := s.cache[LOGSTART];
    Put(s, LOGSTART, f.(dirty := false)).(disk := s.disk[LOGSTART := f.data], phase := Finish(s.phase.rec))
  }

  predicate CanDone(s: State) { s.phase.Finish? }

  function Done(s: State): State { s.(committing := false, phase := Running) }

  // ---------------------------------------------------------------- crash and recovery

  // Power is lost: memory is gone, the disk stays; process p will run recovery.
  function Crash(s: State, p: Pid): State {
    s.(cache := map[], lh := [], ops := map[], outstanding := 0, committing := false,
       phase := ReadHead, committer := p, last := s.committed)
  }

  // read_head.  RecoveryCanLoad shows that the two range conditions never block it.
  predicate CanLoadHead(s: State) {
    && s.phase.ReadHead? && Holds(s, s.committer, LOGSTART)
    && 0 <= HeaderN(s.cache[LOGSTART].data) < |s.cache[LOGSTART].data|
    && (forall i :: 0 < i <= HeaderN(s.cache[LOGSTART].data) ==> s.cache[LOGSTART].data[i] >= 0)
  }

  function LoadHead(s: State): State
    requires CanLoadHead(s)
  {
    var h := s.cache[LOGSTART].data;
    s.(lh := seq(HeaderN(h), i requires 0 <= i < HeaderN(h) => h[i + 1]), phase := Install(true, 0, false))
  }

  // ---------------------------------------------------------------- the transition relation

  ghost predicate BufferNext(s: State, s': State) {
    || (exists p, b :: CanGet(s, p, b) && s' == Get(s, p, b))
    || (exists p: Pid, b, v :: CanRecycle(s, b, v) && s' == Recycle(s, p, b, v))
    || (exists p, b :: CanLock(s, p, b) && s' == Lock(s, p, b))
    || (exists p, b :: CanFill(s, p, b) && s' == Fill(s, p, b))
    || (exists p, b :: CanUnlock(s, p, b) && s' == Unlock(s, p, b))
    || (exists p, b :: CanUnref(s, p, b) && s' == Unref(s, p, b))
  }

  ghost predicate OpNext(s: State, s': State, k: nat) {
    || (exists p :: CanBeginOp(s, p) && s' == BeginOp(s, p))
    || (exists p, b, data :: CanModify(s, p, b) && s' == Modify(s, p, b, data))
    || (exists p, b :: CanLogWrite(s, p, b, k) && s' == LogWrite(s, p, b))
    || (exists p :: CanEndOp(s, p) && s' == EndOp(s, p))
  }

  ghost predicate WriteLogNext(s: State, s': State) {
    || (CanCopyToLog(s) && s' == CopyToLog(s))
    || (CanWriteLogBlock(s) && s' == WriteLogBlock(s))
    || (CanCopyHead(s) && s' == CopyHead(s))
  }

  ghost predicate InstallNext(s: State, s': State) {
    || (CanCopyHome(s) && s' == CopyHome(s))
    || (CanWriteHome(s) && s' == WriteHome(s))
    || (CanUnpin(s) && s' == Unpin(s))
    || (CanEmptyLog(s) && s' == EmptyLog(s))
  }

  ghost predicate ClearNext(s: State, s': State) {
    || (CanCopyEmptyHead(s) && s' == CopyEmptyHead(s))
    || (CanWriteEmptyHead(s) && s' == WriteEmptyHead(s))
    || (CanDone(s) && s' == Done(s))
    || (CanLoadHead(s) && s' == LoadHead(s))
  }

  ghost predicate CommitPoint(s: State, s': State) { CanWriteHead(s) && s' == WriteHead(s) }

  ghost predicate Crashes(s: State, s': State) { exists p :: s' == Crash(s, p) }

  ghost predicate Next(s: State, s': State, k: nat) {
    || BufferNext(s, s') || OpNext(s, s', k) || WriteLogNext(s, s') || CommitPoint(s, s')
    || InstallNext(s, s') || ClearNext(s, s') || Crashes(s, s')
  }

  // A run: every state of it is reachable.
  ghost predicate Run(run: seq<State>, k: nat)
    ensures Run(run, k) ==> |run| > 0
  {
    && |run| > 0 && Init(run[0])
    && (forall i :: 0 <= i < |run| - 1 ==> Next(run[i], run[i + 1], k))
  }
}
