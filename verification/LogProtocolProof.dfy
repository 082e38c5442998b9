/** The invariant holds at boot and every step keeps it. */
module LogProtocolProof {
  import opened Params
  import opened LogProtocol
  import opened LogProtocolInv

  lemma InitInv(s: State)
    requires Init(s)
    ensures Inv(s, [])
  {
  }

  // ---------------------------------------------------------------- buffer steps

  // A step that leaves what readers see alone.
  lemma ReadersKept(s: State, s': State)
    requires |s.disk| == |s'.disk| == |s.last| == |s.committed| == FSSIZE && ReadersOk(s)
    requires s'.last == s.last && s'.committed == s.committed && Recovering(s') == Recovering(s)
    requires s'.phase.Install? || s'.phase.Clear? || s'.phase.Finish? ==>
               s.phase.Install? || s.phase.Clear? || s.phase.Finish?
    requires s'.cache.Keys == s.cache.Keys
    requires forall b :: b in s.cache && Home(b) ==>
                           s'.cache[b].valid == s.cache[b].valid && s'.cache[b].data == s.cache[b].data
    requires forall b :: Home(b) && !(b in s.cache && s.cache[b].valid) ==> s'.disk[b] == s.disk[b]
    ensures ReadersOk(s')
  {
    forall b | Home(b) ensures Logical(s', b) == Logical(s, b) {}
  }

  // A step that changes only the cache.
  ghost predicate SameButCache(s: State, s': State) { s' == s.(cache := s'.cache) }

  lemma OnlyCache(s: State, s': State, t: seq<nat>)
    requires Inv(s, t) && SameButCache(s, s') && Counted(s') && CacheOk(s')
    requires forall b :: Home(b) && !Recovering(s) ==> Logical(s', b) == Logical(s, b)
    ensures Inv(s', t)
  {
    assert DistinctHomes(s.lh);
    hide Counted, CacheOk;
    assert PhaseOk(s') && DiskOk(s', t);
    hide PhaseOk, DiskOk;
    forall b | Home(b) && !Recovering(s) ensures Logical(s', b) == s.last[b] { assert Logical(s, b) == s.last[b]; }
  }

  // A step that moves no reference and no pin keeps the counts.
  lemma CountsKept(s: State, s': State)
    requires Counted(s) && s'.cache.Keys == s.cache.Keys && s'.lh == s.lh
    requires forall b :: b in Pinned(s') <==> b in Pinned(s)
    requires forall b :: b in s.cache ==>
               && s'.cache[b].refcnt == s.cache[b].refcnt && s'.cache[b].refs == s.cache[b].refs
               && s'.cache[b].holder == s.cache[b].holder && s'.cache[b].valid == s.cache[b].valid
               && (s'.cache[b].dirty ==> s.cache[b].dirty || (s.cache[b].holder.Some? && s.cache[b].valid))
    ensures Counted(s')
  {
    assert |s'.cache.Keys| == |s.cache.Keys|;
    forall b | b in s'.cache ensures BufOk(s', b) { assert BufOk(s, b); }
  }

  // A change of one buffer's references, lock or validity that leaves its contents alone.
  ghost predicate Touches(s: State, b: nat, f: Buf)
    requires b in s.cache && b < |s.disk|
  {
    var g := s.cache[b];
    && f.refcnt - |f.refs| == g.refcnt - |g.refs|
    && (f.holder.Some? ==> f.holder.value in f.refs)
    && f.dirty == g.dirty && (f.dirty ==> f.holder == g.holder)
    && (if g.valid then f.valid && f.data == g.data else f.valid ==> f.data == s.disk[b])
  }

  lemma TouchCounted(s: State, b: nat, f: Buf, t: seq<nat>)
    requires Inv(s, t) && b in s.cache && Touches(s, b, f)
    ensures Counted(Put(s, b, f))
  {
    var s' := Put(s, b, f);
    assert Pinned(s') == Pinned(s);
    assert s'.cache.Keys == s.cache.Keys;
    forall c | c in s'.cache ensures BufOk(s', c) { assert BufOk(s, c); }
  }

  lemma TouchCache(s: State, b: nat, f: Buf, t: seq<nat>)
    requires Inv(s, t) && b in s.cache && Touches(s, b, f)
    ensures CacheOk(Put(s, b, f))
  {
    var s' := Put(s, b, f);
    assert Pinned(s') == Pinned(s);
    assert BufOk(s, b);
    hide Counted, DiskOk, ReadersOk;
    forall c | c in s'.cache && InLog(c) ensures LogBufOk(s', c) { assert LogBufOk(s, c); }
    forall c | c in s'.cache && Home(c) ensures HomeBufOk(s', c) { assert HomeBufOk(s, c); }
  }

  lemma TouchKeeps(s: State, b: nat, f: Buf, t: seq<nat>)
    requires Inv(s, t) && b in s.cache && Touches(s, b, f)
    ensures Inv(Put(s, b, f), t)
  {
    var s' := Put(s, b, f);
    hide Inv, Counted, CacheOk;
    TouchCounted(s, b, f, t);
    TouchCache(s, b, f, t);
    OnlyCache(s, s', t);
  }

  lemma InsertCounted(s: State, b: nat, f: Buf)
    requires Counted(s) && b !in s.cache && |s.cache| < NBUF && b < FSSIZE
    requires !f.valid && !f.dirty && f.refcnt == |f.refs| && f.holder == None
    ensures Counted(Put(s, b, f))
  {
    var s' := Put(s, b, f);
    assert Pinned(s') == Pinned(s);
    assert s'.cache.Keys == s.cache.Keys + {b};
    forall c | c in s'.cache ensures BufOk(s', c) { if c != b { assert BufOk(s, c); } }
  }

  lemma InsertCache(s: State, b: nat, f: Buf)
    requires CacheOk(s) && b !in s.cache && !f.valid && !f.dirty
    ensures CacheOk(Put(s, b, f))
  {
    var s' := Put(s, b, f);
    assert Pinned(s') == Pinned(s);
    forall c | c in s'.cache && InLog(c) ensures LogBufOk(s', c) { if c != b { assert LogBufOk(s, c); } }
    forall c | c in s'.cache && Home(c) ensures HomeBufOk(s', c) { if c != b { assert HomeBufOk(s, c); } }
  }

  lemma InsertKeeps(s: State, b: nat, f: Buf, t: seq<nat>)
    requires Inv(s, t) && b !in s.cache && |s.cache| < NBUF && b < FSSIZE
    requires !f.valid && !f.dirty && f.refcnt == |f.refs| && f.holder == None
    ensures Inv(Put(s, b, f), t)
  {
    var s' := Put(s, b, f);
    InsertCounted(s, b, f);
    InsertCache(s, b, f);
    hide Inv, Counted, CacheOk;
    OnlyCache(s, s', t);
  }

  lemma EvictCounted(s: State, v: nat)
    requires Counted(s) && v in s.cache && s.cache[v].refcnt == 0
    ensures Counted(s.(cache := s.cache - {v})) && |s.cache - {v}| == |s.cache| - 1
  {
    var s' := s.(cache := s.cache - {v});
    assert Pinned(s') == Pinned(s);
    assert s'.cache.Keys == s.cache.Keys - {v};
    assert BufOk(s, v);
    forall c | c in s'.cache ensures BufOk(s', c) { assert BufOk(s, c); }
  }

  lemma EvictCache(s: State, v: nat)
    requires CacheOk(s) && v in s.cache
    ensures CacheOk(s.(cache := s.cache - {v}))
  {
    var s' := s.(cache := s.cache - {v});
    assert Pinned(s') == Pinned(s);
    forall c | c in s'.cache && InLog(c) ensures LogBufOk(s', c) { assert LogBufOk(s, c); }
    forall c | c in s'.cache && Home(c) ensures HomeBufOk(s', c) { assert HomeBufOk(s, c); }
  }

  // An unreferenced buffer is clean, so dropping it loses nothing.
  lemma EvictKeeps(s: State, v: nat, t: seq<nat>)
    requires Inv(s, t) && v in s.cache && s.cache[v].refcnt == 0
    ensures Inv(s.(cache := s.cache - {v}), t) && |s.cache - {v}| == |s.cache| - 1
  {
    var s' := s.(cache := s.cache - {v});
    assert BufOk(s, v) && (Home(v) ==> HomeBufOk(s, v));
    EvictCounted(s, v);
    EvictCache(s, v);
    hide Inv, Counted, CacheOk, HomeBufOk;
    OnlyCache(s, s', t);
  }

  lemma GetKeeps(s: State, p: Pid, b: nat, t: seq<nat>)
    requires Inv(s, t) && CanGet(s, p, b)
    ensures Inv(Get(s, p, b), t)
  {
    if b in s.cache {
      var g := s.cache[b];
      assert |g.refs + {p}| == |g.refs| + 1;
      assert BufOk(s, b);
      TouchKeeps(s, b, g.(refcnt := g.refcnt + 1, refs := g.refs + {p}), t);
    } else {
      InsertKeeps(s, b, Buf(false, [], 1, {p}, None, false), t);
    }
  }

  lemma RecycleKeeps(s: State, p: Pid, b: nat, v: nat, t: seq<nat>)
    requires Inv(s, t) && CanRecycle(s, b, v)
    ensures Inv(Recycle(s, p, b, v), t)
  {
    EvictKeeps(s, v, t);
    InsertKeeps(s.(cache := s.cache - {v}), b, Buf(false, s.cache[v].data, 1, {p}, None, false), t);
  }

  lemma LockKeeps(s: State, p: Pid, b: nat, t: seq<nat>)
    requires Inv(s, t) && CanLock(s, p, b)
    ensures Inv(Lock(s, p, b), t)
  {
    assert BufOk(s, b);
    TouchKeeps(s, b, s.cache[b].(holder := Some(p)), t);
  }

  lemma FillKeeps(s: State, p: Pid, b: nat, t: seq<nat>)
    requires Inv(s, t) && CanFill(s, p, b)
    ensures Inv(Fill(s, p, b), t)
  {
    assert BufOk(s, b);
    TouchKeeps(s, b, s.cache[b].(data := s.disk[b], valid := true), t);
  }

  lemma UnlockKeeps(s: State, p: Pid, b: nat, t: seq<nat>)
    requires Inv(s, t) && CanUnlock(s, p, b)
    ensures Inv(Unlock(s, p, b), t)
  {
    assert BufOk(s, b);
    TouchKeeps(s, b, s.cache[b].(holder := None), t);
  }

  lemma UnrefKeeps(s: State, p: Pid, b: nat, t: seq<nat>)
    requires Inv(s, t) && CanUnref(s, p, b)
    ensures Inv(Unref(s, p, b), t)
  {
    assert BufOk(s, b);
    var f := s.cache[b];
    TouchKeeps(s, b, f.(refcnt := f.refcnt - 1, refs := f.refs - {p}), t);
  }

  lemma BufferKeeps(s: State, s': State, t: seq<nat>)
    requires Inv(s, t) && BufferNext(s, s')
    ensures Inv(s', t)
  {
    hide Inv;
    if p, b :| CanGet(s, p, b) && s' == Get(s, p, b) { GetKeeps(s, p, b, t); }
    else if p: Pid, b, v :| CanRecycle(s, b, v) && s' == Recycle(s, p, b, v) { RecycleKeeps(s, p, b, v, t); }
    else if p, b :| CanLock(s, p, b) && s' == Lock(s, p, b) { LockKeeps(s, p, b, t); }
    else if p, b :| CanFill(s, p, b) && s' == Fill(s, p, b) { FillKeeps(s, p, b, t); }
    else if p, b :| CanUnlock(s, p, b) && s' == Unlock(s, p, b) { UnlockKeeps(s, p, b, t); }
    else if p, b :| CanUnref(s, p, b) && s' == Unref(s, p, b) { UnrefKeeps(s, p, b, t); }
  }

  // ---------------------------------------------------------------- operations

  lemma BeginOpKeeps(s: State, p: Pid, t: seq<nat>)
    requires Inv(s, t) && CanBeginOp(s, p)
    ensures Inv(BeginOp(s, p), t)
  {
    var s' := BeginOp(s, p);
    assert s.phase.Running?;
    assert Pinned(s') == Pinned(s);
    CountsKept(s, s');
    assert CacheOk(s') by {
      hide DiskOk, ReadersOk, Counted;
      forall c | c in s'.cache && InLog(c) ensures LogBufOk(s', c) { assert LogBufOk(s, c); }
      forall c | c in s'.cache && Home(c) ensures HomeBufOk(s', c) { assert HomeBufOk(s, c); }
    }
    hide Counted, CacheOk;
    assert PhaseOk(s') by { assert s'.ops.Keys == s.ops.Keys + {p}; }
    hide PhaseOk;
    assert DiskOk(s', t) && ReadersOk(s');
  }

  lemma ModifyKeeps(s: State, p: Pid, b: nat, data: Block, t: seq<nat>)
    requires Inv(s, t) && CanModify(s, p, b)
    ensures Inv(Modify(s, p, b, data), t)
  {
    var s' := Modify(s, p, b, data);
    assert s.phase.Running?;
    assert Pinned(s') == Pinned(s);
    CountsKept(s, s');
    assert CacheOk(s') by {
      hide DiskOk, ReadersOk;
      forall c | c in s'.cache && InLog(c) ensures LogBufOk(s', c) { assert LogBufOk(s, c); }
      forall c | c in s'.cache && Home(c) ensures HomeBufOk(s', c) { assert HomeBufOk(s, c); }
    }
    hide Counted, CacheOk;
    assert PhaseOk(s') && DiskOk(s', t);
    hide PhaseOk, DiskOk;
    forall c | Home(c) ensures Logical(s', c) == s'.last[c] { assert Logical(s, c) == s.last[c]; }
  }

  // log_write on a block that is already in the header: absorption.
  lemma AbsorbKeeps(s: State, p: Pid, b: nat, t: seq<nat>)
    requires Inv(s, t) && p in s.ops && Home(b) && Holds(s, p, b) && b in s.lh
    ensures Inv(Put(s, b, s.cache[b].(dirty := false)), t)
  {
    var s' := Put(s, b, s.cache[b].(dirty := false));
    assert s.phase.Running?;
    assert Pinned(s) == s.lh && Pinned(s') == s.lh;
    CountsKept(s, s');
    assert CacheOk(s') by {
      forall c | c in s'.cache && InLog(c) ensures LogBufOk(s', c) { assert LogBufOk(s, c); }
      forall c | c in s'.cache && Home(c) ensures HomeBufOk(s', c) { assert HomeBufOk(s, c); }
    }
    hide Inv, Counted, CacheOk;
    OnlyCache(s, s', t);
  }

  // log_write on a new block: it is appended to the header and pinned.
  function Logged(s: State, p: Pid, b: nat): State
    requires b in s.cache && p in s.ops
  {
    var f := s.cache[b].(dirty := false);
    Put(s, b, f.(refcnt := f.refcnt + 1)).(lh := s.lh + [b], ops := s.ops[p := s.ops[p] + 1])
  }

  lemma AppendCounted(s: State, p: Pid, b: nat)
    requires Counted(s) && s.phase.Running? && p in s.ops && Home(b) && Holds(s, p, b) && b !in s.lh && !LogFull(s)
    ensures Counted(Logged(s, p, b))
  {
    var s' := Logged(s, p, b);
    assert Pinned(s) == s.lh && Pinned(s') == s.lh + [b];
    assert s'.cache.Keys == s.cache.Keys;
    forall c | c in s'.cache ensures BufOk(s', c) { assert BufOk(s, c); }
  }

  lemma AppendCache(s: State, p: Pid, b: nat, t: seq<nat>)
    requires Inv(s, t) && p in s.ops && Home(b) && Holds(s, p, b) && b !in s.lh && !LogFull(s)
    ensures CacheOk(Logged(s, p, b))
  {
    var s' := Logged(s, p, b);
    hide DiskOk;
    assert Pinned(s) == s.lh && Pinned(s') == s.lh + [b];
    forall c | c in s'.cache && Home(c) ensures HomeBufOk(s', c) { assert HomeBufOk(s, c); }
    forall c | c in s'.cache && InLog(c) ensures LogBufOk(s', c) { assert LogBufOk(s, c); }
  }

  lemma AppendKeeps(s: State, p: Pid, b: nat, t: seq<nat>)
    requires Inv(s, t) && p in s.ops && Home(b) && Holds(s, p, b) && b !in s.lh && !LogFull(s)
    ensures Inv(Logged(s, p, b), t)
  {
    var s' := Logged(s, p, b);
    AppendCounted(s, p, b);
    AppendCache(s, p, b, t);
    hide CacheOk, Counted;
    assert s'.ops.Keys == s.ops.Keys;
    assert PhaseOk(s') && DiskOk(s', t);
    hide PhaseOk, DiskOk;
    forall c | Home(c) ensures Logical(s', c) == Logical(s, c) {}
  }

  lemma LogWriteKeeps(s: State, p: Pid, b: nat, k: nat, t: seq<nat>)
    requires Inv(s, t) && CanLogWrite(s, p, b, k)
    ensures Inv(LogWrite(s, p, b), t)
  {
    if b in s.lh { AbsorbKeeps(s, p, b, t); } else { AppendKeeps(s, p, b, t); }
  }

  lemma EndOpLast(s: State, p: Pid)
    requires PhaseOk(s) && CanEndOp(s, p)
    ensures (s.ops - {p}).Keys == s.ops.Keys - {p} && |s.ops - {p}| == s.outstanding - 1
    ensures s.outstanding == 1 ==> s.ops.Keys == {p} && s.ops - {p} == map[]
  {
    var rest := s.ops.Keys - {p};
    assert (s.ops - {p}).Keys == rest;
    assert |s.ops.Keys| == |rest| + 1;
  }

  lemma EndOpCache(s: State, p: Pid, t: seq<nat>)
    requires Inv(s, t) && CanEndOp(s, p)
    ensures CacheOk(EndOp(s, p))
  {
    var s' := EndOp(s, p);
    assert s.phase.Running?;
    assert Pinned(s') == Pinned(s);
    EndOpLast(s, p);
    hide DiskOk, ReadersOk;
    forall c | c in s'.cache && InLog(c) ensures LogBufOk(s', c) { assert LogBufOk(s, c); }
    forall c | c in s'.cache && Home(c) ensures HomeBufOk(s', c) { assert BufOk(s, c) && HomeBufOk(s, c); }
  }

  // When the last operation ends and nothing was logged, nothing was changed.
  lemma EndOpQuiet(s: State, p: Pid, t: seq<nat>)
    requires Inv(s, t) && CanEndOp(s, p) && s.lh == [] && s.outstanding == 1
    ensures forall b :: Home(b) ==> s.last[b] == s.committed[b]
  {
    EndOpLast(s, p);
    forall b | Home(b) ensures s.last[b] == s.committed[b] {
      assert Logical(s, b) == s.last[b];
      if b in s.cache { assert BufOk(s, b) && HomeBufOk(s, b); }
    }
  }

  lemma EndOpKeeps(s: State, p: Pid, t: seq<nat>)
    requires Inv(s, t) && CanEndOp(s, p)
    ensures Inv(EndOp(s, p), t)
  {
    var s' := EndOp(s, p);
    assert s.phase.Running?;
    assert Pinned(s') == Pinned(s);
    CountsKept(s, s');
    EndOpCache(s, p, t);
    EndOpLast(s, p);
    if s.lh == [] && s.outstanding == 1 { EndOpQuiet(s, p, t); }
    hide Counted, CacheOk;
    assert PhaseOk(s') && DiskOk(s', t);
    hide PhaseOk, DiskOk;
    forall c | Home(c) ensures Logical(s', c) == s'.last[c] { assert Logical(s, c) == s.last[c]; }
  }

  // ---------------------------------------------------------------- commit

  // Writing a slot of an empty log, or a home block with its committed contents, changes
  // nothing of what the disk stands for.
  lemma StandsAfterSlot(disk: seq<Block>, c: seq<Block>, i: nat, data: Block)
    requires Stands(disk, [], c) && i < NLOG - 1
    ensures Stands(disk[Slot(i) := data], [], c)
  {
  }

  lemma StandsAfterHome(disk: seq<Block>, t: seq<nat>, c: seq<Block>, d: nat)
    requires Stands(disk, t, c) && Home(d)
    ensures Stands(disk[d := c[d]], t, c)
  {
  }

  lemma StandsAfterClear(disk: seq<Block>, t: seq<nat>, c: seq<Block>, h: Block)
    requires Stands(disk, t, c) && Names(h, []) && forall b :: Home(b) ==> disk[b] == c[b]
    ensures Stands(disk[LOGSTART := h], [], c)
  {
  }

  lemma CopyToLogKeeps(s: State, t: seq<nat>)
    requires Inv(s, t) && CanCopyToLog(s)
    ensures Inv(CopyToLog(s), t)
  {
    var s' := CopyToLog(s);
    var from := s.lh[s.phase.tail];
    assert Pinned(s') == Pinned(s) == s.lh;
    assert Logical(s, from) == s.last[from];
    CountsKept(s, s');
    assert CacheOk(s') by {
      forall c | c in s'.cache && InLog(c) ensures LogBufOk(s', c) { assert LogBufOk(s, c); }
      forall c | c in s'.cache && Home(c) ensures HomeBufOk(s', c) { assert HomeBufOk(s, c); }
    }
    hide Inv, Counted, CacheOk;
    OnlyCache(s, s', t);
  }

  lemma WriteLogBlockCache(s: State, t: seq<nat>)
    requires Inv(s, t) && CanWriteLogBlock(s)
    ensures CacheOk(WriteLogBlock(s))
  {
    var s' := WriteLogBlock(s);
    assert Pinned(s') == Pinned(s) == s.lh;
    forall c | c in s'.cache && InLog(c) ensures LogBufOk(s', c) { assert LogBufOk(s, c); }
    forall c | c in s'.cache && Home(c) ensures HomeBufOk(s', c) { assert HomeBufOk(s, c); }
  }

  lemma WriteLogBlockDisk(s: State, t: seq<nat>)
    requires Inv(s, t) && CanWriteLogBlock(s)
    ensures PhaseOk(WriteLogBlock(s)) && DiskOk(WriteLogBlock(s), t)
  {
    assert LogBufOk(s, Slot(s.phase.tail));
    StandsAfterSlot(s.disk, s.committed, s.phase.tail, s.cache[Slot(s.phase.tail)].data);
    hide Counted, CacheOk, ReadersOk, Stands;
  }

  lemma WriteLogBlockKeeps(s: State, t: seq<nat>)
    requires Inv(s, t) && CanWriteLogBlock(s)
    ensures Inv(WriteLogBlock(s), t)
  {
    var s' := WriteLogBlock(s);
    assert Pinned(s') == Pinned(s) == s.lh;
    CountsKept(s, s');
    assert ReadersOk(s') by {
      hide Counted, CacheOk, DiskOk, ReadersOk;
      ReadersKept(s, s');
    }
    hide Counted, CacheOk, PhaseOk, DiskOk, ReadersOk;
    WriteLogBlockCache(s, t);
    WriteLogBlockDisk(s, t);
  }

  lemma CopyHeadKeeps(s: State, t: seq<nat>)
    requires Inv(s, t) && CanCopyHead(s)
    ensures Inv(CopyHead(s), t)
  {
    var s' := CopyHead(s);
    assert Pinned(s') == Pinned(s);
    CountsKept(s, s');
    assert CacheOk(s') by {
      forall c | c in s'.cache && InLog(c) ensures LogBufOk(s', c) { assert LogBufOk(s, c); }
      forall c | c in s'.cache && Home(c) ensures HomeBufOk(s', c) { assert HomeBufOk(s, c); }
    }
    hide Inv, Counted, CacheOk;
    OnlyCache(s, s', t);
  }

  lemma CopyEmptyHeadKeeps(s: State, t: seq<nat>)
    requires Inv(s, t) && CanCopyEmptyHead(s)
    ensures Inv(CopyEmptyHead(s), t)
  {
    var s' := CopyEmptyHead(s);
    assert Pinned(s') == Pinned(s);
    CountsKept(s, s');
    assert CacheOk(s') by {
      forall c | c in s'.cache && InLog(c) ensures LogBufOk(s', c) { assert LogBufOk(s, c); }
      forall c | c in s'.cache && Home(c) ensures HomeBufOk(s', c) { assert HomeBufOk(s, c); }
    }
    hide Inv, Counted, CacheOk;
    OnlyCache(s, s', t);
  }

  // The commit point: one block write turns the whole transaction from absent to present.
  lemma WriteHeadDisk(s: State, t: seq<nat>)
    requires Inv(s, t) && CanWriteHead(s)
    ensures Stands(WriteHead(s).disk, s.lh, s.last)
  {
    var s' := WriteHead(s);
    assert Pinned(s) == s.lh;
    assert LogBufOk(s, LOGSTART);
    forall b | Home(b) && b !in s.lh ensures s'.disk[b] == s.last[b] {
      assert Logical(s, b) == s.last[b];
      if b in s.cache { assert HomeBufOk(s, b); }
    }
  }

  lemma WriteHeadCache(s: State, t: seq<nat>)
    requires Inv(s, t) && CanWriteHead(s)
    ensures CacheOk(WriteHead(s))
  {
    var s' := WriteHead(s);
    assert Pinned(s') == Pinned(s) == s.lh;
    forall c | c in s'.cache && InLog(c) ensures LogBufOk(s', c) { assert LogBufOk(s, c); }
    forall c | c in s'.cache && Home(c) ensures HomeBufOk(s', c) { assert HomeBufOk(s, c); }
  }

  lemma WriteHeadKeeps(s: State, t: seq<nat>)
    requires Inv(s, t) && CanWriteHead(s)
    ensures Inv(WriteHead(s), s.lh)
  {
    var s' := WriteHead(s);
    assert Pinned(s') == Pinned(s) == s.lh;
    CountsKept(s, s');
    WriteHeadCache(s, t);
    WriteHeadDisk(s, t);
    forall c | Home(c) ensures Logical(s', c) == Logical(s, c) {}
  }

  lemma CopyHomeKeeps(s: State, t: seq<nat>)
    requires Inv(s, t) && CanCopyHome(s)
    ensures Inv(CopyHome(s), t)
  {
    var s' := CopyHome(s);
    var l, d := Slot(s.phase.tail), s.lh[s.phase.tail];
    assert Pinned(s') == Pinned(s);
    assert LogBufOk(s, l) && s.cache[l].data == s.committed[d];
    assert !Recovering(s) ==> Logical(s, d) == s.last[d];
    CountsKept(s, s');
    assert CacheOk(s') by {
      forall c | c in s'.cache && InLog(c) ensures LogBufOk(s', c) { assert LogBufOk(s, c); }
      forall c | c in s'.cache && Home(c) ensures HomeBufOk(s', c) { assert HomeBufOk(s, c); }
    }
    hide Inv, Counted, CacheOk;
    OnlyCache(s, s', t);
  }

  lemma WriteHomeCache(s: State, t: seq<nat>)
    requires Inv(s, t) && CanWriteHome(s)
    ensures CacheOk(WriteHome(s))
  {
    var s' := WriteHome(s);
    assert Pinned(s') == Pinned(s);
    assert HomeBufOk(s, s.lh[s.phase.tail]);
    forall c | c in s'.cache && InLog(c) ensures LogBufOk(s', c) { assert LogBufOk(s, c); }
    forall c | c in s'.cache && Home(c) ensures HomeBufOk(s', c) { assert HomeBufOk(s, c); }
  }

  lemma WriteHomeDisk(s: State, t: seq<nat>)
    requires DistinctHomes(s.lh) && PhaseOk(s) && DiskOk(s, t) && CanWriteHome(s)
    requires s.cache[s.lh[s.phase.tail]].data == s.committed[s.lh[s.phase.tail]]
    ensures PhaseOk(WriteHome(s)) && DiskOk(WriteHome(s), t)
  {
    StandsAfterHome(s.disk, t, s.committed, s.lh[s.phase.tail]);
  }

  lemma WriteHomeKeeps(s: State, t: seq<nat>)
    requires Inv(s, t) && CanWriteHome(s)
    ensures Inv(WriteHome(s), t)
  {
    var s' := WriteHome(s);
    assert Pinned(s') == Pinned(s);
    CountsKept(s, s');
    assert ReadersOk(s') by {
      hide Counted, CacheOk, DiskOk, ReadersOk;
      ReadersKept(s, s');
    }
    WriteHomeDisk(s, t) by { assert HomeBufOk(s, s.lh[s.phase.tail]); }
    hide Counted, CacheOk, PhaseOk, DiskOk, ReadersOk;
    WriteHomeCache(s, t);
  }

  lemma UnpinCounted(s: State)
    requires Counted(s) && PhaseOk(s) && CanUnpin(s)
    ensures Counted(Unpin(s)) && Pinned(s) == [s.lh[s.phase.tail]] + Pinned(Unpin(s))
  {
    var s' := Unpin(s);
    var d := s.lh[s.phase.tail];
    assert Pinned(s) == [d] + Pinned(s');
    assert s'.cache.Keys == s.cache.Keys;
    forall c | c in s'.cache ensures BufOk(s', c) { assert BufOk(s, c); }
  }

  lemma UnpinCache(s: State, t: seq<nat>)
    requires Inv(s, t) && CanUnpin(s)
    ensures CacheOk(Unpin(s))
  {
    var s' := Unpin(s);
    UnpinCounted(s);
    var d := s.lh[s.phase.tail];
    assert Logical(s, d) == s.last[d] == s.disk[d];
    forall c | c in s'.cache && InLog(c) ensures LogBufOk(s', c) { assert LogBufOk(s, c); }
    forall c | c in s'.cache && Home(c) ensures HomeBufOk(s', c) { assert HomeBufOk(s, c); }
  }

  lemma UnpinKeeps(s: State, t: seq<nat>)
    requires Inv(s, t) && CanUnpin(s)
    ensures Inv(Unpin(s), t)
  {
    var s' := Unpin(s);
    assert DistinctHomes(s.lh);
    assert ReadersOk(s') by {
      hide Counted, CacheOk, DiskOk, ReadersOk;
      ReadersKept(s, s');
    }
    hide Counted, CacheOk, ReadersOk;
    assert PhaseOk(s') && DiskOk(s', t);
    hide PhaseOk, DiskOk;
    UnpinCounted(s);
    UnpinCache(s, t);
  }

  lemma EmptyLogKeeps(s: State, t: seq<nat>)
    requires Inv(s, t) && CanEmptyLog(s)
    ensures Inv(EmptyLog(s), t)
  {
    var s' := EmptyLog(s);
    assert Pinned(s') == Pinned(s) == [];
    assert Counted(s') by {
      forall c | c in s'.cache ensures BufOk(s', c) { assert BufOk(s, c); }
    }
    assert CacheOk(s') by {
      forall c | c in s'.cache && InLog(c) ensures LogBufOk(s', c) { assert LogBufOk(s, c); }
      forall c | c in s'.cache && Home(c) ensures HomeBufOk(s', c) { assert HomeBufOk(s, c); }
    }
    forall c | Home(c) ensures s'.disk[c] == s'.committed[c] {}
  }

  lemma WriteEmptyHeadCache(s: State, t: seq<nat>)
    requires Inv(s, t) && CanWriteEmptyHead(s)
    ensures CacheOk(WriteEmptyHead(s))
  {
    var s' := WriteEmptyHead(s);
    assert Pinned(s') == Pinned(s) == [];
    forall c | c in s'.cache && InLog(c) ensures LogBufOk(s', c) { assert LogBufOk(s, c); }
    forall c | c in s'.cache && Home(c) ensures HomeBufOk(s', c) { assert HomeBufOk(s, c); }
  }

  lemma WriteEmptyHeadKeeps(s: State, t: seq<nat>)
    requires Inv(s, t) && CanWriteEmptyHead(s)
    ensures Inv(WriteEmptyHead(s), [])
  {
    var s' := WriteEmptyHead(s);
    assert Pinned(s') == Pinned(s) == [];
    CountsKept(s, s');
    assert ReadersOk(s') by {
      hide Counted, CacheOk, DiskOk, ReadersOk;
      ReadersKept(s, s');
    }
    assert LogBufOk(s, LOGSTART);
    StandsAfterClear(s.disk, t, s.committed, s.cache[LOGSTART].data);
    hide Counted, CacheOk, ReadersOk, Stands;
    WriteEmptyHeadCache(s, t);
    assert PhaseOk(s') && DiskOk(s', []);
  }

  lemma DoneKeeps(s: State, t: seq<nat>)
    requires Inv(s, t) && CanDone(s)
    ensures Inv(Done(s), t)
  {
    var s' := Done(s);
    assert Pinned(s') == Pinned(s) == [];
    assert Counted(s') by {
      forall c | c in s'.cache ensures BufOk(s', c) { assert BufOk(s, c); }
    }
    assert CacheOk(s') by {
      forall c | c in s'.cache && InLog(c) ensures LogBufOk(s', c) { assert LogBufOk(s, c); }
      forall c | c in s'.cache && Home(c) ensures HomeBufOk(s', c) { assert HomeBufOk(s, c); }
    }
    forall c | Home(c) ensures Logical(s', c) == s'.last[c] { if c in s.cache { assert HomeBufOk(s, c); } }
  }

  // ---------------------------------------------------------------- crash and recovery

  lemma CrashKeeps(s: State, p: Pid, t: seq<nat>)
    requires Inv(s, t)
    ensures Inv(Crash(s, p), t)
  {
  }

  lemma LoadHeadKeeps(s: State, t: seq<nat>)
    requires Inv(s, t) && CanLoadHead(s)
    ensures Inv(LoadHead(s), t)
  {
    var s' := LoadHead(s);
    assert LogBufOk(s, LOGSTART);
    assert s'.lh == t;
    assert Pinned(s') == Pinned(s) == [];
    assert Counted(s') by {
      forall c | c in s'.cache ensures BufOk(s', c) { assert BufOk(s, c); }
    }
    assert CacheOk(s') by {
      forall c | c in s'.cache && InLog(c) ensures LogBufOk(s', c) { assert LogBufOk(s, c); }
      forall c | c in s'.cache && Home(c) ensures HomeBufOk(s', c) { assert HomeBufOk(s, c); }
    }
  }

  // ---------------------------------------------------------------- every step

  lemma OpKeeps(s: State, s': State, k: nat, t: seq<nat>)
    requires Inv(s, t) && OpNext(s, s', k)
    ensures Inv(s', t)
  {
    hide Inv;
    if p :| CanBeginOp(s, p) && s' == BeginOp(s, p) { BeginOpKeeps(s, p, t); }
    else if p, b, data :| CanModify(s, p, b) && s' == Modify(s, p, b, data) { ModifyKeeps(s, p, b, data, t); }
    else if p, b :| CanLogWrite(s, p, b, k) && s' == LogWrite(s, p, b) { LogWriteKeeps(s, p, b, k, t); }
    else if p :| CanEndOp(s, p) && s' == EndOp(s, p) { EndOpKeeps(s, p, t); }
  }

  lemma WriteLogKeeps(s: State, s': State, t: seq<nat>)
    requires Inv(s, t) && WriteLogNext(s, s')
    ensures Inv(s', t)
  {
    if CanCopyToLog(s) && s' == CopyToLog(s) { CopyToLogKeeps(s, t); }
    else if CanWriteLogBlock(s) && s' == WriteLogBlock(s) { WriteLogBlockKeeps(s, t); }
    else { CopyHeadKeeps(s, t); }
  }

  lemma InstallKeeps(s: State, s': State, t: seq<nat>)
    requires Inv(s, t) && InstallNext(s, s')
    ensures Inv(s', t)
  {
    if CanCopyHome(s) && s' == CopyHome(s) { CopyHomeKeeps(s, t); }
    else if CanWriteHome(s) && s' == WriteHome(s) { WriteHomeKeeps(s, t); }
    else if CanUnpin(s) && s' == Unpin(s) { UnpinKeeps(s, t); }
    else { EmptyLogKeeps(s, t); }
  }

  lemma ClearKeeps(s: State, s': State, t: seq<nat>) returns (t': seq<nat>)
    requires Inv(s, t) && ClearNext(s, s')
    ensures Inv(s', t')
  {
    t' := t;
    if CanCopyEmptyHead(s) && s' == CopyEmptyHead(s) { CopyEmptyHeadKeeps(s, t); }
    else if CanWriteEmptyHead(s) && s' == WriteEmptyHead(s) { WriteEmptyHeadKeeps(s, t); t' := []; }
    else if CanDone(s) && s' == Done(s) { DoneKeeps(s, t); }
    else { LoadHeadKeeps(s, t); }
  }

  ghost predicate Safe(s: State) { exists t :: Inv(s, t) }

  lemma NextKeeps(s: State, s': State, k: nat)
    requires Safe(s) && Next(s, s', k)
    ensures Safe(s')
  {
    hide Inv;
    var t :| Inv(s, t);
    if BufferNext(s, s') { BufferKeeps(s, s', t); }
    else if OpNext(s, s', k) { OpKeeps(s, s', k, t); }
    else if WriteLogNext(s, s') { WriteLogKeeps(s, s', t); }
    else if CommitPoint(s, s') { WriteHeadKeeps(s, t); }
    else if InstallNext(s, s') { InstallKeeps(s, s', t); }
    else if ClearNext(s, s') { var t' := ClearKeeps(s, s', t); }
    else { var p :| s' == Crash(s, p); CrashKeeps(s, p, t); }
  }
}
