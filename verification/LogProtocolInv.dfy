/** What every step of the log protocol keeps. */
module LogProtocolInv {
  import opened Params
  import opened LogProtocol

  // ---------------------------------------------------------------- the invariant

  ghost predicate DistinctHomes(t: seq<nat>) {
    && |t| <= NLOG - 1
    && (forall i :: 0 <= i < |t| ==> Home(t[i]))
    && (forall i, j :: 0 <= i < j < |t| ==> t[i] != t[j])
  }

  // t is the list of home blocks that the header h names.
  ghost predicate Names(h: Block, t: seq<nat>) {
    && |t| < |h| && HeaderN(h) == |t|
    && (forall i :: 0 <= i < |t| ==> h[i + 1] == t[i])
  }

  // The disk, log included, stands for the contents c: named blocks have their contents
  // in the log slots, all others in place.
  ghost predicate Stands(disk: seq<Block>, t: seq<nat>, c: seq<Block>) {
    && |disk| == FSSIZE && |c| == FSSIZE
    && DistinctHomes(t) && Names(disk[LOGSTART], t)
    && (forall i :: 0 <= i < |t| ==> disk[Slot(i)] == c[t[i]])
    && (forall b :: Home(b) && b !in t ==> disk[b] == c[b])
  }

  // The blocks that log_write pinned and install_trans has not yet unpinned.
  function Pinned(s: State): (r: seq<nat>) {
    if s.phase.Install? then
      (if s.phase.rec || s.phase.tail > |s.lh| then [] else s.lh[s.phase.tail..])
    else if Recovering(s) then [] else s.lh
  }

  ghost predicate BufOk(s: State, b: nat)
    requires b in s.cache
  {
    var f := s.cache[b];
    && b < FSSIZE
    && f.refcnt == |f.refs| + (if b in Pinned(s) then 1 else 0)
    && (f.holder.Some? ==> f.holder.value in f.refs)
    && (f.dirty ==> f.holder.Some? && f.valid)
  }

  ghost predicate Counted(s: State) {
    && |s.cache| <= NBUF
    && (forall b :: b in s.cache ==> BufOk(s, b))
    && (forall b :: b in Pinned(s) ==> b in s.cache && s.cache[b].valid)
    && DistinctHomes(s.lh)
  }

  ghost predicate PhaseOk(s: State) {
    && s.outstanding == |s.ops|
    && (s.phase.Running? ==> !s.committing)
    && (!s.phase.Running? ==> s.ops == map[] && s.committing == !Recovering(s))
    && (s.phase.Install? ==> s.phase.tail <= |s.lh| && (s.phase.unpin ==> !s.phase.rec && s.phase.tail < |s.lh|))
    && (s.phase.WriteLog? ==> s.phase.tail <= |s.lh|)
    && (s.phase.Clear? || s.phase.Finish? || s.phase.ReadHead? ==> s.lh == [])
    && (s.phase.Running? && s.ops == map[] ==> s.lh == [])
  }

  // The disk in each phase; t lists what the header on disk names.
  ghost predicate DiskOk(s: State, t: seq<nat>)
    requires DistinctHomes(s.lh) && PhaseOk(s)
  {
    && Stands(s.disk, t, s.committed) && |s.last| == FSSIZE
    && (s.phase.Running? || s.phase.WriteLog? || s.phase.Finish? ==> t == [])
    && (s.phase.WriteLog? ==> forall i :: 0 <= i < s.phase.tail ==> s.disk[Slot(i)] == s.last[s.lh[i]])
    && (s.phase.Install? ==> t == s.lh)
    && (s.phase.Install? ==> forall i :: 0 <= i < Installed(s) ==> s.disk[s.lh[i]] == s.committed[s.lh[i]])
    && (s.phase.Clear? ==> forall b :: Home(b) ==> s.disk[b] == s.committed[b])
  }

  function Installed(s: State): int
    requires s.phase.Install?
  {
    s.phase.tail + (if s.phase.unpin then 1 else 0)
  }

  // What a home block's contents are to any reader.
  function Logical(s: State, b: nat): (r: Block)
    requires b < |s.disk|
  {
    if b in s.cache && s.cache[b].valid then s.cache[b].data else s.disk[b]
  }

  // A buffer whose data the holder is changing through the log machinery.
  ghost predicate BeingWritten(s: State, b: nat)
    requires b in s.cache
  {
    s.cache[b].dirty && s.cache[b].holder == Some(s.committer)
  }

  ghost predicate LogBufOk(s: State, b: nat)
    requires b in s.cache && InLog(b) && |s.disk| == FSSIZE && |s.last| == FSSIZE
  {
    var f := s.cache[b];
    && (f.valid && !f.dirty ==> f.data == s.disk[b])
    && (f.dirty ==> BeingWritten(s, b))
    && (f.dirty ==>
          || (s.phase.WriteLog? && s.phase.tail < |s.lh| && b == Slot(s.phase.tail)
              && s.lh[s.phase.tail] < FSSIZE && f.data == s.last[s.lh[s.phase.tail]])
          || (s.phase.WriteLog? && s.phase.tail == |s.lh| && b == LOGSTART && Names(f.data, s.lh))
          || (s.phase.Clear? && b == LOGSTART && Names(f.data, [])))
  }

  ghost predicate HomeBufOk(s: State, b: nat)
    requires b in s.cache && Home(b) && |s.disk| == FSSIZE && |s.committed| == FSSIZE
  {
    var f := s.cache[b];
    && (f.valid && !f.dirty && b !in Pinned(s) ==> f.data == s.disk[b])
    && (f.dirty && s.phase.Running? ==> f.holder.Some? && f.holder.value in s.ops)
    && (f.dirty && !s.phase.Running? ==>
          s.phase.Install? && s.phase.tail < |s.lh| && b == s.lh[s.phase.tail] && !s.phase.unpin
          && f.data == s.committed[b] && BeingWritten(s, b))
  }

  ghost predicate CacheOk(s: State) {
    && |s.disk| == FSSIZE && |s.last| == FSSIZE && |s.committed| == FSSIZE
    && (forall b :: b in s.cache && InLog(b) ==> LogBufOk(s, b))
    && (forall b :: b in s.cache && Home(b) ==> HomeBufOk(s, b))
  }

  ghost predicate ReadersOk(s: State)
    requires |s.disk| == FSSIZE && |s.last| == FSSIZE && |s.committed| == FSSIZE
  {
    && (!Recovering(s) ==> forall b :: Home(b) ==> Logical(s, b) == s.last[b])
    && (Recovering(s) ==> s.last == s.committed)
    && (s.phase.Install? || s.phase.Clear? || s.phase.Finish? ==> forall b :: Home(b) ==> s.last[b] == s.committed[b])
  }

  ghost predicate Inv(s: State, t: seq<nat>) {
    Counted(s) && PhaseOk(s) && DiskOk(s, t) && CacheOk(s) && ReadersOk(s)
  }
}
