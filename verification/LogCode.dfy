/** kernel/log.c as code: commit and recovery run their loops on the buffer cache of module
    BufferRing, and every disk state they pass through is a possible crash. */
module LogCode {
  import opened Collections
  import opened Params
  import P = LogProtocol
  import I = LogProtocolInv
  import F = LogProtocolProof
  import T = LogTheorems
  import opened BufferRing

  const DEV: nat := 1   // ROOTDEV

  // ---------------------------------------------------------------- who refers to the cache

  predicate Names(f: Buf, s: set<nat>) { f.dev == DEV && f.blockno in s }

  function Count(f: Buf, s: set<nat>): nat { if Names(f, s) then 1 else 0 }

  // Every reference is a pin or a hold of this process.  A pinned block is cached with
  // contents c; a cached block that is neither pinned nor held agrees with the disk.
  ghost predicate BufFits(f: Buf, disk: seq<Block>, pins: set<nat>, held: set<nat>, c: seq<Block>)
    requires |disk| == |c| == FSSIZE
  {
    && f.refcnt == Count(f, pins) + Count(f, held)
    && (Names(f, pins + held) ==> f.valid && f.blockno < FSSIZE)
    && (Names(f, pins - held) ==> f.data == c[f.blockno])
    && (f.dev == DEV && f.valid && !Names(f, pins + held) ==> f.blockno < FSSIZE && f.data == disk[f.blockno])
  }

  ghost predicate Fits(buf: seq<Buf>, disk: seq<Block>, pins: set<nat>, held: set<nat>, c: seq<Block>) {
    && |buf| == NBUF + 1 && |disk| == |c| == FSSIZE && Unique(buf)
    && (forall i :: 0 <= i < NBUF ==> BufFits(buf[i], disk, pins, held, c))
    && (forall b :: b in pins + held ==> exists i :: 0 <= i < NBUF && Caches(buf[i], DEV, b))
  }

  lemma OnlyBuffer(buf: seq<Buf>, r: nat, b: nat)
    requires Unique(buf) && r < NBUF < |buf| && Caches(buf[r], DEV, b)
    ensures forall i :: 0 <= i < NBUF && i != r ==> !Caches(buf[i], DEV, b)
  {
  }

  function Blocks(buf: seq<Buf>, n: nat): (r: set<nat>)
    requires n <= |buf|
    ensures forall b :: b in r ==> exists i :: 0 <= i < n && buf[i].blockno == b
  {
    if n == 0 then {} else Blocks(buf, n - 1) + {buf[n - 1].blockno}
  }

  lemma Differ(buf: seq<Buf>, i: nat, j: nat)
    requires i < j < NBUF < |buf| && Unique(buf) && buf[i].dev == buf[j].dev == DEV
    ensures buf[i].blockno != buf[j].blockno
  {
    assert !Caches(buf[j], buf[i].dev, buf[i].blockno);
  }

  lemma {:induction false} Injective(buf: seq<Buf>, n: nat)
    requires n <= NBUF < |buf| && Unique(buf) && forall i :: 0 <= i < n ==> buf[i].dev == DEV
    ensures |Blocks(buf, n)| == n
  {
    hide Unique;
    if n > 0 {
      Injective(buf, n - 1);
      forall i | 0 <= i < n - 1 ensures buf[i].blockno != buf[n - 1].blockno { Differ(buf, i, n - 1); }
    }
  }

  lemma Crowded(buf: seq<Buf>, disk: seq<Block>, pins: set<nat>, held: set<nat>, c: seq<Block>)
    requires Fits(buf, disk, pins, held, c) && forall i :: 0 <= i < NBUF ==> buf[i].refcnt > 0
    ensures |pins| + |held| >= NBUF
  {
    forall i | 0 <= i < NBUF ensures buf[i].dev == DEV && buf[i].blockno in pins + held {
      assert BufFits(buf[i], disk, pins, held, c);
    }
    Injective(buf, NBUF);
    assert Blocks(buf, NBUF) <= pins + held;
    SubsetSize(Blocks(buf, NBUF), pins + held);
    assert |pins + held| <= |pins| + |held|;
  }

  // Fewer references than buffers: some buffer is unreferenced.
  lemma Unreferenced(buf: seq<Buf>, disk: seq<Block>, pins: set<nat>, held: set<nat>, c: seq<Block>)
    requires Fits(buf, disk, pins, held, c) && |pins| + |held| < NBUF
    ensures exists i :: 0 <= i < NBUF && buf[i].refcnt == 0
  {
    if forall i :: 0 <= i < NBUF ==> buf[i].refcnt > 0 { Crowded(buf, disk, pins, held, c); }
  }

  // ---------------------------------------------------------------- what each cache call does to the references

  // The contents that bread returns for a block this process does not hold.
  function Contents(disk: seq<Block>, pins: set<nat>, c: seq<Block>, b: nat): Block
    requires b < |disk| && b < |c|
  {
    if b in pins then c[b] else disk[b]
  }

  lemma AfterBread(buf: seq<Buf>, buf': seq<Buf>, disk: seq<Block>, pins: set<nat>, held: set<nat>, c: seq<Block>,
                   r: nat, b: nat)
    requires Fits(buf, disk, pins, held, c) && Unique(buf') && |buf'| == NBUF + 1 && b < FSSIZE && b !in held
             && r < NBUF
    requires Caches(buf'[r], DEV, b) && buf'[r].valid && buf'[r].refcnt == buf[r].refcnt + 1
    requires buf'[r].data == (if Caches(buf[r], DEV, b) && buf[r].valid then buf[r].data else disk[b])
    requires !Caches(buf[r], DEV, b) ==> buf[r].refcnt == 0 && forall i :: 0 <= i < NBUF ==> !Caches(buf[i], DEV, b)
    requires forall i :: 0 <= i <= NBUF && i != r ==> buf'[i] == buf[i]
    ensures Fits(buf', disk, pins, held + {b}, c)
    ensures buf'[r].data == Contents(disk, pins, c, b)
  {
    assert BufFits(buf[r], disk, pins, held, c);
    OnlyBuffer(buf', r, b);
    assert BufFits(buf'[r], disk, pins, held + {b}, c);
    forall i | 0 <= i < NBUF && i != r ensures BufFits(buf'[i], disk, pins, held + {b}, c) {
      assert BufFits(buf[i], disk, pins, held, c);
    }
    hide Unique;
    forall x | x in pins + held + {b} ensures exists i :: 0 <= i < NBUF && Caches(buf'[i], DEV, x) {
      if x == b { assert Caches(buf'[r], DEV, x); } else {
        var i :| 0 <= i < NBUF && Caches(buf[i], DEV, x);
        assert i != r by { assert BufFits(buf[i], disk, pins, held, c); }
        assert Caches(buf'[i], DEV, x);
      }
    }
  }

  lemma InHand(buf: seq<Buf>, disk: seq<Block>, pins: set<nat>, held: set<nat>, c: seq<Block>, r: nat, b: nat)
    requires Fits(buf, disk, pins, held, c) && r < NBUF && b in held && Caches(buf[r], DEV, b)
    ensures buf[r].refcnt > 0 && |c| == |disk| == FSSIZE
  {
    assert BufFits(buf[r], disk, pins, held, c);
  }

  lemma NoElements(t: seq<nat>)
    requires t == []
    ensures Elements(t) == {}
  {
  }

  lemma PinsFrom(t: seq<nat>, i: nat)
    requires I.DistinctHomes(t) && i < |t|
    ensures t[i] in Elements(t[i..]) && Elements(t[i..]) - {t[i]} == Elements(t[i + 1..]) && |Elements(t[i..])| < NBUF
    ensures forall b :: b in Elements(t[i..]) ==> P.Home(b)
  {
    SetOfSeq(t[i..]);
    assert t[i..] == [t[i]] + t[i + 1..];
  }

  lemma StandsSize(disk: seq<Block>, t: seq<nat>, c: seq<Block>)
    requires I.Stands(disk, t, c)
    ensures |disk| == |c| == FSSIZE
  {
  }

  lemma StandsParts(disk: seq<Block>, t: seq<nat>, c: seq<Block>, i: nat)
    requires I.Stands(disk, t, c) && i < |t|
    ensures |disk| == |c| == FSSIZE && P.Home(t[i]) && disk[P.Slot(i)] == c[t[i]]
  {
  }

  lemma Installed(disk: seq<Block>, t: seq<nat>, c: seq<Block>)
    requires I.Stands(disk, t, c) && forall i :: 0 <= i < |t| ==> t[i] < |disk| && t[i] < |c| && disk[t[i]] == c[t[i]]
    ensures |disk| == |c| == FSSIZE && forall b :: P.Home(b) ==> disk[b] == c[b]
  {
  }

  lemma AfterSetData(buf: seq<Buf>, disk: seq<Block>, pins: set<nat>, held: set<nat>, c: seq<Block>, r: nat, b: nat,
                     data: Block)
    requires Fits(buf, disk, pins, held, c) && r < NBUF && b in held && Caches(buf[r], DEV, b)
    ensures Fits(buf[r := buf[r].(data := data)], disk, pins, held, c)
  {
    var buf' := buf[r := buf[r].(data := data)];
    forall i | 0 <= i < NBUF ensures BufFits(buf'[i], disk, pins, held, c) {
      assert BufFits(buf[i], disk, pins, held, c);
    }
    forall x | x in pins + held ensures exists i :: 0 <= i < NBUF && Caches(buf'[i], DEV, x) {
      var i :| 0 <= i < NBUF && Caches(buf[i], DEV, x);
      assert Caches(buf'[i], DEV, x);
    }
  }

  lemma AfterBwrite(buf: seq<Buf>, disk: seq<Block>, pins: set<nat>, held: set<nat>, c: seq<Block>, b: nat, data: Block)
    requires Fits(buf, disk, pins, held, c) && b in held && b < FSSIZE
    ensures Fits(buf, disk[b := data], pins, held, c)
  {
    forall i | 0 <= i < NBUF ensures BufFits(buf[i], disk[b := data], pins, held, c) {
      assert BufFits(buf[i], disk, pins, held, c);
    }
  }

  // log_write: the block is pinned from now on, with the data its holder gave it.
  lemma AfterBpin(buf: seq<Buf>, buf': seq<Buf>, disk: seq<Block>, pins: set<nat>, held: set<nat>, c: seq<Block>,
                  r: nat, b: nat)
    requires Fits(buf, disk, pins, held, c) && b in held && b < FSSIZE && r < NBUF && Caches(buf[r], DEV, b)
    requires buf' == buf[r := buf[r].(refcnt := buf[r].refcnt + (if b in pins then 0 else 1))]
    ensures Fits(buf', disk, pins + {b}, held, c[b := buf[r].data])
  {
    OnlyBuffer(buf, r, b);
    forall i | 0 <= i < NBUF ensures BufFits(buf'[i], disk, pins + {b}, held, c[b := buf[r].data]) {
      assert BufFits(buf[i], disk, pins, held, c);
    }
    forall x | x in pins + {b} + held ensures exists i :: 0 <= i < NBUF && Caches(buf'[i], DEV, x) {
      var i :| 0 <= i < NBUF && Caches(buf[i], DEV, x);
      assert Caches(buf'[i], DEV, x);
    }
  }

  lemma AfterBunpin(buf: seq<Buf>, disk: seq<Block>, pins: set<nat>, held: set<nat>, c: seq<Block>, r: nat, b: nat)
    requires Fits(buf, disk, pins, held, c) && b in held && b in pins && r < NBUF && Caches(buf[r], DEV, b)
    ensures buf[r].refcnt == 2
    ensures Fits(buf[r := buf[r].(refcnt := buf[r].refcnt - 1)], disk, pins - {b}, held, c)
  {
    var buf' := buf[r := buf[r].(refcnt := buf[r].refcnt - 1)];
    assert BufFits(buf[r], disk, pins, held, c);
    OnlyBuffer(buf, r, b);
    forall i | 0 <= i < NBUF ensures BufFits(buf'[i], disk, pins - {b}, held, c) {
      assert BufFits(buf[i], disk, pins, held, c);
    }
    forall x | x in pins - {b} + held ensures exists i :: 0 <= i < NBUF && Caches(buf'[i], DEV, x) {
      var i :| 0 <= i < NBUF && Caches(buf[i], DEV, x);
      assert Caches(buf'[i], DEV, x);
    }
  }

  lemma AfterBrelse(buf: seq<Buf>, buf': seq<Buf>, disk: seq<Block>, pins: set<nat>, held: set<nat>, c: seq<Block>,
                    r: nat, b: nat)
    requires Fits(buf, disk, pins, held, c) && b in held && b < FSSIZE && r < NBUF && Caches(buf[r], DEV, b)
             && buf[r].refcnt > 0
    requires buf[r].data == Contents(disk, pins, c, b)
    requires SamePayload(buf[r := buf[r].(refcnt := buf[r].refcnt - 1)], buf')
    ensures Fits(buf', disk, pins, held - {b}, c)
  {
    OnlyBuffer(buf, r, b);
    forall i | 0 <= i < NBUF ensures BufFits(buf'[i], disk, pins, held - {b}, c) {
      assert BufFits(buf[i], disk, pins, held, c);
    }
    forall x | x in pins + (held - {b}) ensures exists i :: 0 <= i < NBUF && Caches(buf'[i], DEV, x) {
      var i :| 0 <= i < NBUF && Caches(buf[i], DEV, x);
      assert Caches(buf'[i], DEV, x);
    }
    assert Unique(buf');
  }

  // ---------------------------------------------------------------- commit and recovery

  // The header write is the commit point.
  lemma HeadCommits(disk: seq<Block>, lh: seq<nat>, c0: seq<Block>, c: seq<Block>)
    requires I.Stands(disk, [], c0) && I.DistinctHomes(lh) && |c| == FSSIZE
    requires forall i :: 0 <= i < |lh| ==> disk[P.Slot(i)] == c[lh[i]]
    requires forall b :: P.Home(b) && b !in lh ==> c[b] == c0[b]
    ensures I.Stands(disk[LOGSTART := P.WriteHeader(disk[LOGSTART], lh)], lh, c)
  {
  }

  // A buffer as it was, but for its links.
  predicate Same(f: Buf, g: Buf) { g == f.(prev := g.prev, next := g.next) }

  class Log {
    const bc: BufferCache
    var lh: seq<nat>   // lh.block[0 .. lh.n]

    constructor (bc: BufferCache)
      ensures this.bc == bc && lh == []
    {
      this.bc := bc;
      lh := [];
    }

    predicate Sized()
      reads bc
    {
      |bc.buf| == NBUF + 1 && |bc.disk| == FSSIZE
    }

    ghost predicate Ready(pins: set<nat>, held: set<nat>, c: seq<Block>)
      reads this, bc
    {
      bc.Valid() && Fits(bc.buf, bc.disk, pins, held, c)
    }

    // bread of a block that this process does not hold.
    method Read(b: nat, ghost pins: set<nat>, ghost held: set<nat>, ghost c: seq<Block>) returns (r: nat)
      requires Ready(pins, held, c) && b < FSSIZE && b !in held && (b in pins || |pins| + |held| < NBUF)
      modifies bc`buf
      ensures Ready(pins, held + {b}, c) && Sized()
      ensures r < NBUF && Caches(bc.buf[r], DEV, b) && bc.buf[r].data == Contents(bc.disk, pins, c, b)
      ensures forall i :: 0 <= i < NBUF && i != r ==> bc.buf[i] == old(bc.buf)[i]
      ensures forall i, x :: 0 <= i < NBUF && x in held && Caches(old(bc.buf)[i], DEV, x) ==> i != r
    {
      if b !in pins { Unreferenced(bc.buf, bc.disk, pins, held, c); }
      else { assert b in pins + held; }
      var got := bc.Bread(DEV, b);
      r := got.value;
      AfterBread(old(bc.buf), bc.buf, bc.disk, pins, held, c, r, b);
    }

    method Release(r: nat, b: nat, ghost pins: set<nat>, ghost held: set<nat>, ghost c: seq<Block>)
      requires Ready(pins, held, c) && b in held && b < FSSIZE
      requires r < NBUF && Caches(bc.buf[r], DEV, b) && bc.buf[r].data == Contents(bc.disk, pins, c, b)
      modifies bc`buf, bc`order, bc`stamp, bc`clock
      ensures Ready(pins, held - {b}, c) && Sized()
      ensures forall i :: 0 <= i < NBUF && i != r ==> Same(old(bc.buf)[i], bc.buf[i])
    {
      assert BufFits(bc.buf[r], bc.disk, pins, held, c);
      bc.Brelse(r);
      AfterBrelse(old(bc.buf), bc.buf, bc.disk, pins, held, c, r, b);
    }

    // memmove into a held buffer, then bwrite.
    method Store(r: nat, b: nat, data: Block, ghost pins: set<nat>, ghost held: set<nat>, ghost c: seq<Block>)
      requires Ready(pins, held, c) && b in held && b < FSSIZE
      requires r < NBUF && Caches(bc.buf[r], DEV, b)
      modifies bc`buf, bc`disk, bc`history
      ensures Ready(pins, held, c) && Sized()
      ensures bc.disk == old(bc.disk)[b := data] && bc.history == old(bc.history) + [bc.disk]
      ensures bc.buf == old(bc.buf)[r := old(bc.buf)[r].(data := data)]
    {
      assert BufFits(bc.buf[r], bc.disk, pins, held, c);
      AfterSetData(bc.buf, bc.disk, pins, held, c, r, b, data);
      bc.SetData(r, data);
      AfterBwrite(bc.buf, bc.disk, pins, held, c, b, data);
      bc.Bwrite(r);
    }
  
    method Unpin(r: nat, b: nat, ghost pins: set<nat>, ghost held: set<nat>, ghost c: seq<Block>)
      requires Ready(pins, held, c) && b in held && b in pins && r < NBUF && Caches(bc.buf[r], DEV, b)
      modifies bc`buf
      ensures Ready(pins - {b}, held, c) && Sized()
      ensures bc.buf == old(bc.buf)[r := old(bc.buf)[r].(refcnt := bc.buf[r].refcnt)]
    {
      AfterBunpin(bc.buf, bc.disk, pins, held, c, r, b);
      bc.Bunpin(r);
    }

    // Two breads in a row, of different blocks; the second one is pinned or there is room for it.
    method ReadBoth(a: nat, b: nat, ghost pins: set<nat>, ghost c: seq<Block>) returns (ra: nat, rb: nat)
      requires Ready(pins, {}, c) && a < FSSIZE && b < FSSIZE && a != b
      requires |pins| < NBUF && (b in pins || |pins| + 1 < NBUF)
      modifies bc`buf
      ensures Ready(pins, {a, b}, c) && Sized() && ra < NBUF && rb < NBUF && ra != rb
      ensures Caches(bc.buf[ra], DEV, a) && bc.buf[ra].data == Contents(bc.disk, pins, c, a)
      ensures Caches(bc.buf[rb], DEV, b) && bc.buf[rb].data == Contents(bc.disk, pins, c, b)
    {
      assert {} + {a} == {a} && {a} + {b} == {a, b};
      ra := Read(a, pins, {}, c);
      rb := Read(b, pins, {a}, c);
    }

    method ReleaseBoth(ra: nat, a: nat, rb: nat, b: nat, ghost pins: set<nat>, ghost c: seq<Block>)
      requires Ready(pins, {a, b}, c) && a < FSSIZE && b < FSSIZE && a != b && ra < NBUF && rb < NBUF && ra != rb
      requires Caches(bc.buf[ra], DEV, a) && bc.buf[ra].data == Contents(bc.disk, pins, c, a)
      requires Caches(bc.buf[rb], DEV, b) && bc.buf[rb].data == Contents(bc.disk, pins, c, b)
      modifies bc`buf, bc`order, bc`stamp, bc`clock
      ensures Ready(pins, {}, c) && Sized()
    {
      assert {a, b} - {a} == {b} && {b} - {b} == {};
      Release(ra, a, pins, {a, b}, c);
      Release(rb, b, pins, {b}, c);
    }

    // Between calls: the log header lists distinct home blocks, pins is what the cache pins for it.
    ghost predicate Idle(pins: set<nat>, c: seq<Block>)
      reads this, bc
    {
      Ready(pins, {}, c) && I.DistinctHomes(lh)
    }

    // log_write, by the holder of buffer r.  Logging a block again absorbs it.
    method LogWrite(r: nat, b: nat, outstanding: int, ghost held: set<nat>, ghost c: seq<Block>) returns (panic: bool)
      requires Ready(Elements(lh), held, c) && I.DistinctHomes(lh) && P.Home(b) && b in held
      requires r < NBUF && Caches(bc.buf[r], DEV, b)
      modifies this, bc`buf
      ensures panic <==> |old(lh)| >= LOGSIZE || |old(lh)| >= NLOG - 1 || outstanding < 1
      ensures panic ==> lh == old(lh) && bc.buf == old(bc.buf)
      ensures !panic ==> lh == (if b in old(lh) then old(lh) else old(lh) + [b])
      ensures !panic ==> I.DistinctHomes(lh) && Ready(Elements(lh), held, c[b := old(bc.buf)[r].data])
      ensures bc.buf == old(bc.buf)[r := old(bc.buf)[r].(refcnt := bc.buf[r].refcnt)]
    {
      if |lh| >= LOGSIZE || |lh| >= NLOG - 1 || outstanding < 1 { return true; }
      var i := 0;
      while i < |lh| && lh[i] != b
        invariant i <= |lh| && b !in lh[..i]
      {
        i := i + 1;
      }
      if i == |lh| {
        assert b !in lh;
        bc.Bpin(r);
        lh := lh + [b];
      } else {
        lh := lh[i := b];
        assert lh == old(lh);
        assert bc.buf == bc.buf[r := bc.buf[r].(refcnt := bc.buf[r].refcnt + 0)];
      }
      assert Elements(lh) == Elements(old(lh)) + {b};
      AfterBpin(old(bc.buf), bc.buf, bc.disk, Elements(old(lh)), held, c, r, b);
      panic := false;
    }

    // One block of a transaction: bread, change it, log_write, brelse.  It panics only when the log
    // has no slot left.
    method Update(b: nat, data: Block, ghost c: seq<Block>) returns (panic: bool)
      requires Idle(Elements(lh), c) && P.Home(b) && |lh| < NLOG
      modifies this, bc
      ensures panic <==> |old(lh)| >= NLOG - 1
      ensures bc.disk == old(bc.disk) && bc.history == old(bc.history)
      ensures !panic ==> lh == (if b in old(lh) then old(lh) else old(lh) + [b]) && Idle(Elements(lh), c[b := data])
    {
      hide Fits, I.DistinctHomes;
      ghost var pins := Elements(lh);
      SetOfSeq(lh);
      var r := Read(b, pins, {}, c);
      assert {} + {b} == {b};
      AfterSetData(bc.buf, bc.disk, pins, {b}, c, r, b, data);
      InHand(bc.buf, bc.disk, pins, {b}, c, r, b);
      bc.SetData(r, data);
      panic := LogWrite(r, b, 1, {b}, c);
      if !panic {
        Release(r, b, Elements(lh), {b}, c[b := data]);
        assert {b} - {b} == {};
      }
    }

    // One round of write_log's loop.
    method CopyToLog(tail: nat, ghost c: seq<Block>)
      requires Idle(Elements(lh), c) && tail < |lh|
      modifies bc
      ensures Idle(Elements(lh), c) && bc.disk == old(bc.disk)[P.Slot(tail) := c[lh[tail]]]
      ensures bc.history == old(bc.history) + [bc.disk]
    {
      ghost var pins := Elements(lh);
      SetOfSeq(lh);
      assert Sized() && |c| == FSSIZE;
      hide Ready, Fits;
      var to, from := ReadBoth(P.Slot(tail), lh[tail], pins, c);
      Store(to, P.Slot(tail), bc.buf[from].data, pins, {P.Slot(tail), lh[tail]}, c);
      assert {P.Slot(tail), lh[tail]} == {lh[tail], P.Slot(tail)};
      ReleaseBoth(from, lh[tail], to, P.Slot(tail), pins, c);
    }

    // The reads, the copy and the write of one round of install_trans's loop.
    method LoadHome(l: nat, d: nat, ghost pins: set<nat>, ghost c: seq<Block>) returns (lbuf: nat, dbuf: nat)
      requires Ready(pins, {}, c) && l < FSSIZE && d < FSSIZE && l != d && l !in pins && |c| == FSSIZE
               && bc.disk[l] == c[d]
      requires |pins| < NBUF && (d in pins || |pins| + 1 < NBUF)
      modifies bc`buf, bc`disk, bc`history
      ensures Ready(pins, {l, d}, c) && Sized() && lbuf < NBUF && dbuf < NBUF && lbuf != dbuf
      ensures bc.disk == old(bc.disk)[d := c[d]] && bc.history == old(bc.history) + [bc.disk]
      ensures Caches(bc.buf[lbuf], DEV, l) && bc.buf[lbuf].data == bc.disk[l]
      ensures Caches(bc.buf[dbuf], DEV, d) && bc.buf[dbuf].data == c[d]
    {
      assert Sized();
      hide Ready, Fits;
      lbuf, dbuf := ReadBoth(l, d, pins, c);
      Store(dbuf, d, bc.buf[lbuf].data, pins, {l, d}, c);
    }

    // One round of install_trans's loop; pins are the blocks of lh not yet installed.
    method CopyHome(tail: nat, recovering: bool, ghost pins: set<nat>, ghost c: seq<Block>)
      requires Idle(pins, c) && tail < |lh| && bc.disk[P.Slot(tail)] == c[lh[tail]]
      requires |pins| < NBUF && (forall b :: b in pins ==> P.Home(b))
      requires if recovering then pins == {} else lh[tail] in pins
      modifies bc
      ensures Idle(pins - {lh[tail]}, c) && bc.disk == old(bc.disk)[lh[tail] := c[lh[tail]]]
      ensures bc.history == old(bc.history) + [bc.disk]
    {
      ghost var l, d := P.Slot(tail), lh[tail];
      assert |c| == FSSIZE && P.Home(d) && l !in pins;
      hide Ready, Fits;
      var lbuf, dbuf := LoadHome(P.Slot(tail), lh[tail], pins, c);
      if !recovering {
        Unpin(dbuf, lh[tail], pins, {l, d}, c);
      } else {
        assert pins - {d} == pins;
      }
      ReleaseBoth(lbuf, P.Slot(tail), dbuf, lh[tail], pins - {d}, c);
    }

    // write_head.
    method WriteHead(ghost pins: set<nat>, ghost c: seq<Block>)
      requires Idle(pins, c) && |pins| < NBUF && (forall b :: b in pins ==> P.Home(b))
      modifies bc
      ensures Idle(pins, c) && bc.disk == old(bc.disk)[LOGSTART := P.WriteHeader(old(bc.disk)[LOGSTART], lh)]
      ensures bc.history == old(bc.history) + [bc.disk]
    {
      assert {} + {LOGSTART} == {LOGSTART} && {LOGSTART} - {LOGSTART} == {};
      assert Sized() && |c| == FSSIZE && LOGSTART !in pins;
      hide Ready, Fits, P.WriteHeader;
      var hb := Read(LOGSTART, pins, {}, c);
      Store(hb, LOGSTART, P.WriteHeader(bc.buf[hb].data, lh), pins, {LOGSTART}, c);
      Release(hb, LOGSTART, pins, {LOGSTART}, c);
    }

    // read_head.  The header on the disk names t.
    method ReadHead(ghost t: seq<nat>, ghost c: seq<Block>)
      requires Idle({}, c) && I.DistinctHomes(t) && I.Names(bc.disk[LOGSTART], t)
      modifies this, bc`buf, bc`order, bc`stamp, bc`clock
      ensures Idle({}, c) && lh == t
    {
      assert {} + {LOGSTART} == {LOGSTART} && {LOGSTART} - {LOGSTART} == {};
      var hb := Read(LOGSTART, {}, {}, c);
      var h := bc.buf[hb].data;
      ghost var before := bc.buf;
      lh := [];
      for i := 0 to P.HeaderN(h)
        invariant lh == t[..i]
        invariant bc.Valid() && Fits(bc.buf, bc.disk, {}, {LOGSTART}, c) && bc.buf == before
      {
        assert h[i + 1] == t[i];
        lh := lh + [h[i + 1]];
      }
      Release(hb, LOGSTART, {}, {LOGSTART}, c);
    }
  
    // write_log: every state on the way still stands for the old contents c0.
    method WriteLog(ghost c0: seq<Block>, ghost c: seq<Block>)
      requires Idle(Elements(lh), c) && I.Stands(bc.disk, [], c0)
      modifies bc
      ensures Idle(Elements(lh), c) && I.Stands(bc.disk, [], c0)
      ensures forall i :: 0 <= i < |lh| ==> bc.disk[P.Slot(i)] == c[lh[i]]
      ensures old(bc.history) <= bc.history && AllStand(bc.history, |old(bc.history)|, |bc.history|, c0)
    {
      for tail := 0 to |lh|
        invariant Idle(Elements(lh), c) && I.Stands(bc.disk, [], c0)
        invariant forall i :: 0 <= i < tail ==> bc.disk[P.Slot(i)] == c[lh[i]]
        invariant old(bc.history) <= bc.history && AllStand(bc.history, |old(bc.history)|, |bc.history|, c0)
      {
        F.StandsAfterSlot(bc.disk, c0, tail, c[lh[tail]]);
        CopyToLog(tail, c);
      }
    }

    // install_trans: every state on the way stands for c.
    method InstallTrans(recovering: bool, ghost c: seq<Block>)
      requires Idle(if recovering then {} else Elements(lh), c) && I.Stands(bc.disk, lh, c)
      modifies bc
      ensures Idle({}, c) && I.Stands(bc.disk, lh, c) && (forall b :: P.Home(b) ==> bc.disk[b] == c[b])
      ensures old(bc.history) <= bc.history && AllStand(bc.history, |old(bc.history)|, |bc.history|, c)
    {
      hide Ready, Fits, I.Stands, Elements;
      ghost var pins := if recovering then {} else Elements(lh);
      assert lh[0..] == lh;
      NoElements(lh[|lh|..]);
      StandsSize(bc.disk, lh, c);
      for tail := 0 to |lh|
        invariant pins == if recovering then {} else Elements(lh[tail..])
        invariant Idle(pins, c) && I.Stands(bc.disk, lh, c) && |bc.disk| == |c| == FSSIZE
        invariant forall i :: 0 <= i < tail ==> bc.disk[lh[i]] == c[lh[i]]
        invariant old(bc.history) <= bc.history && AllStand(bc.history, |old(bc.history)|, |bc.history|, c)
      {
        PinsFrom(lh, tail);
        StandsParts(bc.disk, lh, c, tail);
        F.StandsAfterHome(bc.disk, lh, c, lh[tail]);
        CopyHome(tail, recovering, pins, c);
        pins := pins - {lh[tail]};
      }
      Installed(bc.disk, lh, c);
    }

    // log.lh.n = 0; write_head().
    method EraseLog(ghost c: seq<Block>)
      requires Idle({}, c) && I.Stands(bc.disk, lh, c) && (forall b :: P.Home(b) ==> bc.disk[b] == c[b])
      modifies this, bc
      ensures lh == [] && Idle({}, c) && I.Stands(bc.disk, [], c)
      ensures bc.history == old(bc.history) + [bc.disk]
    {
      F.StandsAfterClear(bc.disk, lh, c, P.WriteHeader(bc.disk[LOGSTART], []));
      lh := [];
      WriteHead({}, c);
    }

    // commit(): the disk stands for the old contents c0 up to one write, for the new
    // contents c from that write on.
    method Commit(ghost c0: seq<Block>, ghost c: seq<Block>) returns (ghost m: nat)
      requires Idle(Elements(lh), c) && I.Stands(bc.disk, [], c0)
      requires forall b :: P.Home(b) && b !in lh ==> c[b] == c0[b]
      modifies this, bc
      ensures lh == [] && Idle({}, c) && I.Stands(bc.disk, [], c)
      ensures old(bc.history) <= bc.history && |old(bc.history)| <= m <= |bc.history|
      ensures AllStand(bc.history, |old(bc.history)|, m, c0) && AllStand(bc.history, m, |bc.history|, c)
    {
      m := |bc.history|;
      if |lh| > 0 {
        WriteLog(c0, c);
        m := |bc.history|;
        ghost var pins := Elements(lh);
        SetOfSeq(lh);
        HeadCommits(bc.disk, lh, c0, c);
        WriteHead(pins, c);
        InstallTrans(false, c);
        EraseLog(c);
      } else {
        assert Elements(lh) == {};
      }
    }

    // recover_from_log(): whatever the disk stands for, it goes on standing for it, and ends
    // with every home block in place.
    method RecoverFromLog(ghost t: seq<nat>, ghost c: seq<Block>)
      requires Idle({}, c) && I.Stands(bc.disk, t, c)
      modifies this, bc
      ensures lh == [] && Idle({}, c) && I.Stands(bc.disk, [], c)
      ensures old(bc.history) <= bc.history && AllStand(bc.history, |old(bc.history)|, |bc.history|, c)
    {
      ReadHead(t, c);
      InstallTrans(true, c);
      EraseLog(c);
    }
  }

  // Power fails again and again during recovery: the n-th attempt stops at the disk state
  // that crashes[n] selects.  The recovery that is finally left alone restores c.
  method Survive(disk: seq<Block>, crashes: seq<nat>, ghost t: seq<nat>, ghost c: seq<Block>)
    returns (final: seq<Block>)
    requires I.Stands(disk, t, c)
    ensures |final| == FSSIZE && P.HeaderN(final[LOGSTART]) == 0
    ensures forall b :: P.Home(b) ==> final[b] == c[b]
  {
    final := disk;
    ghost var names := t;
    for n := 0 to |crashes|
      invariant I.Stands(final, names, c)
    {
      var bc := new BufferCache(final);
      var log := new Log(bc);
      Boots(bc.buf, bc.disk, c);
      log.RecoverFromLog(names, c);
      var stop := crashes[n] % |bc.history|;
      if stop > 0 {
        assert StandsFor(bc.history[stop], c);
        names :| I.Stands(bc.history[stop], names, c);
      } else {
        assert bc.history[0] == final;
      }
      final := bc.history[stop];
    }
    var bc := new BufferCache(final);
    var log := new Log(bc);
    Boots(bc.buf, bc.disk, c);
    log.RecoverFromLog(names, c);
    final := bc.disk;
  }

  // A transaction commits, power fails at some point of it and of the recoveries that
  // follow: every home block is as before the transaction, or every one is as it left it.
  method CrashDuringCommit(log: Log, stop: nat, crashes: seq<nat>, ghost c0: seq<Block>, ghost c: seq<Block>)
    returns (final: seq<Block>)
    requires log.Idle(Elements(log.lh), c) && I.Stands(log.bc.disk, [], c0)
    requires forall b :: P.Home(b) && b !in log.lh ==> c[b] == c0[b]
    modifies log, log.bc
    ensures |final| == |c0| == |c| == FSSIZE && P.HeaderN(final[LOGSTART]) == 0
    ensures (forall b :: P.Home(b) ==> final[b] == c0[b]) || (forall b :: P.Home(b) ==> final[b] == c[b])
  {
    var disk, before := log.bc.disk, |log.bc.history|;
    ghost var m := log.Commit(c0, c);
    var writes := |log.bc.history| - before;
    var k := stop % (writes + 1);
    if k == 0 {
      final := Survive(disk, crashes, [], c0);
    } else {
      var d := log.bc.history[before + k - 1];
      ghost var kept := if before + k - 1 < m then c0 else c;
      assert StandsFor(d, kept);
      ghost var t :| I.Stands(d, t, kept);
      final := Survive(d, crashes, t, kept);
    }
  }

  lemma Boots(buf: seq<Buf>, disk: seq<Block>, c: seq<Block>)
    requires |disk| == |c| == FSSIZE && |buf| == NBUF + 1 && Unique(buf)
    requires forall b :: 0 <= b < NBUF ==> buf[b].refcnt == 0 && !buf[b].valid && buf[b].dev == 0
    ensures Fits(buf, disk, {}, {}, c)
  {
  }

  // Every disk of history[from .. to] recovers to the contents c.
  ghost predicate AllStand(history: seq<seq<Block>>, from: nat, to: nat, c: seq<Block>) {
    from <= to <= |history| && forall k :: from <= k < to ==> StandsFor(history[k], c)
  }

  ghost predicate StandsFor(disk: seq<Block>, c: seq<Block>) { exists t :: I.Stands(disk, t, c) }
}
