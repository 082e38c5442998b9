/** Transactions one after the other on the log of module LogCode, with a power failure at any point:
    what recovery leaves is the effect of a prefix of them. */
module LogRuns {
  import opened BufferRing
  import opened Collections
  import opened LogCode
  import opened Params
  import I = LogProtocolInv
  import P = LogProtocol

  // The blocks that a transaction gives to log_write, with their new contents among those of all blocks.
  datatype Tx = Tx(blocks: set<nat>, data: seq<Block>)

  ghost predicate TxOk(x: Tx) {
    |x.blocks| < NLOG && |x.data| == FSSIZE && forall b :: b in x.blocks ==> P.Home(b)
  }

  // The contents c with the blocks of x replaced.
  function Overlay(c: seq<Block>, x: Tx): (r: seq<Block>)
    requires |c| == |x.data|
    ensures |r| == |c| && forall b :: 0 <= b < |c| ==> r[b] == if b in x.blocks then x.data[b] else c[b]
  {
    seq(|c|, b requires 0 <= b < |c| => if b in x.blocks then x.data[b] else c[b])
  }

  // The contents after all the transactions.
  function After(c: seq<Block>, txs: seq<Tx>): (r: seq<Block>)
    requires |c| == FSSIZE && forall k :: 0 <= k < |txs| ==> |txs[k].data| == FSSIZE
    ensures |r| == FSSIZE
  {
    if txs == [] then c else Overlay(After(c, txs[..|txs| - 1]), txs[|txs| - 1])
  }

  lemma AfterNext(c: seq<Block>, txs: seq<Tx>, k: nat)
    requires |c| == FSSIZE && k < |txs| && forall j :: 0 <= j < |txs| ==> |txs[j].data| == FSSIZE
    ensures After(c, txs[..k + 1]) == Overlay(After(c, txs[..k]), txs[k])
  {
    assert txs[..k + 1][..k] == txs[..k];
  }

  // The log_writes of one transaction, in any order.
  method Fill(log: Log, x: Tx, ghost c: seq<Block>)
    requires log.lh == [] && log.Idle({}, c) && |c| == FSSIZE && TxOk(x)
    modifies log, log.bc
    ensures Elements(log.lh) == x.blocks && log.Idle(Elements(log.lh), Overlay(c, x))
    ensures log.bc.disk == old(log.bc.disk) && log.bc.history == old(log.bc.history)
  {
    hide Fits, I.DistinctHomes, Elements;
    var rest := x.blocks;
    ghost var done := {};
    Empty(log.lh);
    OverlayNone(c, x.data);
    while rest != {}
      invariant done + rest == x.blocks && done !! rest && Elements(log.lh) == done && |log.lh| == |done|
      invariant log.Idle(Elements(log.lh), Overlay(c, Tx(done, x.data)))
      invariant log.bc.disk == old(log.bc.disk) && log.bc.history == old(log.bc.history)
      decreases |rest|
    {
      var b :| b in rest;
      Fewer(done, x.blocks, b);
      OneMore(log.lh, b);
      OverlayMore(c, x.data, done, b);
      var panic := log.Update(b, x.data[b], Overlay(c, Tx(done, x.data)));
      done, rest := done + {b}, rest - {b};
    }
    assert done == x.blocks;
    assert Tx(done, x.data) == x;
  }

  lemma Empty(lh: seq<nat>)
    requires lh == []
    ensures Elements(lh) == {}
  {
  }

  lemma OneMore(lh: seq<nat>, b: nat)
    ensures Elements(lh + [b]) == Elements(lh) + {b} && (b in lh <==> b in Elements(lh))
  {
  }

  lemma Fewer(done: set<nat>, all: set<nat>, b: nat)
    requires done <= all && b in all && b !in done
    ensures |done| < |all| && |done + {b}| == |done| + 1
  {
    SubsetSize(done + {b}, all);
  }

  lemma OverlayNone(c: seq<Block>, data: seq<Block>)
    requires |c| == |data|
    ensures Overlay(c, Tx({}, data)) == c
  {
  }

  lemma OverlayMore(c: seq<Block>, data: seq<Block>, done: set<nat>, b: nat)
    requires |c| == |data| && b < |c|
    ensures Overlay(c, Tx(done, data))[b := data[b]] == Overlay(c, Tx(done + {b}, data))
  {
  }

  // Power fails in transaction n, before, in or after its commit, and again and again during the
  // recoveries that follow: in the end every home block is as after the first j transactions, where j
  // is n or n + 1.
  method FailIn(disk: seq<Block>, txs: seq<Tx>, n: nat, stop: nat, crashes: seq<nat>, ghost c: seq<Block>)
    returns (final: seq<Block>, ghost j: nat)
    requires I.Stands(disk, [], c) && n < |txs| && forall k :: 0 <= k < |txs| ==> TxOk(txs[k])
    requires forall k :: 0 <= k < |txs| ==> |txs[k].data| == FSSIZE
    ensures j in {n, n + 1} && |final| == |c| == FSSIZE && P.HeaderN(final[LOGSTART]) == 0
    ensures forall b :: P.Home(b) ==> final[b] == After(c, txs[..j])[b]
  {
    hide Fits, I.Stands, After, I.DistinctHomes;
    StandsSize(disk, [], c);
    var bc := new BufferCache(disk);
    var log := new Log(bc);
    Boots(bc.buf, bc.disk, c);
    NoHomes();
    Empty(log.lh);
    NoneYet(c, txs);
    for k := 0 to n
      invariant log.bc == bc && log.lh == [] && log.Idle({}, After(c, txs[..k]))
                && I.Stands(bc.disk, [], After(c, txs[..k]))
    {
      ghost var c0 := After(c, txs[..k]);
      AfterNext(c, txs, k);
      Fill(log, txs[k], c0);
      InLh(log.lh, txs[k].blocks);
      ghost var m := log.Commit(c0, Overlay(c0, txs[k]));
    }
    ghost var c0 := After(c, txs[..n]);
    AfterNext(c, txs, n);
    Fill(log, txs[n], c0);
    InLh(log.lh, txs[n].blocks);
    final := CrashDuringCommit(log, stop, crashes, c0, Overlay(c0, txs[n]));
    j := if forall b :: P.Home(b) ==> final[b] == c0[b] then n else n + 1;
  }

  lemma NoHomes()
    ensures I.DistinctHomes([])
  {
  }

  lemma NoneYet(c: seq<Block>, txs: seq<Tx>)
    requires |c| == FSSIZE && forall k :: 0 <= k < |txs| ==> |txs[k].data| == FSSIZE
    ensures txs[..0] == [] && After(c, txs[..0]) == c
  {
  }

  lemma InLh(lh: seq<nat>, blocks: set<nat>)
    requires Elements(lh) == blocks
    ensures forall b :: b in blocks <==> b in lh
  {
  }
}
